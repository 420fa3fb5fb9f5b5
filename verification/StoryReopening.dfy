/** How a story leaves the accepted state: an administrator reopens it, and nothing else does. */
module StoryReopening {
  import opened Sequences
  import opened States
  import opened StoryModel
  import opened StoryOrder
  import opened StoryInvariants
  import opened StoryBulk
  import opened StoryRuns
  import opened StoryTies
  import opened StoryUpdates

  /** The operation is an accepted update of the story to delivered by an administrator. */
  ghost predicate Reopens(db: Db, op: Op, id: int) {
    && op.Update? && op.id == id && op.actor.isAdmin && op.update.state == Some(Delivered)
    && UpdateTx(db, id, op.actor, op.update, op.at).Ok?
  }

  /** Stored and accepted, or no longer stored. */
  predicate NotReopened(stories: map<int, Story>, id: int) {
    id in stories ==> stories[id].state == Accepted
  }

  /** Whatever happens to other rows keeps the states of these. */
  predicate SameState(before: map<int, Story>, after: map<int, Story>, id: int) {
    id in after && id in before ==> after[id].state == before[id].state
  }

  lemma UpdateLeaves(db: Db, other: int, actor: Actor, input: UpdateInput, at: int, id: int)
    requires id in db.stories && db.stories[id].state == Accepted && UpdateTx(db, other, actor, input, at).Ok?
    ensures var after := UpdateTx(db, other, actor, input, at).value.stories;
            && id in after
            && (after[id].state != Accepted <==> other == id && actor.isAdmin && input.state == Some(Delivered))
  {
    UpdateStores(db, other, actor, input, at);
    if other == id {
      FieldsFrame(db, db.stories[id], input);
      if input.state.Some? { UpdateReaches(db, id, actor, input, at); }
      UpdateFrame(db, id, actor, input, at);
    }
  }

  lemma CreateLeaves(db: Db, other: int, project: int, who: int, input: CreateInput, id: int)
    requires id in db.stories && other !in db.stories && CreateTx(db, other, project, who, input).Ok?
    ensures SameState(db.stories, CreateTx(db, other, project, who, input).value.stories, id)
  {
    PlacedIsStored(db.stories, Key(project, CreateSection(input)), 0, other, CreateWhere(input),
      CreateTx(db, other, project, who, input).value.stories[other]);
  }

  lemma MoveLeaves(db: Db, other: int, input: MoveInput, id: int)
    requires id in db.stories && db.stories[id].state == Accepted && MoveTx(db, other, input).Ok?
    ensures SameState(db.stories, MoveTx(db, other, input).value.db.stories, id)
    ensures id in MoveTx(db, other, input).value.db.stories
  {
    assert other != id;
    MoveFrame(db, other, input);
  }

  lemma {:induction false} ChainLeaves(db: Db, ids: seq<int>, project: int, input: MoveInput, id: int)
    requires id in db.stories && db.stories[id].state == Accepted && MoveChain(db, ids, project, input).Ok?
    ensures var after := MoveChain(db, ids, project, input).value.stories; id in after && after[id].state == Accepted
  {
    if ids != [] {
      var most, other := ids[..|ids| - 1], ids[|ids| - 1];
      ChainLeaves(db, most, project, input, id);
      if other !in most {
        MoveLeaves(MoveChain(db, most, project, input).value, other, ChainWhere(input, Distinct(most)), id);
      }
    }
  }

  lemma RestoreLeaves(db: Db, other: int, id: int)
    requires id in db.stories && RestoreTx(db, other).Ok?
    ensures SameState(db.stories, RestoreTx(db, other).value.stories, id)
  {
    var stories := db.stories[other := db.stories[other].(deletedAt := None)];
    var row := RestoreTx(db, other).value.stories[other];
    if row.state != Accepted {
      PlacedIsStored(stories, Key(row.project, SectionOf(row.state)), other, other, AT_BOTTOM, row);
    }
  }

  /** Over every operation: an accepted story is in another state afterwards if and only
      if the operation is an administrator's accepted update of it to delivered. */
  lemma LeavesAccepted(db: Db, op: Op, id: int)
    requires Inv(db) && Enabled(db, op) && id in db.stories && db.stories[id].state == Accepted
    ensures NotReopened(Apply(db, op).stories, id) <==> !Reopens(db, op, id)
  {
    match op {
      case AddUser(_) =>
      case AddProject(_, _) =>
      case SetEstimating(_, _) =>
      case Create(other, p, who, input) =>
        if CreateTx(db, other, p, who, input).Ok? { CreateLeaves(db, other, p, who, input, id); }
      case Update(other, who, input, at) =>
        if UpdateTx(db, other, who, input, at).Ok? { UpdateLeaves(db, other, who, input, at, id); }
      case Move(other, input) => if MoveTx(db, other, input).Ok? { MoveLeaves(db, other, input, id); }
      case MoveMany(ids, input) =>
        if MoveManyTx(db, ids, input).Ok? { ChainLeaves(db, ids, db.stories[ids[0]].project, input, id); }
      case Delete(_, _) =>
      case Restore(other) => if RestoreTx(db, other).Ok? { RestoreLeaves(db, other, id); }
      case Purge(_) =>
    }
  }

  /** Asking for nothing but that state is accepted exactly for a live story and an administrator. */
  lemma ReopeningAccepted(db: Db, id: int, actor: Actor, at: int)
    requires Inv(db) && id in db.stories && db.stories[id].state == Accepted
    ensures UpdateTx(db, id, actor, StateUpdate(Delivered), at).Ok? <==> db.stories[id].deletedAt.None? && actor.isAdmin
  {
    assert RowOk(db.projects, db.stories[id]);
  }

  ghost predicate StoredThroughout(run: seq<Db>, i: nat, j: nat, id: int)
    requires j < |run|
  {
    forall k | i <= k <= j :: id in run[k].stories
  }

  ghost predicate AcceptedThroughout(run: seq<Db>, i: nat, j: nat, id: int)
    requires j < |run|
  {
    forall k | i <= k <= j :: id in run[k].stories && run[k].stories[id].state == Accepted
  }

  ghost predicate ReopenedBetween(run: seq<Db>, ops: seq<Op>, i: nat, j: nat, id: int)
    requires j <= |ops| < |run|
  {
    exists k | i <= k < j :: Reopens(run[k], ops[k], id)
  }

  /** Over every run: a story once accepted, and not purged, stays accepted if and only
      if no administrator reopens it. */
  lemma {:induction false} AcceptedUntilReopened(run: seq<Db>, ops: seq<Op>, i: nat, j: nat, id: int)
    requires Follows(run, ops) && i <= j <= |ops| && StoredThroughout(run, i, j, id) && run[i].stories[id].state == Accepted
    ensures AcceptedThroughout(run, i, j, id) <==> !ReopenedBetween(run, ops, i, j, id)
    decreases j
  {
    if i < j {
      AcceptedUntilReopened(run, ops, i, j - 1, id);
      ReopenedLast(run, ops, i, j, id);
      if AcceptedThroughout(run, i, j - 1, id) {
        LeavesAt(run, ops, j - 1, id);
      }
    }
  }

  lemma ReopenedLast(run: seq<Db>, ops: seq<Op>, i: nat, j: nat, id: int)
    requires i < j <= |ops| < |run|
    ensures ReopenedBetween(run, ops, i, j, id) <==> ReopenedBetween(run, ops, i, j - 1, id) || Reopens(run[j - 1], ops[j - 1], id)
  {
    if ReopenedBetween(run, ops, i, j, id) {
      var k :| i <= k < j && Reopens(run[k], ops[k], id);
      assert k < j - 1 || k == j - 1;
    }
  }

  lemma LeavesAt(run: seq<Db>, ops: seq<Op>, k: nat, id: int)
    requires Follows(run, ops) && k < |ops| && id in run[k].stories && run[k].stories[id].state == Accepted
    ensures NotReopened(run[k + 1].stories, id) <==> !Reopens(run[k], ops[k], id)
  {
    FollowsIsRun(run, ops);
    RunKeepsInvariants(run, k);
    LeavesAccepted(run[k], ops[k], id);
  }
}
