/** How far apart the rebalances of a section lie, between any two points of a run. */
module StoryRebalances {
  import opened Sequences
  import opened States
  import opened StoryModel
  import opened StoryOrder
  import opened StoryRoom
  import opened StoryInvariants
  import opened StoryBulk
  import opened StoryRuns

  /** What a story reopened since the last rebalance may bring forward. */
  function Excused(t: Tally): nat { if t.reopened then 16 else 0 }

  /** The later tally has sixteen placements for each rebalance more, up to those since
      the last one, and to one rebalance for each story reopened. */
  predicate Paced(t: Tally, t': Tally) {
    && t.placed <= t'.placed && t.rebalanced <= t'.rebalanced && t.reopens <= t'.reopens
    && 16 * (t'.rebalanced - t.rebalanced) + t'.since + Excused(t') <=
         t'.placed - t.placed + t.since + Excused(t) + 16 * (t'.reopens - t.reopens)
    && (t'.reopened ==> t.reopened || t'.reopens > t.reopens)
    && (t'.rebalanced > t.rebalanced ==> t'.since >= 1)
    && (t.since >= 1 ==> t'.since >= 1)
  }

  /** One placement into a section with room, or into another. */
  lemma PlacementPaced(stories: map<int, Story>, meter: Meter, into: Key, id: int, w: Where, key: Key)
    requires forall k :: Roomy(stories - {id}, meter, k)
    requires Place(stories, into, id, w).Ok?
    ensures Paced(TallyOf(meter, key), TallyOf(Counted(meter, into, Place(stories, into, id, w).value.rebalanced), key))
  {
    assert Roomy(stories - {id}, meter, into);
    PlacementIsDue(stories, meter, into, id, w);
    CountedPaced(meter, into, Place(stories, into, id, w).value.rebalanced, key);
  }

  lemma PlacementIsDue(stories: map<int, Story>, meter: Meter, into: Key, id: int, w: Where)
    requires Roomy(stories - {id}, meter, into) && Place(stories, into, id, w).Ok?
    ensures var t := TallyOf(meter, into);
            t.since <= 16 && (Place(stories, into, id, w).value.rebalanced ==> t.reopened || t.since == 16)
  {
    SameRebalance(stories, into, id, w);
    DueAmong(stories - {id}, meter, into, id, w);
  }

  lemma SameRebalance(stories: map<int, Story>, into: Key, id: int, w: Where)
    requires Place(stories, into, id, w).Ok?
    ensures Place(stories - {id}, into, id, w).Ok?
    ensures Place(stories - {id}, into, id, w).value.rebalanced == Place(stories, into, id, w).value.rebalanced
  {
    var st: Story := *;
    PlaceIgnoresMoved(stories, into, id, w, st);
  }

  lemma DueAmong(others: map<int, Story>, meter: Meter, into: Key, id: int, w: Where)
    requires Roomy(others, meter, into) && Place(others, into, id, w).Ok?
    ensures var t := TallyOf(meter, into);
            t.since <= 16 && (Place(others, into, id, w).value.rebalanced ==> t.reopened || t.since == 16)
  {
    var t := TallyOf(meter, into);
    if Place(others, into, id, w).value.rebalanced && !t.reopened {
      RebalanceIsDue(others, into, id, w, t.since);
    }
  }

  lemma CountedPaced(meter: Meter, into: Key, rebalanced: bool, key: Key)
    requires var t := TallyOf(meter, into); t.since <= 16 && (rebalanced ==> t.reopened || t.since == 16)
    ensures Paced(TallyOf(meter, key), TallyOf(Counted(meter, into, rebalanced), key))
  {
  }

  lemma CreatePaced(db: Db, id: int, project: int, who: int, input: CreateInput, key: Key)
    requires Inv(db) && CreateTx(db, id, project, who, input).Ok?
    ensures Paced(TallyOf(db.meter, key), TallyOf(CreateTx(db, id, project, who, input).value.meter, key))
  {
    RoomWithout(db.stories, db.meter, 0);
    PlacementPaced(db.stories, db.meter, Key(project, CreateSection(input)), 0, CreateWhere(input), key);
  }

  lemma UpdatePaced(db: Db, id: int, actor: Actor, input: UpdateInput, at: int, key: Key)
    requires Inv(db) && UpdateTx(db, id, actor, input, at).Ok?
    ensures Paced(TallyOf(db.meter, key), TallyOf(UpdateTx(db, id, actor, input, at).value.meter, key))
  {
    var st, row := db.stories[id], UpdateTx(db, id, actor, input, at).value.stories[id];
    UpdateFrame(db, id, actor, input, at);
    if SectionOf(st.state) != SectionOf(row.state) {
      RoomWithout(db.stories, db.meter, id);
      PlacementPaced(db.stories, db.meter, Key(st.project, SectionOf(row.state)), id, AT_BOTTOM, key);
    }
  }

  lemma MovePaced(db: Db, id: int, input: MoveInput, key: Key)
    requires Inv(db) && MoveTx(db, id, input).Ok?
    ensures Paced(TallyOf(db.meter, key), TallyOf(MoveTx(db, id, input).value.db.meter, key))
  {
    RoomWithout(db.stories, db.meter, id);
    var into, w := Key(db.stories[id].project, input.section), Where(input.prev, input.next, false);
    PlacementPaced(db.stories, db.meter, into, id, w, key);
  }

  lemma {:induction false} ChainPaced(db: Db, ids: seq<int>, project: int, input: MoveInput, key: Key)
    requires Inv(db) && MoveChain(db, ids, project, input).Ok?
    ensures Paced(TallyOf(db.meter, key), TallyOf(MoveChain(db, ids, project, input).value.meter, key))
  {
    if ids != [] {
      var most, id := ids[..|ids| - 1], ids[|ids| - 1];
      ChainPaced(db, most, project, input, key);
      if id !in most {
        MoveChainKeeps(db, most, project, input);
        MovePaced(MoveChain(db, most, project, input).value, id, ChainWhere(input, Distinct(most)), key);
      }
    }
  }

  lemma RestorePaced(db: Db, id: int, key: Key)
    requires Inv(db) && RestoreTx(db, id).Ok?
    ensures Paced(TallyOf(db.meter, key), TallyOf(RestoreTx(db, id).value.meter, key))
  {
    var row := db.stories[id].(deletedAt := None);
    var stories := db.stories[id := row];
    if row.state != Accepted {
      assert stories - {id} == db.stories - {id};
      RoomWithout(db.stories, db.meter, id);
      PlacementPaced(stories, db.meter, Key(row.project, SectionOf(row.state)), id, AT_BOTTOM, key);
    }
  }

  lemma StepPaced(db: Db, op: Op, key: Key)
    requires Inv(db) && Enabled(db, op)
    ensures Paced(TallyOf(db.meter, key), TallyOf(Apply(db, op).meter, key))
  {
    match op {
      case AddUser(_) =>
      case AddProject(_, _) =>
      case SetEstimating(_, _) =>
      case Create(id, p, who, input) =>
        if CreateTx(db, id, p, who, input).Ok? { CreatePaced(db, id, p, who, input, key); }
      case Update(id, who, input, at) =>
        if UpdateTx(db, id, who, input, at).Ok? { UpdatePaced(db, id, who, input, at, key); }
      case Move(id, input) => if MoveTx(db, id, input).Ok? { MovePaced(db, id, input, key); }
      case MoveMany(ids, input) =>
        if MoveManyTx(db, ids, input).Ok? { ChainPaced(db, ids, db.stories[ids[0]].project, input, key); }
      case Delete(_, _) =>
      case Restore(id) => if RestoreTx(db, id).Ok? { RestorePaced(db, id, key); }
      case Purge(_) =>
    }
  }

  lemma PacedThroughout(run: seq<Db>, i: nat, j: nat, key: Key)
    requires Run(run) && i <= j < |run|
    ensures Paced(TallyOf(run[i].meter, key), TallyOf(run[j].meter, key))
  {
    var tallies := seq(|run|, k requires 0 <= k < |run| => TallyOf(run[k].meter, key));
    forall k | 0 < k < |tallies| ensures Paced(tallies[k - 1], tallies[k]) {
      PacedAt(run, k, key);
    }
    PacedAlong(tallies, i, j);
  }

  lemma {:induction false} PacedAlong(tallies: seq<Tally>, i: nat, j: nat)
    requires i <= j < |tallies| && forall k | 0 < k < |tallies| :: Paced(tallies[k - 1], tallies[k])
    ensures Paced(tallies[i], tallies[j])
    decreases j
  {
    if i < j {
      PacedAlong(tallies, i, j - 1);
      PacedOn(tallies[i], tallies[j - 1], tallies[j]);
    }
  }

  lemma PacedAt(run: seq<Db>, j: nat, key: Key)
    requires Run(run) && 0 < j < |run|
    ensures Paced(TallyOf(run[j - 1].meter, key), TallyOf(run[j].meter, key))
  {
    RunKeepsInvariants(run, j - 1);
    assert Step(run[j - 1], run[j]);
    var op :| Enabled(run[j - 1], op) && run[j] == Apply(run[j - 1], op);
    StepPaced(run[j - 1], op, key);
  }

  lemma PacedOn(t: Tally, u: Tally, v: Tally)
    requires Paced(t, u) && Paced(u, v)
    ensures Paced(t, v)
  {
  }

  /** Between any two points of any run: sixteen placements for each rebalance, less those
      already taken since the one before, and one rebalance for each story reopened. So
      with nothing reopened, sixteen placements lie from one rebalance to the next. */
  lemma RebalancesBetween(run: seq<Db>, i: nat, j: nat, key: Key)
    requires Run(run) && i <= j < |run|
    ensures var t, t' := TallyOf(run[i].meter, key), TallyOf(run[j].meter, key);
            && 16 * (t'.rebalanced - t.rebalanced) + t'.since + Excused(t') <=
                 t'.placed - t.placed + t.since + Excused(t) + 16 * (t'.reopens - t.reopens)
            && (!t.reopened && t'.reopens == t.reopens ==>
                  !t'.reopened && 16 * (t'.rebalanced - t.rebalanced) + t'.since <= t'.placed - t.placed + t.since)
            && (!t.reopened && t'.reopens == t.reopens && t.since <= 1 && t'.rebalanced > t.rebalanced ==>
                  t'.placed - t.placed >= 16)
  {
    PacedThroughout(run, i, j, key);
  }
}
