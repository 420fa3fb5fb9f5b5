/**
  When two stories of a section share a position. Placing keeps positions
  distinct; only letting an accepted story back in can tie two, and it does
  exactly when a story of the section sits on the frozen position.
 */
module StoryTies {
  import opened Sequences
  import opened States
  import opened StoryModel
  import opened StoryOrder
  import opened StoryRoom
  import opened StoryInvariants
  import opened StoryBulk
  import opened StoryRuns

  /** The operation is an update that reopens an accepted story onto a taken position. */
  ghost predicate ReopensOnto(db: Db, op: Op, key: Key) {
    && op.Update? && UpdateTx(db, op.id, op.actor, op.update, op.at).Ok?
    && db.stories[op.id].state == Accepted && op.update.state.Some? && op.update.state.value != Accepted
    && key == Key(db.stories[op.id].project, Current) && Taken(db.stories, key, db.stories[op.id].position)
  }

  predicate Taken(stories: map<int, Story>, key: Key, position: int) {
    exists x | x in stories :: InScope(stories[x], key) && stories[x].position == position
  }

  /** Where stories only left a section, its positions stay distinct. */
  lemma UntiedShrinks(before: map<int, Story>, after: map<int, Story>, key: Key)
    requires Untied(before, key)
    requires forall x | x in after && InScope(after[x], key) ::
               x in before && InScope(before[x], key) && after[x].position == before[x].position
    ensures Untied(after, key)
  {
  }

  /** A placement keeps the positions of its section distinct, and everyone else's. */
  lemma PlacedUntied(before: map<int, Story>, key: Key, id: int, w: Where, st: Story, other: Key)
    requires Place(before, key, id, w).Ok? && InScope(st, key)
    requires st.position == Place(before, key, id, w).value.position
    requires Untied(before - {id}, other)
    ensures Untied(Place(before, key, id, w).value.stories[id := st], other)
  {
    var others, p := before - {id}, Place(before, key, id, w).value;
    UntiedIsSpread(others, other);
    if other == key {
      PlaceIgnoresMoved(before, key, id, w, st);
      assert Pow2(16 - 16) == 1;
      PlaceSpread(others, key, id, w, st, 16);
      SpreadIsUntied(p.stories[id := st], key, Pow2(16 - Since(16, p.rebalanced)));
    } else {
      ScopeElsewhere(before, key, other, id, w, st);
      ScopeMinus(before, other, id);
      SpreadIsUntied(p.stories[id := st], other, 1);
    }
  }

  /** Reopening ties two stories if and only if the frozen position is taken. */
  lemma ReopenTies(db: Db, id: int, actor: Actor, input: UpdateInput, at: int, key: Key)
    requires UpdateTx(db, id, actor, input, at).Ok? && Untied(db.stories, key)
    requires db.stories[id].state == Accepted && input.state.Some? && input.state.value != Accepted
    ensures Untied(UpdateTx(db, id, actor, input, at).value.stories, key) <==>
            !(key == Key(db.stories[id].project, Current) && Taken(db.stories, key, db.stories[id].position))
  {
    var st, after := db.stories[id], UpdateTx(db, id, actor, input, at).value.stories;
    UpdateFrame(db, id, actor, input, at);
    UpdateReaches(db, id, actor, input, at);
    ScopesPartition(after[id].state, key.section);
    if key != Key(st.project, Current) {
      UntiedShrinks(db.stories, after, key);
    } else if Taken(db.stories, key, st.position) {
      var x :| x in db.stories && InScope(db.stories[x], key) && db.stories[x].position == st.position;
      assert x in after && after[x] == db.stories[x] && InScope(after[id], key);
    }
  }

  lemma UpdateReaches(db: Db, id: int, actor: Actor, input: UpdateInput, at: int)
    requires UpdateTx(db, id, actor, input, at).Ok? && input.state.Some?
    ensures UpdateTx(db, id, actor, input, at).value.stories[id].state == input.state.value
  {
    FieldsFrame(db, db.stories[id], input);
  }

  lemma UpdateUntied(db: Db, id: int, actor: Actor, input: UpdateInput, at: int, key: Key)
    requires UpdateTx(db, id, actor, input, at).Ok? && Untied(db.stories, key)
    requires !(db.stories[id].state == Accepted && input.state.Some? && input.state.value != Accepted)
    ensures Untied(UpdateTx(db, id, actor, input, at).value.stories, key)
  {
    var st, after := db.stories[id], UpdateTx(db, id, actor, input, at).value.stories;
    UpdateFrame(db, id, actor, input, at);
    if SectionOf(st.state) != SectionOf(after[id].state) {
      UntiedShrinks(db.stories, db.stories - {id}, key);
      PlacedUntied(db.stories, Key(st.project, SectionOf(after[id].state)), id, AT_BOTTOM, after[id], key);
    } else {
      ScopesPartition(st.state, key.section);
      ScopesPartition(after[id].state, key.section);
      UntiedShrinks(db.stories, after, key);
    }
  }

  lemma CreateUntied(db: Db, id: int, project: int, who: int, input: CreateInput, key: Key)
    requires 0 !in db.stories && id !in db.stories && CreateTx(db, id, project, who, input).Ok? && Untied(db.stories, key)
    ensures Untied(CreateTx(db, id, project, who, input).value.stories, key)
  {
    var into := Key(project, CreateSection(input));
    SameRows(db.stories, into, 0, id);
    UntiedShrinks(db.stories, db.stories - {id}, key);
    PlacedUntied(db.stories, into, id, CreateWhere(input), CreateTx(db, id, project, who, input).value.stories[id], key);
  }

  lemma MoveUntied(db: Db, id: int, input: MoveInput, key: Key)
    requires MoveTx(db, id, input).Ok? && Untied(db.stories, key)
    ensures Untied(MoveTx(db, id, input).value.db.stories, key)
  {
    var into := Key(db.stories[id].project, input.section);
    UntiedShrinks(db.stories, db.stories - {id}, key);
    PlacedUntied(db.stories, into, id, Where(input.prev, input.next, false), MoveTx(db, id, input).value.db.stories[id], key);
  }

  lemma {:induction false} ChainUntied(db: Db, ids: seq<int>, project: int, input: MoveInput, key: Key)
    requires MoveChain(db, ids, project, input).Ok? && Untied(db.stories, key)
    ensures Untied(MoveChain(db, ids, project, input).value.stories, key)
  {
    if ids != [] {
      var most, id := ids[..|ids| - 1], ids[|ids| - 1];
      ChainUntied(db, most, project, input, key);
      if id !in most {
        MoveUntied(MoveChain(db, most, project, input).value, id, ChainWhere(input, Distinct(most)), key);
      }
    }
  }

  lemma RestoreUntied(db: Db, id: int, key: Key)
    requires RestoreTx(db, id).Ok? && Untied(db.stories, key)
    ensures Untied(RestoreTx(db, id).value.stories, key)
  {
    var row := db.stories[id].(deletedAt := None);
    var stories, after := db.stories[id := row], RestoreTx(db, id).value.stories;
    if row.state == Accepted {
      UntiedShrinks(db.stories, after, key);
    } else {
      UntiedShrinks(db.stories, stories - {id}, key);
      PlacedUntied(stories, Key(row.project, SectionOf(row.state)), id, AT_BOTTOM, after[id], key);
    }
  }

  /** From a section with distinct positions, any operation leaves them distinct
      unless it reopens an accepted story onto a taken one. */
  lemma StepTies(db: Db, op: Op, key: Key)
    requires Inv(db) && Enabled(db, op) && Untied(db.stories, key)
    ensures Untied(Apply(db, op).stories, key) <==> !ReopensOnto(db, op, key)
  {
    assert 0 !in db.stories;
    match op {
      case AddUser(_) =>
      case AddProject(_, _) =>
      case SetEstimating(p, on) => UntiedShrinks(db.stories, Apply(db, op).stories, key);
      case Create(id, p, who, input) =>
        if CreateTx(db, id, p, who, input).Ok? { CreateUntied(db, id, p, who, input, key); }
      case Update(id, who, input, at) =>
        if UpdateTx(db, id, who, input, at).Ok? {
          if db.stories[id].state == Accepted && input.state.Some? && input.state.value != Accepted {
            ReopenTies(db, id, who, input, at, key);
          } else {
            UpdateUntied(db, id, who, input, at, key);
          }
        }
      case Move(id, input) => if MoveTx(db, id, input).Ok? { MoveUntied(db, id, input, key); }
      case MoveMany(ids, input) =>
        if MoveManyTx(db, ids, input).Ok? { ChainUntied(db, ids, db.stories[ids[0]].project, input, key); }
      case Delete(id, at) => UntiedShrinks(db.stories, Apply(db, op).stories, key);
      case Restore(id) => if RestoreTx(db, id).Ok? { RestoreUntied(db, id, key); }
      case Purge(before) => UntiedShrinks(db.stories, Apply(db, op).stories, key);
    }
  }

  /** A run with the operations it took. */
  ghost predicate Follows(run: seq<Db>, ops: seq<Op>) {
    && |run| == |ops| + 1 && run[0] == EMPTY
    && forall i | 0 <= i < |ops| :: Enabled(run[i], ops[i]) && run[i + 1] == Apply(run[i], ops[i])
  }

  lemma FollowsIsRun(run: seq<Db>, ops: seq<Op>)
    requires Follows(run, ops)
    ensures Run(run)
  {
    forall i | 0 < i < |run| ensures Step(run[i - 1], run[i]) {
      assert Enabled(run[i - 1], ops[i - 1]);
    }
  }

  ghost predicate UntiedUpTo(run: seq<Db>, n: nat, key: Key)
    requires n < |run|
  {
    forall j | 0 <= j <= n :: Untied(run[j].stories, key)
  }

  ghost predicate NoTieBefore(run: seq<Db>, ops: seq<Op>, n: nat, key: Key)
    requires n <= |ops| < |run|
  {
    forall j | 0 <= j < n :: !ReopensOnto(run[j], ops[j], key)
  }

  /** On a run from the empty store, a section's positions are distinct up to step `n`
      if and only if nothing was reopened onto a taken position of it before. */
  lemma {:induction false} TiesComeFromReopening(run: seq<Db>, ops: seq<Op>, n: nat, key: Key)
    requires Follows(run, ops) && n <= |ops|
    ensures UntiedUpTo(run, n, key) <==> NoTieBefore(run, ops, n, key)
  {
    if n > 0 {
      TiesComeFromReopening(run, ops, n - 1, key);
      assert UntiedUpTo(run, n, key) <==> UntiedUpTo(run, n - 1, key) && Untied(run[n].stories, key);
      assert NoTieBefore(run, ops, n, key) <==> NoTieBefore(run, ops, n - 1, key) && !ReopensOnto(run[n - 1], ops[n - 1], key);
      if UntiedUpTo(run, n - 1, key) {
        OneMoreStep(run, ops, n - 1, key);
      }
    }
  }

  lemma OneMoreStep(run: seq<Db>, ops: seq<Op>, i: nat, key: Key)
    requires Follows(run, ops) && i < |ops| && Untied(run[i].stories, key)
    ensures Untied(run[i + 1].stories, key) <==> !ReopensOnto(run[i], ops[i], key)
  {
    FollowsIsRun(run, ops);
    RunKeepsInvariants(run, i);
    StepTies(run[i], ops[i], key);
  }
}
