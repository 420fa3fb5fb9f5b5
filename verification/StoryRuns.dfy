/** Everything the story service can be asked to do, and what holds after any run of it. */
module StoryRuns {
  import opened Sequences
  import opened Position
  import opened States
  import opened StoryModel
  import opened StoryPlacement
  import opened StoryOrder
  import opened StoryRoom
  import opened Blockers
  import opened Workflow
  import opened StoryInvariants
  import opened StoryBulk

  datatype Op =
    | AddUser(user: int)
    | AddProject(newProject: int, estimating: bool)
    | SetEstimating(project: int, on: bool)
    | Create(newId: int, into: int, creator: int, create: CreateInput)
    | Update(id: int, actor: Actor, update: UpdateInput, at: int)
    | Move(moved: int, move: MoveInput)
    | MoveMany(batch: seq<int>, target: MoveInput)
    | Delete(trashed: int, deletedAt: int)
    | Restore(restored: int)
    | Purge(before: int)

  /** New rows get unused keys; the clock does not run before 1970. */
  ghost predicate Enabled(db: Db, op: Op) {
    match op
    case AddProject(p, _) => p !in db.projects
    case Create(id, _, _, _) => id > 0 && id !in db.stories
    case Update(_, _, _, at) => at >= 0
    case _ => true
  }

  ghost function Commit(db: Db, r: Result<Db>): Db {
    match r case Ok(db') => db' case Err(_) => db
  }

  ghost function Apply(db: Db, op: Op): Db {
    match op
    case AddUser(u) => db.(users := db.users + {u})
    case AddProject(p, on) => db.(projects := db.projects[p := on])
    case SetEstimating(p, on) => Commit(db, ProjectTx(db, p, on))
    case Create(id, p, who, input) => Commit(db, CreateTx(db, id, p, who, input))
    case Update(id, who, input, at) => Commit(db, UpdateTx(db, id, who, input, at))
    case Move(id, input) => (match MoveTx(db, id, input) case Ok(res) => res.db case Err(_) => db)
    case MoveMany(ids, input) => Commit(db, MoveManyTx(db, ids, input))
    case Delete(id, at) => Commit(db, DeleteTx(db, id, at))
    case Restore(id) => Commit(db, RestoreTx(db, id))
    case Purge(before) => PurgeTx(db, before)
  }

  ghost predicate Step(db: Db, db': Db) {
    exists op :: Enabled(db, op) && db' == Apply(db, op)
  }

  /** The states of a run from an empty store. */
  ghost predicate Run(run: seq<Db>) {
    && run != [] && run[0] == EMPTY
    && forall i | 0 < i < |run| :: Step(run[i - 1], run[i])
  }

  lemma {:induction false} RunKeepsInvariants(run: seq<Db>, i: nat)
    requires Run(run) && i < |run|
    ensures Inv(run[i])
  {
    if i == 0 {
      EmptyHolds();
    } else {
      RunKeepsInvariants(run, i - 1);
      assert Step(run[i - 1], run[i]);
      var op :| Enabled(run[i - 1], op) && run[i] == Apply(run[i - 1], op);
      ApplyKeeps(run[i - 1], op);
    }
  }

  /** On every run a section was rebalanced at most once in sixteen placements, plus
      once for each story reopened into it. Unless one was reopened since the last
      rebalance, all its positions are distinct. */
  lemma RebalancesAreRare(run: seq<Db>, i: nat, key: Key)
    requires Run(run) && i < |run|
    ensures var t := TallyOf(run[i].meter, key);
            && 16 * t.rebalanced <= t.placed + 16 * t.reopens
            && (!t.reopened ==> Untied(run[i].stories, key))
  {
    RunKeepsInvariants(run, i);
    assert Roomy(run[i].stories, run[i].meter, key);
    RoomyIsUntied(run[i].stories, run[i].meter, key);
  }

  lemma RoomyIsUntied(stories: map<int, Story>, meter: Meter, key: Key)
    requires Roomy(stories, meter, key)
    ensures !TallyOf(meter, key).reopened ==> Untied(stories, key)
  {
    var t := TallyOf(meter, key);
    if !t.reopened {
      SpreadIsUntied(stories, key, Pow2(16 - t.since));
    }
  }

  /** After fewer than 2^46 placements no position, midpoint or difference of two
      neighbours leaves int64, on any run. */
  lemma PositionsStayInRange(run: seq<Db>, i: nat, a: int, b: int)
    requires Run(run) && i < |run| && run[i].meter.total < 0x4000_0000_0000
    requires a in run[i].stories && b in run[i].stories && run[i].stories[a].position <= run[i].stories[b].position
    ensures var p, q := run[i].stories[a].position, run[i].stories[b].position;
            && -INT64_MAX <= p && q - p <= INT64_MAX && q <= INT64_MAX
            && forall slot | slot in {Between(Some(p), Some(q)), Between(None, Some(q)), Between(Some(p), None)} && slot.Some? ::
                 -INT64_MAX <= slot.value <= INT64_MAX
    ensures Spaced(|run[i].stories|) <= INT64_MAX
  {
    RunKeepsInvariants(run, i);
    var p, q, n := run[i].stories[a].position, run[i].stories[b].position, run[i].meter.total;
    BetweenFits(Some(p), Some(q), n);
    BetweenFits(None, Some(q), n);
    BetweenFits(Some(p), None, n);
    assert |run[i].stories| * GAP <= n * GAP;
  }

  /** In every reachable store an accepted story was started, finished and
      delivered, in that order, since it was last planned. */
  lemma AcceptanceFollowsWork(run: seq<Db>, i: nat, id: int, k: nat) returns (a: nat, b: nat, c: nat)
    requires Run(run) && i < |run| && id in run[i].stories
    requires var states := Visited(History(run[i].log, id)); k < |states| && states[k] == Accepted
    ensures var states := Visited(History(run[i].log, id));
            && a < b < c < k && states[a] == Started && states[b] == Finished && states[c] == Delivered
            && (forall m | a <= m <= k :: !Planned(states[m]))
            && states[|states| - 1] == run[i].stories[id].state
  {
    RunKeepsInvariants(run, i);
    VisitedIsWalk(History(run[i].log, id));
    a, b, c := AcceptedAfterWork(Visited(History(run[i].log, id)), k);
  }

  lemma EmptyHolds()
    ensures Inv(EMPTY)
  {
    forall x, n: nat | n >= 1 ensures !Chain(EMPTY.blockers, x, x, n) {
    }
    forall key ensures Roomy(EMPTY.stories, EMPTY.meter, key) {
    }
  }

  lemma ApplyKeeps(db: Db, op: Op)
    requires Inv(db) && Enabled(db, op)
    ensures Inv(Apply(db, op))
  {
    match op {
      case AddUser(_) =>
      case AddProject(p, on) =>
      case SetEstimating(p, on) => if ProjectTx(db, p, on).Ok? { SettingKeeps(db, p, on); }
      case Create(id, p, who, input) => if CreateTx(db, id, p, who, input).Ok? { CreateKeeps(db, id, p, who, input); }
      case Update(id, who, input, at) => if UpdateTx(db, id, who, input, at).Ok? { UpdateKeeps(db, id, who, input, at); }
      case Move(id, input) => if MoveTx(db, id, input).Ok? { MoveKeeps(db, id, input); }
      case MoveMany(ids, input) => if MoveManyTx(db, ids, input).Ok? { MoveChainKeeps(db, ids, db.stories[ids[0]].project, input); }
      case Delete(id, at) => if DeleteTx(db, id, at).Ok? { DeleteKeeps(db, id, at); }
      case Restore(id) => if RestoreTx(db, id).Ok? { RestoreKeeps(db, id); }
      case Purge(before) => PurgeKeeps(db, before);
    }
  }

  // ----- one transaction at a time -----

  lemma RoomWithout(stories: map<int, Story>, meter: Meter, id: int)
    requires forall key :: Roomy(stories, meter, key)
    ensures forall key :: Roomy(stories - {id}, meter, key)
  {
    forall key ensures Roomy(stories - {id}, meter, key) {
      assert Roomy(stories, meter, key);
      var t := TallyOf(meter, key);
      if !t.reopened {
        SpreadShrinks(ScopeOf(stories, key), ScopeOf(stories - {id}, key), Pow2(16 - t.since), Pow2(16 - t.since));
      }
    }
  }

  lemma CreateKeeps(db: Db, id: int, project: int, who: int, input: CreateInput)
    requires Inv(db) && id > 0 && id !in db.stories && CreateTx(db, id, project, who, input).Ok?
    ensures Inv(CreateTx(db, id, project, who, input).value)
  {
    var db' := CreateTx(db, id, project, who, input).value;
    var row := db'.stories[id];
    PlacedIsStored(db.stories, Key(project, CreateSection(input)), 0, id, CreateWhere(input), row);
    RowsKept(db, db', id, row);
    CreateLinks(db, id, project, who, input);
    LogKept(db, db', id, row, [Created(CreateSection(input))]);
    CreatePositions(db, id, project, who, input);
  }

  lemma CreatePositions(db: Db, id: int, project: int, who: int, input: CreateInput)
    requires PositionsOk(db) && 0 !in db.stories && id !in db.stories && CreateTx(db, id, project, who, input).Ok?
    ensures PositionsOk(CreateTx(db, id, project, who, input).value)
  {
    var db' := CreateTx(db, id, project, who, input).value;
    SameRows(db.stories, Key(project, CreateSection(input)), 0, id);
    RoomWithout(db.stories, db.meter, id);
    assert |db.stories.Keys + {id}| <= |db.stories.Keys| + 1;
    assert |db.stories| == |db.stories.Keys|;
    PositionsPlaced(db.stories, db.meter, Key(project, CreateSection(input)), id, CreateWhere(input), db'.stories[id]);
  }

  lemma CreateLinks(db: Db, id: int, project: int, who: int, input: CreateInput)
    requires Inv(db) && id !in db.stories && CreateTx(db, id, project, who, input).Ok?
    ensures GraphOk(CreateTx(db, id, project, who, input).value)
  {
    var db' := CreateTx(db, id, project, who, input).value;
    var row := db'.stories[id];
    PlacedIsStored(db.stories, Key(project, CreateSection(input)), 0, id, CreateWhere(input), row);
    if input.blockedBy == [] {
      LinksKept(db, db', id, row);
    } else {
      LinksReplaced(db, db', id, input.blockedBy, db'.blockers[id], db'.stories);
    }
  }

  lemma MoveKeeps(db: Db, id: int, input: MoveInput)
    requires Inv(db) && MoveTx(db, id, input).Ok?
    ensures Inv(MoveTx(db, id, input).value.db)
  {
    var db' := MoveTx(db, id, input).value.db;
    var st, row := db.stories[id], db'.stories[id];
    var key, w := Key(st.project, input.section), Where(input.prev, input.next, false);
    PlacedIsStored(db.stories, key, id, id, w, row);
    DragIsTransition(st.state, input.section);
    RowsKept(db, db', id, row);
    LinksKept(db, db', id, row);
    LogKept(db, db', id, row, if SectionOf(st.state) != input.section then [Moved(SectionOf(st.state), input.section)] else []);
    MovePositions(db, id, input);
  }

  lemma MovePositions(db: Db, id: int, input: MoveInput)
    requires PositionsOk(db) && MoveTx(db, id, input).Ok?
    ensures PositionsOk(MoveTx(db, id, input).value.db)
  {
    var key, w := Key(db.stories[id].project, input.section), Where(input.prev, input.next, false);
    RoomWithout(db.stories, db.meter, id);
    assert db.stories.Keys + {id} == db.stories.Keys && |db.stories| == |db.stories.Keys|;
    PositionsPlaced(db.stories, db.meter, key, id, w, MoveTx(db, id, input).value.db.stories[id]);
  }

  lemma {:induction false} MoveChainKeeps(db: Db, ids: seq<int>, project: int, input: MoveInput)
    requires Inv(db) && MoveChain(db, ids, project, input).Ok?
    ensures Inv(MoveChain(db, ids, project, input).value)
  {
    if ids != [] {
      var most, id := ids[..|ids| - 1], ids[|ids| - 1];
      MoveChainKeeps(db, most, project, input);
      if id !in most {
        MoveKeeps(MoveChain(db, most, project, input).value, id, ChainWhere(input, Distinct(most)));
      }
    }
  }

  lemma DeleteKeeps(db: Db, id: int, at: int)
    requires Inv(db) && DeleteTx(db, id, at).Ok?
    ensures Inv(DeleteTx(db, id, at).value)
  {
    var db' := DeleteTx(db, id, at).value;
    var row := db'.stories[id];
    assert Stored(db.stories, db'.stories, id, row);
    RowsKept(db, db', id, row);
    LinksKept(db, db', id, row);
    LogKept(db, db', id, row, [Deleted]);
    PositionsKept(db, db');
  }

  lemma RestoreKeeps(db: Db, id: int)
    requires Inv(db) && RestoreTx(db, id).Ok?
    ensures Inv(RestoreTx(db, id).value)
  {
    var db' := RestoreTx(db, id).value;
    var row := db'.stories[id];
    var stories := db.stories[id := db.stories[id].(deletedAt := None)];
    if row.state != Accepted {
      PlacedIsStored(stories, Key(row.project, SectionOf(row.state)), id, id, AT_BOTTOM, row);
    }
    assert Stored(db.stories, db'.stories, id, row);
    RestorePositions(db, id);
    RowsKept(db, db', id, row);
    LinksKept(db, db', id, row);
    LogKept(db, db', id, row, [Restored]);
  }

  lemma RestorePositions(db: Db, id: int)
    requires PositionsOk(db) && RestoreTx(db, id).Ok?
    ensures PositionsOk(RestoreTx(db, id).value)
  {
    var db' := RestoreTx(db, id).value;
    if db'.stories[id].state == Accepted {
      PositionsKept(db, db');
    } else {
      RestorePlaced(db, id, db.stories[id := db.stories[id].(deletedAt := None)], db');
    }
  }

  lemma RestorePlaced(db: Db, id: int, stories: map<int, Story>, db': Db)
    requires PositionsOk(db) && id in db.stories && id in db'.stories && stories - {id} == db.stories - {id} && id in stories
    requires var row := db'.stories[id];
             var key := Key(row.project, SectionOf(row.state));
             var r := Place(stories, key, id, AT_BOTTOM);
             && r.Ok? && InScope(row, key) && row.position == r.value.position
             && db'.stories == r.value.stories[id := row] && db'.meter == Counted(db.meter, key, r.value.rebalanced)
    ensures PositionsOk(db')
  {
    var row := db'.stories[id];
    RoomWithout(db.stories, db.meter, id);
    assert stories.Keys == (stories - {id}).Keys + {id} && db.stories.Keys == (db.stories - {id}).Keys + {id};
    assert stories.Keys + {id} == stories.Keys;
    assert |db.stories| == |db.stories.Keys| && |stories| == |stories.Keys|;
    forall x | x in stories && x != id ensures Within(stories[x].position, db.meter.total) {
      assert x in stories - {id} && (stories - {id})[x] == stories[x];
    }
    PositionsPlaced(stories, db.meter, Key(row.project, SectionOf(row.state)), id, AT_BOTTOM, row);
  }

  // ----- updates -----

  lemma UpdateKeeps(db: Db, id: int, actor: Actor, input: UpdateInput, at: int)
    requires Inv(db) && at >= 0 && UpdateTx(db, id, actor, input, at).Ok?
    ensures Inv(UpdateTx(db, id, actor, input, at).value)
  {
    var db' := UpdateTx(db, id, actor, input, at).value;
    UpdateFrame(db, id, actor, input, at);
    UpdateStores(db, id, actor, input, at);
    UpdateRow(db, id, actor, input, at);
    RowsKept(db, db', id, db'.stories[id]);
    UpdateLinks(db, id, actor, input, at);
    UpdateLog(db, id, actor, input, at);
    UpdatePositions(db, id, actor, input, at);
  }

  lemma UpdateStores(db: Db, id: int, actor: Actor, input: UpdateInput, at: int)
    requires UpdateTx(db, id, actor, input, at).Ok?
    ensures var db' := UpdateTx(db, id, actor, input, at).value;
            Stored(db.stories, db'.stories, id, db'.stories[id]) && db'.stories[id].project == db.stories[id].project
  {
    var db' := UpdateTx(db, id, actor, input, at).value;
    var st, row := db.stories[id], db'.stories[id];
    UpdateFrame(db, id, actor, input, at);
    if SectionOf(st.state) != SectionOf(row.state) {
      PlacedIsStored(db.stories, Key(st.project, SectionOf(row.state)), id, id, AT_BOTTOM, row);
    }
  }

  lemma UpdateRow(db: Db, id: int, actor: Actor, input: UpdateInput, at: int)
    requires RowsOk(db) && at >= 0 && UpdateTx(db, id, actor, input, at).Ok?
    ensures RowOk(db.projects, UpdateTx(db, id, actor, input, at).value.stories[id])
  {
    var st := db.stories[id];
    var edited := Fields(db, st, input).value;
    var stepped := WithState(db.stories, db.meter, edited, id, actor, input.state, at).value.draft;
    FieldsRow(db, st, input);
    StepRow(db.stories, db.meter, edited, id, actor, input.state, at);
    var row := WithPointRules(db, stepped, input.estimate).value.row;
    assert UpdateTx(db, id, actor, input, at).value.stories[id] == row;
  }

  /** What editing fields can and cannot do to a row; an accepted row keeps type and points. */
  lemma FieldsRow(db: Db, st: Story, input: UpdateInput)
    requires RowOk(db.projects, st) && Fields(db, st, input).Ok?
    ensures var row := Fields(db, st, input).value.row;
            && SamePlace(st, row)
            && (row.estimate.Some? ==> ValidEstimate(row.estimate.value))
            && (st.state == Accepted ==> row.kind == st.kind && row.estimate == st.estimate)
  {
  }

  lemma StepRow(stories: map<int, Story>, meter: Meter, d: Draft, id: int, actor: Actor, to: Option<State>, at: int)
    requires at >= 0 && WithState(stories, meter, d, id, actor, to, at).Ok?
    requires (d.row.acceptedAt.Some? <==> d.row.state == Accepted) && (d.row.acceptedAt.Some? ==> d.row.acceptedAt.value >= 0)
    ensures var row := WithState(stories, meter, d, id, actor, to, at).value.draft.row;
            && (row.acceptedAt.Some? <==> row.state == Accepted) && (row.acceptedAt.Some? ==> row.acceptedAt.value >= 0)
            && row.kind == d.row.kind && row.estimate == d.row.estimate && row.project == d.row.project
  {
  }

  lemma UpdateLinks(db: Db, id: int, actor: Actor, input: UpdateInput, at: int)
    requires Inv(db) && UpdateTx(db, id, actor, input, at).Ok?
    ensures GraphOk(UpdateTx(db, id, actor, input, at).value)
  {
    var db' := UpdateTx(db, id, actor, input, at).value;
    UpdateStores(db, id, actor, input, at);
    if input.blockedBy.None? {
      LinksKept(db, db', id, db'.stories[id]);
    } else {
      var st := db.stories[id];
      var edited := Fields(db, st, input).value;
      var stepped := WithState(db.stories, db.meter, edited, id, actor, input.state, at).value;
      StepStores(db, id, actor, input, at);
      LinksReplaced(db, db', id, input.blockedBy.value, db'.blockers[id], stepped.stories);
    }
  }

  /** At the time the links are checked no story has changed project. */
  lemma StepStores(db: Db, id: int, actor: Actor, input: UpdateInput, at: int)
    requires UpdateTx(db, id, actor, input, at).Ok?
    ensures var edited := Fields(db, db.stories[id], input).value;
            var stepped := WithState(db.stories, db.meter, edited, id, actor, input.state, at).value;
            var row := WithPointRules(db, stepped.draft, input.estimate).value.row;
            && stepped.stories.Keys == db.stories.Keys && row.project == db.stories[id].project
            && forall x | x in db.stories :: stepped.stories[x].project == db.stories[x].project
  {
    var edited := Fields(db, db.stories[id], input).value;
    var stepped := WithState(db.stories, db.meter, edited, id, actor, input.state, at).value;
    FieldsFrame(db, db.stories[id], input);
    StepFrame(db.stories, db.meter, edited, id, actor, input.state, at);
    PointRulesFrame(db, stepped.draft, input.estimate);
    if stepped.stories != db.stories {
      PlaceCorrect(db.stories, Key(edited.row.project, SectionOf(stepped.draft.row.state)), id, AT_BOTTOM);
    }
  }

  lemma UpdateLog(db: Db, id: int, actor: Actor, input: UpdateInput, at: int)
    requires Inv(db) && UpdateTx(db, id, actor, input, at).Ok?
    ensures LogOk(UpdateTx(db, id, actor, input, at).value)
  {
    var db' := UpdateTx(db, id, actor, input, at).value;
    var st := db.stories[id];
    var edited := Fields(db, st, input).value;
    var stepped := WithState(db.stories, db.meter, edited, id, actor, input.state, at).value.draft;
    var d := WithPointRules(db, stepped, input.estimate).value;
    UpdateStores(db, id, actor, input, at);
    UpdateFrame(db, id, actor, input, at);
    FieldsActs(db, st, input);
    StepActs(db.stories, db.meter, edited, id, actor, input.state, at);
    PointRulesActs(db, stepped, input.estimate);
    LogKept(db, db', id, d.row, d.acts);
  }

  lemma FieldsActs(db: Db, st: Story, input: UpdateInput)
    requires Fields(db, st, input).Ok?
    ensures Replay(Live(st.state), Fields(db, st, input).value.acts) == Live(Fields(db, st, input).value.row.state)
  {
    QuietReplay(st.state, Fields(db, st, input).value.acts);
  }

  lemma StepActs(stories: map<int, Story>, meter: Meter, d: Draft, id: int, actor: Actor, to: Option<State>, at: int)
    requires WithState(stories, meter, d, id, actor, to, at).Ok?
    ensures forall l | Replay(l, d.acts) == Live(d.row.state) ::
              var e := WithState(stories, meter, d, id, actor, to, at).value.draft; Replay(l, e.acts) == Live(e.row.state)
  {
    var e := WithState(stories, meter, d, id, actor, to, at).value.draft;
    if e != d {
      var reopened := if d.row.state == Accepted then [Reopened] else [];
      var taken := if to.value == Started && d.row.owner.None? then [OwnerChanged(None, Some(actor.id))] else [];
      assert e.acts == d.acts + reopened + taken + [StateChanged(d.row.state, to.value)];
      forall l | Replay(l, d.acts) == Live(d.row.state) ensures Replay(l, e.acts) == Live(e.row.state) {
        ReplayStep(l, d.acts, reopened, taken, d.row.state, to.value);
      }
    }
  }

  lemma ReplayStep(l: Life, acts: seq<Event>, reopened: seq<Event>, taken: seq<Event>, was: State, next: State)
    requires Replay(l, acts) == Live(was) && CanTransition(was, next)
    requires reopened == if was == Accepted then [Reopened] else []
    requires taken == [] || (|taken| == 1 && taken[0].OwnerChanged?)
    ensures Replay(l, acts + reopened + taken + [StateChanged(was, next)]) == Live(next)
  {
    var a, b := acts + reopened, acts + reopened + taken;
    assert Replay(l, a) == Live(was) by {
      if was == Accepted { ReplayOne(l, acts, Reopened); } else { assert a == acts; }
    }
    assert Replay(l, b) == Live(was) by {
      if taken != [] { ReplayOne(l, a, taken[0]); assert taken == [taken[0]]; } else { assert b == a; }
    }
    ReplayOne(l, b, StateChanged(was, next));
  }

  lemma ReplayOne(l: Life, acts: seq<Event>, e: Event)
    ensures Replay(l, acts + [e]) == Next(Replay(l, acts), e)
  {
    assert (acts + [e])[..|acts|] == acts;
  }

  lemma PointRulesActs(db: Db, d: Draft, estimate: Opt<int>)
    requires WithPointRules(db, d, estimate).Ok?
    ensures forall l | Replay(l, d.acts) == Live(d.row.state) ::
              var e := WithPointRules(db, d, estimate).value; Replay(l, e.acts) == Live(e.row.state)
  {
    forall l | Replay(l, d.acts) == Live(d.row.state)
      ensures var e := WithPointRules(db, d, estimate).value; Replay(l, e.acts) == Live(e.row.state)
    {
      ReplayAppend(l, d.acts, [EstimateChanged(d.row.estimate, None)]);
    }
  }

  lemma UpdatePositions(db: Db, id: int, actor: Actor, input: UpdateInput, at: int)
    requires Inv(db) && UpdateTx(db, id, actor, input, at).Ok?
    ensures PositionsOk(UpdateTx(db, id, actor, input, at).value)
  {
    var db' := UpdateTx(db, id, actor, input, at).value;
    var st, row := db.stories[id], db'.stories[id];
    UpdateFrame(db, id, actor, input, at);
    if SectionOf(st.state) != SectionOf(row.state) {
      RoomWithout(db.stories, db.meter, id);
      assert db.stories.Keys + {id} == db.stories.Keys && |db.stories| == |db.stories.Keys|;
      PositionsPlaced(db.stories, db.meter, Key(st.project, SectionOf(row.state)), id, AT_BOTTOM, row);
    } else if st.state == Accepted && row.state != Accepted {
      ReopenPositions(db, db', id);
    } else {
      forall key, x | x in ScopeOf(db'.stories, key) ensures x in ScopeOf(db.stories, key) {
        ScopesPartition(st.state, key.section);
        ScopesPartition(row.state, key.section);
      }
      PositionsKept(db, db');
    }
  }

  /** Reopening lets a story back into its scope at its old position: until the next
      rebalance nothing is promised about the room there. */
  lemma ReopenPositions(db: Db, db': Db, id: int)
    requires PositionsOk(db) && id in db.stories && id in db'.stories
    requires var st, row := db.stories[id], db'.stories[id];
             row.project == st.project && row.position == st.position && SectionOf(row.state) == Current && row.state != Accepted
    requires db'.stories == db.stories[id := db'.stories[id]]
    requires db'.meter == Reentered(db.meter, Key(db.stories[id].project, Current))
    ensures PositionsOk(db')
  {
    var row := db'.stories[id];
    assert db'.stories.Keys == db.stories.Keys && |db'.stories| == |db'.stories.Keys| && |db.stories| == |db.stories.Keys|;
    forall key ensures Roomy(db'.stories, db'.meter, key) {
      assert Roomy(db.stories, db.meter, key);
      if key != Key(row.project, Current) {
        ReopenElsewhere(db, db', id, key);
      }
    }
  }

  lemma ReopenElsewhere(db: Db, db': Db, id: int, key: Key)
    requires id in db.stories && id in db'.stories && db'.stories == db.stories[id := db'.stories[id]]
    requires var row := db'.stories[id];
             SectionOf(row.state) == Current && row.state != Accepted && key != Key(row.project, Current)
    requires db'.meter == Reentered(db.meter, Key(db'.stories[id].project, Current)) && Roomy(db.stories, db.meter, key)
    ensures Roomy(db'.stories, db'.meter, key)
  {
    ScopesPartition(db'.stories[id].state, key.section);
    assert !InScope(db'.stories[id], key);
    forall x | x in ScopeOf(db'.stories, key)
      ensures x in ScopeOf(db.stories, key) && db'.stories[x].position == db.stories[x].position
    {
      assert x != id;
    }
    RoomKept(db.stories, db'.stories, db.meter, key);
    SameTally(db'.stories, db.meter, db'.meter, key);
  }

  lemma SameTally(stories: map<int, Story>, meter: Meter, meter': Meter, key: Key)
    requires Roomy(stories, meter, key) && TallyOf(meter, key) == TallyOf(meter', key)
    ensures Roomy(stories, meter', key)
  {
  }

  // ----- settings and purging -----

  lemma SettingKeeps(db: Db, project: int, on: bool)
    requires Inv(db) && ProjectTx(db, project, on).Ok?
    ensures Inv(ProjectTx(db, project, on).value)
  {
    var db' := ProjectTx(db, project, on).value;
    assert db'.stories.Keys == db.stories.Keys;
    forall s | s in db'.blockers ensures LinksOk(db', s, db'.blockers[s]) {
      assert LinksOk(db, s, db.blockers[s]);
    }
    assert RowsOk(db') by { SettingRows(db, project, on); }
    PositionsKept(db, db');
  }

  lemma SettingRows(db: Db, project: int, on: bool)
    requires RowsOk(db) && ProjectTx(db, project, on).Ok?
    ensures RowsOk(ProjectTx(db, project, on).value)
  {
  }

  lemma PurgeKeeps(db: Db, before: int)
    requires Inv(db)
    ensures Inv(PurgeTx(db, before))
  {
    var db' := PurgeTx(db, before);
    var gone := db.stories.Keys - db'.stories.Keys;
    forall id ensures History(db'.log, id) == if id in gone then [] else History(db.log, id) {
      HistoryWithout(db.log, gone, id);
    }
    forall s | s in db'.blockers ensures LinksOk(db', s, db'.blockers[s]) {
      assert LinksOk(db, s, db.blockers[s]);
      MinusMembers(db.blockers[s], gone);
      MinusNoDup(db.blockers[s], gone);
    }
    forall x, y | y in BlockersOf(db'.blockers, x) ensures y in BlockersOf(db.blockers, x) {
      MinusMembers(db.blockers[x], gone);
    }
    SubgraphAcyclic(db.blockers, db'.blockers);
    PositionsKept(db, db');
  }

  lemma {:induction false} MinusNoDup(s: seq<int>, gone: set<int>)
    requires NoDup(s)
    ensures NoDup(Minus(s, gone)) && |Minus(s, gone)| <= |s|
  {
    if s != [] {
      MinusNoDup(s[..|s| - 1], gone);
      MinusMembers(s[..|s| - 1], gone);
      assert s[|s| - 1] !in s[..|s| - 1];
    }
  }
}
