/**
  The story store and what one transaction of the story service does to it
  (internal/story/story.go, internal/story/tasks.go). A transaction is a
  function from the store to a new store, or to a refusal that changes nothing.
 */
module StoryModel {
  import opened Sequences
  import opened Ordering
  import opened Position
  import opened States

  datatype Story = Story(
    project: int, kind: Type, state: State, estimate: Option<int>, position: int,
    requester: int, owner: Option<int>, acceptedAt: Option<int>, deletedAt: Option<int>)

  /** One ordering scope: a panel of a project. */
  datatype Key = Key(project: int, section: Section)

  datatype Event =
    | Created(into: Section)
    | TypeChanged(oldType: Type, newType: Type)
    | EstimateChanged(oldEstimate: Option<int>, newEstimate: Option<int>)
    | OwnerChanged(oldOwner: Option<int>, newOwner: Option<int>)
    | StateChanged(from: State, to: State)
    | Moved(source: Section, target: Section)
    | Deleted
    | Restored
    | Reopened

  datatype Activity = Activity(story: int, event: Event)

  /** Accounting kept for the proofs, not by the service: how many positions were
      handed out in a scope, how often it was rebalanced, how many placements
      happened since the last rebalance (counted up to 16), how often an accepted
      story came back into it with its frozen position, and whether one did since
      the last rebalance. */
  datatype Tally = Tally(placed: nat, rebalanced: nat, since: nat, reopens: nat, reopened: bool)

  datatype Meter = Meter(total: nat, tallies: map<Key, Tally>)

  function TallyOf(m: Meter, key: Key): Tally {
    if key in m.tallies then m.tallies[key] else Tally(0, 0, 0, 0, false)
  }

  function Counted(m: Meter, key: Key, rebalanced: bool): Meter {
    var t := TallyOf(m, key);
    var t' := if rebalanced then t.(placed := t.placed + 1, rebalanced := t.rebalanced + 1, since := 1, reopened := false)
              else t.(placed := t.placed + 1, since := if t.since < 16 then t.since + 1 else 16);
    Meter(m.total + 1, m.tallies[key := t'])
  }

  function Reentered(m: Meter, key: Key): Meter {
    var t := TallyOf(m, key);
    m.(tallies := m.tallies[key := t.(reopens := t.reopens + 1, reopened := true)])
  }

  datatype Db = Db(
    projects: map<int, bool>, // whether bugs and chores may carry points
    users: set<int>,
    stories: map<int, Story>,
    blockers: map<int, seq<int>>, // story -> the stories it is blocked by
    log: seq<Activity>,
    meter: Meter)

  const EMPTY := Db(map[], {}, map[], map[], [], Meter(0, map[]))

  // ----- ordering -----

  predicate InScope(st: Story, key: Key) {
    st.project == key.project && st.deletedAt.None? && st.state in OrderedStates(key.section)
  }

  function ScopeOf(stories: map<int, Story>, key: Key): Scope {
    map id | id in stories && InScope(stories[id], key) :: stories[id].position as real
  }

  /** Where a story goes: after `prev`, else before `next`, else last or first. */
  datatype Where = Where(prev: Option<int>, next: Option<int>, bottom: bool)

  const AT_BOTTOM := Where(None, None, true)

  /** The index a placement names among the other stories of the section. */
  function IndexFor(rows: seq<int>, w: Where): (k: Option<nat>)
    ensures k.Some? ==> k.value <= |rows|
  {
    if w.prev.Some? then
      var i := IndexOf(rows, w.prev.value);
      if i < 0 then None else Some(i + 1)
    else if w.next.Some? then
      var i := IndexOf(rows, w.next.value);
      if i < 0 then None else Some(i)
    else Some(if w.bottom then |rows| else 0)
  }

  /** The section as displayed, without the story being placed. */
  ghost function Rows(stories: map<int, Story>, key: Key, moving: int): seq<int> {
    Order(ScopeOf(stories, key) - {moving})
  }

  function PositionAt(stories: map<int, Story>, rows: seq<int>, i: int): Option<int> {
    if 0 <= i < |rows| && rows[i] in stories then Some(stories[rows[i]].position) else None
  }

  function Slot(stories: map<int, Story>, rows: seq<int>, k: nat): Option<int> {
    Between(PositionAt(stories, rows, k - 1), PositionAt(stories, rows, k))
  }

  /** Every story of `rows` at its evenly spaced position. */
  function Renumbered(stories: map<int, Story>, rows: seq<int>): map<int, Story> {
    map id | id in stories ::
      if id in rows then stories[id].(position := Spaced(IndexOf(rows, id))) else stories[id]
  }

  datatype Placement = Placement(stories: map<int, Story>, position: int, rebalanced: bool)

  /** A position at the index the placement names among `rows`, rebalancing them
      when no integer is left between its neighbours. */
  function PlaceAmong(stories: map<int, Story>, rows: seq<int>, w: Where): Result<Placement> {
    var k := IndexFor(rows, w);
    if k.None? then Err(Invalid)
    else if Slot(stories, rows, k.value).Some? then
      Ok(Placement(stories, Slot(stories, rows, k.value).value, false))
    else
      var renumbered := Renumbered(stories, rows);
      var slot := Slot(renumbered, rows, k.value);
      Ok(Placement(renumbered, if slot.Some? then slot.value else 0, true))
  }

  /** The position for story `moving` inside a section. */
  ghost function Place(stories: map<int, Story>, key: Key, moving: int, w: Where): Result<Placement> {
    PlaceAmong(stories, Rows(stories, key, moving), w)
  }

  // ----- blockers -----

  function BlockersOf(blockers: map<int, seq<int>>, id: int): seq<int> {
    if id in blockers then blockers[id] else []
  }

  const MAX_DEPTH: nat := 50
  const MAX_BLOCKERS: nat := 20

  /** The bounded search along blockers: yes at the target, and yes past the bound. */
  predicate Reaches(blockers: map<int, seq<int>>, from: int, target: int, depth: nat)
    decreases if depth > MAX_DEPTH then 0 else MAX_DEPTH + 1 - depth
  {
    depth > MAX_DEPTH ||
    exists b | b in BlockersOf(blockers, from) :: b == target || Reaches(blockers, b, target, depth + 1)
  }

  predicate BlockerAllowed(stories: map<int, Story>, blockers: map<int, seq<int>>, id: int, project: int, b: int) {
    b != id && b in stories && stories[b].deletedAt.None? && stories[b].project == project &&
    !Reaches(blockers, b, id, 0)
  }

  /** The new blocked-by list of a story. */
  function CleanBlockers(
    stories: map<int, Story>, blockers: map<int, seq<int>>, id: int, project: int, ids: seq<int>): Result<seq<int>>
  {
    if exists b | b in ids :: !BlockerAllowed(stories, blockers, id, project, b) then Err(Invalid)
    else if |Distinct(ids)| > MAX_BLOCKERS then Err(Invalid)
    else Ok(Distinct(ids))
  }

  // ----- transactions -----

  predicate MoveTarget(sec: Section) { sec != Done }

  function Logged(log: seq<Activity>, id: int, events: seq<Event>): seq<Activity> {
    log + seq(|events|, i requires 0 <= i < |events| => Activity(id, events[i]))
  }

  predicate UserMissing(db: Db, id: Option<int>) { id.Some? && id.value !in db.users }

  datatype CreateInput = CreateInput(
    kind: Option<Type>, estimate: Option<int>, section: Option<Section>,
    owner: Option<int>, blockedBy: seq<int>, after: Option<int>)

  function CreateType(input: CreateInput): Type {
    if input.kind.Some? then input.kind.value else Feature
  }

  function CreateSection(input: CreateInput): Section {
    if input.section.Some? then input.section.value else Icebox
  }

  function CreateWhere(input: CreateInput): Where {
    if input.after.Some? then Where(input.after, None, false)
    else Where(None, None, CreateSection(input) != Icebox)
  }

  function CreateRefusal(db: Db, project: int, input: CreateInput): Option<Error> {
    if input.estimate.Some? && !ValidEstimate(input.estimate.value) then Some(Invalid)
    else if !MoveTarget(CreateSection(input)) then Some(Invalid)
    else if project !in db.projects then Some(NotFound)
    else if input.estimate.Some? && CreateType(input) != Feature && !db.projects[project] then Some(Invalid)
    else if UserMissing(db, input.owner) then Some(Invalid)
    else None
  }

  /** `id` is the key the table gives the new row. */
  ghost function CreateTx(db: Db, id: int, project: int, actor: int, input: CreateInput): Result<Db> {
    if CreateRefusal(db, project, input).Some? then Err(CreateRefusal(db, project, input).value)
    else
      var kind, sec := CreateType(input), CreateSection(input);
      var key := Key(project, sec);
      var p :- Place(db.stories, key, 0, CreateWhere(input));
      var row := Story(project, kind, EntryState(sec), input.estimate, p.position, actor, input.owner, None, None);
      var stories := p.stories[id := row];
      var list :- if input.blockedBy == [] then Ok([]) else CleanBlockers(stories, db.blockers, id, project, input.blockedBy);
      Ok(db.(stories := stories,
             blockers := if input.blockedBy == [] then db.blockers else db.blockers[id := list],
             log := Logged(db.log, id, [Created(sec)]),
             meter := Counted(db.meter, key, p.rebalanced)))
  }

  datatype Actor = Actor(id: int, isAdmin: bool)

  datatype Opt<+T> = Keep | Set(to: Option<T>)

  datatype UpdateInput = UpdateInput(
    kind: Option<Type>, state: Option<State>, estimate: Opt<int>, owner: Opt<int>,
    requester: Option<int>, blockedBy: Option<seq<int>>)

  /** A story being edited inside a transaction, and what to record about it. */
  datatype Draft = Draft(row: Story, acts: seq<Event>)

  /** The edit together with what a change of panel did to the other rows. */
  datatype Stepped = Stepped(draft: Draft, stories: map<int, Story>, meter: Meter)

  function WithType(d: Draft, kind: Option<Type>): Result<Draft> {
    if kind.None? || kind.value == d.row.kind then Ok(d)
    else if d.row.state == Accepted then Err(Invalid)
    else Ok(d.(row := d.row.(kind := kind.value), acts := d.acts + [TypeChanged(d.row.kind, kind.value)]))
  }

  function WithEstimate(d: Draft, estimate: Opt<int>): Result<Draft> {
    if estimate.Keep? || estimate.to == d.row.estimate then Ok(d)
    else if estimate.to.Some? && !ValidEstimate(estimate.to.value) then Err(Invalid)
    else if d.row.state == Accepted then Err(Invalid)
    else Ok(d.(row := d.row.(estimate := estimate.to), acts := d.acts + [EstimateChanged(d.row.estimate, estimate.to)]))
  }

  function WithPeople(db: Db, d: Draft, owner: Opt<int>, requester: Option<int>): Result<Draft> {
    var changed := owner.Set? && owner.to != d.row.owner;
    if changed && UserMissing(db, owner.to) then Err(Invalid)
    else if UserMissing(db, requester) then Err(Invalid)
    else
      var d1 := if changed then d.(row := d.row.(owner := owner.to), acts := d.acts + [OwnerChanged(d.row.owner, owner.to)]) else d;
      Ok(if requester.Some? then d1.(row := d1.row.(requester := requester.value)) else d1)
  }

  function Fields(db: Db, row: Story, input: UpdateInput): Result<Draft> {
    var d1 :- WithType(Draft(row, []), input.kind);
    var d2 :- WithEstimate(d1, input.estimate);
    WithPeople(db, d2, input.owner, input.requester)
  }

  /** A workflow step. Changing panel goes to the bottom of the new one. */
  ghost function WithState(
    stories: map<int, Story>, meter: Meter, d: Draft, id: int, actor: Actor, to: Option<State>, now: int): Result<Stepped>
  {
    if to.None? || to.value == d.row.state then Ok(Stepped(d, stories, meter))
    else if !CanTransition(d.row.state, to.value) then Err(Invalid)
    else if d.row.state == Accepted && !actor.isAdmin then Err(Forbidden)
    else
      var from, key := d.row.state, Key(d.row.project, SectionOf(to.value));
      var meter1 := if from == Accepted then Reentered(meter, key) else meter;
      if SectionOf(to.value) == SectionOf(from) then
        Ok(Stepped(StateDraft(d, d.row.position, actor, to.value, now), stories, meter1))
      else
        match Place(stories, key, id, AT_BOTTOM)
        case Err(e) => Err(e)
        case Ok(p) => Ok(Stepped(StateDraft(d, p.position, actor, to.value, now), p.stories, Counted(meter1, key, p.rebalanced)))
  }

  /** The row after an allowed workflow step: starting takes ownership, accepting
      stamps the time, reopening takes the stamp off. */
  function StateDraft(d: Draft, position: int, actor: Actor, to: State, now: int): Draft {
    var from := d.row.state;
    var claimed := to == Started && d.row.owner.None?;
    Draft(d.row.(state := to, position := position,
                 owner := if claimed then Some(actor.id) else d.row.owner,
                 acceptedAt := if to == Accepted then Some(now) else if from == Accepted then None else d.row.acceptedAt),
          d.acts + (if from == Accepted then [Reopened] else [])
                 + (if claimed then [OwnerChanged(None, Some(actor.id))] else [])
                 + [StateChanged(from, to)])
  }

  /** Features need points to be started; bugs and chores may not have any
      unless the project says so. */
  function WithPointRules(db: Db, d: Draft, estimate: Opt<int>): Result<Draft> {
    if d.row.kind == Feature && d.row.estimate.None? && (InProgress(d.row.state) || d.row.state == Accepted) then Err(Invalid)
    else if d.row.kind != Feature && d.row.estimate.Some? then
      if d.row.project !in db.projects then Err(NotFound)
      else if db.projects[d.row.project] then Ok(d)
      else if estimate.Set? && estimate.to.Some? then Err(Invalid)
      else Ok(d.(row := d.row.(estimate := None), acts := d.acts + [EstimateChanged(d.row.estimate, None)]))
    else Ok(d)
  }

  ghost function UpdateTx(db: Db, id: int, actor: Actor, input: UpdateInput, now: int): Result<Db> {
    if id !in db.stories then Err(NotFound)
    else if db.stories[id].deletedAt.Some? then Err(Invalid)
    else
      var edited :- Fields(db, db.stories[id], input);
      var stepped :- WithState(db.stories, db.meter, edited, id, actor, input.state, now);
      var d :- WithPointRules(db, stepped.draft, input.estimate);
      var list :- if input.blockedBy.None? then Ok([])
                  else CleanBlockers(stepped.stories, db.blockers, id, d.row.project, input.blockedBy.value);
      Ok(db.(stories := stepped.stories[id := d.row],
             blockers := if input.blockedBy.None? then db.blockers else db.blockers[id := list],
             log := Logged(db.log, id, d.acts),
             meter := stepped.meter))
  }

  datatype MoveInput = MoveInput(section: Section, prev: Option<int>, next: Option<int>)

  datatype MoveResult = MoveResult(db: Db, renormalized: bool)

  /** Why a story cannot be dragged into a section. */
  predicate MoveRefused(st: Story, sec: Section) {
    st.deletedAt.Some? || st.state == Accepted || (InProgress(st.state) && sec != Current)
  }

  ghost function MoveTx(db: Db, id: int, input: MoveInput): Result<MoveResult> {
    if !MoveTarget(input.section) then Err(Invalid)
    else if id !in db.stories then Err(NotFound)
    else if MoveRefused(db.stories[id], input.section) then Err(Invalid)
    else
      var row := db.stories[id];
      var key := Key(row.project, input.section);
      var crossing := SectionOf(row.state) != input.section;
      var p :- Place(db.stories, key, id, Where(input.prev, input.next, false));
      var moved := row.(state := if crossing then EntryState(input.section) else row.state, position := p.position);
      Ok(MoveResult(
        db.(stories := p.stories[id := moved],
            log := Logged(db.log, id, if crossing then [Moved(SectionOf(row.state), input.section)] else []),
            meter := Counted(db.meter, key, p.rebalanced)),
        p.rebalanced))
  }

  function DeleteTx(db: Db, id: int, now: int): Result<Db> {
    if id !in db.stories then Err(NotFound)
    else if db.stories[id].deletedAt.Some? then Err(NotFound)
    else Ok(db.(stories := db.stories[id := db.stories[id].(deletedAt := Some(now))], log := Logged(db.log, id, [Deleted])))
  }

  ghost function RestoreTx(db: Db, id: int): Result<Db> {
    if id !in db.stories then Err(NotFound)
    else if db.stories[id].deletedAt.None? then Err(Invalid)
    else
      var row := db.stories[id].(deletedAt := None);
      var stories := db.stories[id := row];
      var key := Key(row.project, SectionOf(row.state));
      if row.state == Accepted then
        Ok(db.(stories := stories, log := Logged(db.log, id, [Restored])))
      else match Place(stories, key, id, AT_BOTTOM) {
        case Err(e) => Err(e)
        case Ok(p) => Ok(db.(stories := p.stories[id := row.(position := p.position)],
                             log := Logged(db.log, id, [Restored]),
                             meter := Counted(db.meter, key, p.rebalanced)))
      }
  }

  /** Stories deleted before `before` go for good; what refers to them cascades. */
  function PurgeTx(db: Db, before: int): Db {
    var stories := map id | id in db.stories && !(db.stories[id].deletedAt.Some? && db.stories[id].deletedAt.value < before) :: db.stories[id];
    var gone := db.stories.Keys - stories.Keys;
    db.(stories := stories,
        blockers := map id | id in db.blockers && id !in gone :: Minus(db.blockers[id], gone),
        log := LogWithout(db.log, gone))
  }

  function LogWithout(log: seq<Activity>, gone: set<int>): seq<Activity> {
    if log == [] then []
    else
      var rest := LogWithout(log[..|log| - 1], gone);
      if log[|log| - 1].story in gone then rest else rest + [log[|log| - 1]]
  }

  /** A project's setting; switching points off takes them from bugs and chores. */
  function ProjectTx(db: Db, project: int, estimating: bool): Result<Db> {
    if project !in db.projects then Err(NotFound)
    else
      var stories := if db.projects[project] && !estimating then Cleared(db.stories, project) else db.stories;
      Ok(db.(projects := db.projects[project := estimating], stories := stories))
  }

  function Cleared(stories: map<int, Story>, project: int): map<int, Story> {
    map id | id in stories ::
      if stories[id].project == project && stories[id].kind != Feature then stories[id].(estimate := None) else stories[id]
  }
}
