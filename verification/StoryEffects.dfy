/** When each request of the story service is accepted and everything it changes
    (internal/story/story.go, internal/project/project.go). Updates are in StoryUpdates. */
module StoryEffects {
  import opened Sequences
  import opened States
  import opened StoryModel
  import opened StoryPlacement
  import opened StoryOrder
  import opened Blockers
  import opened Workflow
  import opened StoryInvariants
  import opened StoryLinks
  import opened StoryUpdates

  /** Only rows other than `id` are compared, and only positions of those may differ. */
  predicate OthersKept(before: map<int, Story>, after: map<int, Story>, id: int) {
    && after.Keys == before.Keys + {id}
    && forall x | x in before && x != id :: after[x] == before[x].(position := after[x].position)
  }

  // ----- moving -----

  /** Live, not accepted, and in work only inside the current panel. */
  predicate MayDrag(st: Story, section: Section) {
    && st.deletedAt.None? && st.state != Accepted && section != Done
    && (st.state in {Started, Finished, Delivered, Rejected} ==> section == Current)
  }

  /** The neighbour a request goes by is another story of the panel. */
  ghost predicate NeighbourShown(panel: seq<int>, id: int, prev: Option<int>, next: Option<int>) {
    if prev.Some? then prev.value in panel && prev.value != id
    else next.Some? ==> next.value in panel && next.value != id
  }

  /** What dragging does to a state: nothing inside its panel, else the planned state of the new one. */
  function Dragged(s: State, section: Section): State {
    if SectionOf(s) == section then s
    else if section == Icebox then InIcebox
    else if section == Backlog then InBacklog
    else Unstarted
  }

  /** A move is accepted exactly for a story that may be dragged there next to a story
      shown there. It changes the story's state as dragged, positions, and nothing else. */
  lemma MoveExactly(db: Db, id: int, input: MoveInput)
    ensures var r := MoveTx(db, id, input);
            && (r.Ok? <==>
                  && id in db.stories && MayDrag(db.stories[id], input.section)
                  && NeighbourShown(Panel(db.stories, Key(db.stories[id].project, input.section)), id, input.prev, input.next))
            && (r == Err(NotFound) <==> input.section != Done && id !in db.stories)
            && (r.Err? ==> r.error != Forbidden)
            && (r.Ok? ==> MoveKeepsRows(db, r.value.db, id, input.section))
  {
    if id in db.stories {
      MoveAccepted(db, id, input);
      PlaceCorrect(db.stories, Key(db.stories[id].project, input.section), id, Where(input.prev, input.next, false));
    }
  }

  lemma MoveAccepted(db: Db, id: int, input: MoveInput)
    requires id in db.stories
    ensures MoveTx(db, id, input).Ok? <==>
              && MayDrag(db.stories[id], input.section)
              && NeighbourShown(Panel(db.stories, Key(db.stories[id].project, input.section)), id, input.prev, input.next)
  {
    if MayDrag(db.stories[id], input.section) {
      MoveRefusal(db, id, input);
      MinusMembers(Panel(db.stories, Key(db.stories[id].project, input.section)), {id});
    }
  }

  predicate MoveKeepsRows(db: Db, db': Db, id: int, section: Section)
    requires id in db.stories
  {
    && OthersKept(db.stories, db'.stories, id)
    && db'.stories[id] == db.stories[id].(state := Dragged(db.stories[id].state, section), position := db'.stories[id].position)
    && db'.projects == db.projects && db'.users == db.users && db'.blockers == db.blockers
  }

  // ----- creating -----

  /** The blockers of a story that nothing can wait on yet. */
  ghost predicate FirstLinks(db: Db, project: int, ids: seq<int>) {
    && |set b | b in ids| <= 20
    && forall b | b in ids ::
         b in db.stories && db.stories[b].deletedAt.None? && db.stories[b].project == project && !Deep(db.blockers, b, 51)
  }

  /** What a new story has to satisfy. */
  ghost predicate MayCreate(db: Db, project: int, input: CreateInput) {
    && project in db.projects && input.section != Some(Done)
    && (input.estimate.Some? ==>
          input.estimate.value in {0, 1, 2, 3, 5, 8} &&
          (input.kind == None || input.kind == Some(Feature) || db.projects[project]))
    && (input.owner.Some? ==> input.owner.value in db.users)
    && (input.after.Some? ==> input.after.value in Panel(db.stories, Key(project, SectionAsked(input))))
    && FirstLinks(db, project, input.blockedBy)
  }

  function SectionAsked(input: CreateInput): Section { if input.section.Some? then input.section.value else Icebox }

  /** The new row, in the planned state of its panel. */
  predicate Fresh(st: Story, project: int, actor: int, input: CreateInput) {
    && st.project == project && st.requester == actor && st.owner == input.owner && st.estimate == input.estimate
    && st.kind == (if input.kind.Some? then input.kind.value else Feature)
    && st.state == (match SectionAsked(input) case Icebox => InIcebox case Backlog => InBacklog case _ => Unstarted)
    && st.acceptedAt.None? && st.deletedAt.None?
  }

  lemma {:induction false} NothingLeadsToNew(db: Db, id: int, b: int, n: nat)
    requires GraphOk(db) && id !in db.stories && n >= 1
    ensures !Chain(db.blockers, b, id, n)
    decreases n
  {
    forall c | c in BlockersOf(db.blockers, b) ensures !Chain(db.blockers, c, id, n - 1) {
      assert LinksOk(db, b, db.blockers[b]);
      if n > 1 {
        NothingLeadsToNew(db, id, c, n - 1);
      }
    }
  }

  lemma NewLinkable(db: Db, after: map<int, Story>, id: int, project: int, ids: seq<int>)
    requires GraphOk(db) && id !in db.stories && OthersKept(db.stories, after, id)
    ensures AllLinkable(after, db.blockers, id, project, ids) <==> FirstLinks(db, project, ids)
  {
    forall b | b in ids
      ensures Linkable(after, db.blockers, id, project, b) <==>
              b in db.stories && db.stories[b].deletedAt.None? && db.stories[b].project == project && !Deep(db.blockers, b, 51)
    {
      forall n: nat | n >= 1 ensures !Chain(db.blockers, b, id, n) {
        NothingLeadsToNew(db, id, b, n);
      }
    }
  }

  /** A story is created exactly when all it names is there and its points are allowed. The
      new row is what was asked for, with the blockers named, and nothing else changes but positions. */
  lemma CreateExactly(db: Db, id: int, project: int, actor: int, input: CreateInput)
    requires GraphOk(db) && 0 !in db.stories && id !in db.stories
    ensures var r := CreateTx(db, id, project, actor, input);
            && (r.Ok? <==> MayCreate(db, project, input))
            && (r.Err? ==> r.error != Forbidden)
            && (r.Ok? ==> CreateKeepsRows(db, r.value, id, project, actor, input))
  {
    CreateHasPlace(db, id, project, input);
    CreateAnswers(db, project, input);
    PlaceCorrect(db.stories, Key(project, CreateSection(input)), 0, CreateWhere(input));
    if Place(db.stories, Key(project, CreateSection(input)), 0, CreateWhere(input)).Ok? {
      CreatePlaced(db, id, project, actor, input);
    }
  }

  lemma CreateHasPlace(db: Db, id: int, project: int, input: CreateInput)
    requires 0 !in db.stories && id !in db.stories
    ensures Place(db.stories, Key(project, CreateSection(input)), 0, CreateWhere(input)).Ok? <==>
            (input.after.Some? ==> input.after.value in Panel(db.stories, Key(project, SectionAsked(input))))
  {
    var key := Key(project, CreateSection(input));
    RowsArePanel(db.stories, key, 0);
    NotShown(db.stories, key, 0);
    PlaceCorrect(db.stories, key, 0, CreateWhere(input));
  }

  lemma CreateAnswers(db: Db, project: int, input: CreateInput)
    ensures CreateRefusal(db, project, input).None? <==>
            && project in db.projects && input.section != Some(Done)
            && (input.estimate.Some? ==>
                  input.estimate.value in {0, 1, 2, 3, 5, 8} &&
                  (input.kind == None || input.kind == Some(Feature) || db.projects[project]))
            && (input.owner.Some? ==> input.owner.value in db.users)
  {
  }

  lemma CreatePlaced(db: Db, id: int, project: int, actor: int, input: CreateInput)
    requires GraphOk(db) && id !in db.stories
    requires Place(db.stories, Key(project, CreateSection(input)), 0, CreateWhere(input)).Ok?
    ensures var r := CreateTx(db, id, project, actor, input);
            && (r.Ok? <==> CreateRefusal(db, project, input).None? && FirstLinks(db, project, input.blockedBy))
            && (r.Err? ==> r.error != Forbidden)
            && (r.Ok? ==> CreateKeepsRows(db, r.value, id, project, actor, input))
  {
    PlaceCorrect(db.stories, Key(project, CreateSection(input)), 0, CreateWhere(input));
    LinksOfNew(db, Inserted(db, id, project, actor, input), id, project, input.blockedBy);
    CreateUnfolds(db, id, project, actor, input);
  }

  /** The rows with the new one among them. */
  ghost function Inserted(db: Db, id: int, project: int, actor: int, input: CreateInput): map<int, Story>
    requires Place(db.stories, Key(project, CreateSection(input)), 0, CreateWhere(input)).Ok?
  {
    var p := Place(db.stories, Key(project, CreateSection(input)), 0, CreateWhere(input)).value;
    p.stories[id := Story(project, CreateType(input), EntryState(CreateSection(input)), input.estimate, p.position, actor, input.owner, None, None)]
  }

  lemma CreateUnfolds(db: Db, id: int, project: int, actor: int, input: CreateInput)
    requires Place(db.stories, Key(project, CreateSection(input)), 0, CreateWhere(input)).Ok?
    ensures var r, links := CreateTx(db, id, project, actor, input),
                            CleanBlockers(Inserted(db, id, project, actor, input), db.blockers, id, project, input.blockedBy);
            && (r.Ok? <==> CreateRefusal(db, project, input).None? && (input.blockedBy == [] || links.Ok?))
            && (r.Err? ==> r == Err(if CreateRefusal(db, project, input).Some? then CreateRefusal(db, project, input).value else links.error))
            && (r.Ok? ==>
                  && r.value.stories == Inserted(db, id, project, actor, input)
                  && r.value.blockers == (if input.blockedBy == [] then db.blockers else db.blockers[id := links.value])
                  && r.value.projects == db.projects && r.value.users == db.users
                  && r.value.log == db.log + [Activity(id, Created(SectionAsked(input)))])
  {
  }

  lemma LinksOfNew(db: Db, after: map<int, Story>, id: int, project: int, ids: seq<int>)
    requires GraphOk(db) && id !in db.stories && OthersKept(db.stories, after, id)
    ensures var r := CleanBlockers(after, db.blockers, id, project, ids);
            && (ids == [] ==> FirstLinks(db, project, ids))
            && (r.Ok? <==> FirstLinks(db, project, ids)) && (r.Err? ==> r == Err(Invalid))
            && (r.Ok? ==> Relinked(db.blockers, db.blockers[id := r.value], id, ids))
  {
    LinksExactly(after, db.blockers, id, project, ids);
    NewLinkable(db, after, id, project, ids);
    var named := set b | b in ids;
    if ids == [] {
      assert named == {};
    }
    var r := CleanBlockers(after, db.blockers, id, project, ids);
    if r.Ok? {
      Relinks(db.blockers, id, r.value, ids);
    }
  }

  ghost predicate CreateKeepsRows(db: Db, db': Db, id: int, project: int, actor: int, input: CreateInput) {
    && OthersKept(db.stories, db'.stories, id) && Fresh(db'.stories[id], project, actor, input)
    && (if input.blockedBy == [] then db'.blockers == db.blockers else Relinked(db.blockers, db'.blockers, id, input.blockedBy))
    && db'.projects == db.projects && db'.users == db.users
    && db'.log == db.log + [Activity(id, Created(SectionAsked(input)))]
  }

  // ----- the trash -----

  /** Trashing a live story stamps it and changes nothing else. */
  lemma DeleteExactly(db: Db, id: int, now: int)
    ensures var r := DeleteTx(db, id, now);
            && (r.Ok? <==> id in db.stories && db.stories[id].deletedAt.None?)
            && (r.Err? ==> r == Err(NotFound))
            && (r.Ok? ==>
                  && r.value.stories == db.stories[id := db.stories[id].(deletedAt := Some(now))]
                  && r.value.log == db.log + [Activity(id, Deleted)]
                  && r.value.blockers == db.blockers && r.value.projects == db.projects && r.value.users == db.users)
  {
  }

  /** A trashed story can always be restored, and comes back as it was but for its position. */
  lemma RestoreExactly(db: Db, id: int)
    ensures var r := RestoreTx(db, id);
            && (r.Ok? <==> id in db.stories && db.stories[id].deletedAt.Some?)
            && (r == Err(NotFound) <==> id !in db.stories)
            && (r.Err? ==> r.error != Forbidden)
            && (r.Ok? ==>
                  && OthersKept(db.stories, r.value.stories, id)
                  && r.value.stories[id] == db.stories[id].(deletedAt := None, position := r.value.stories[id].position)
                  && (db.stories[id].state == Accepted ==> r.value.stories[id].position == db.stories[id].position)
                  && r.value.log == db.log + [Activity(id, Restored)]
                  && r.value.blockers == db.blockers && r.value.projects == db.projects && r.value.users == db.users)
  {
    if id in db.stories {
      var row := db.stories[id].(deletedAt := None);
      PlaceCorrect(db.stories[id := row], Key(row.project, SectionOf(row.state)), id, AT_BOTTOM);
    }
  }

  /** Trashed before the cut-off. */
  predicate Expired(st: Story, before: int) { st.deletedAt.Some? && st.deletedAt.value < before }

  /** A purge removes exactly the stories trashed before the cut-off, with their activity,
      their links and the links to them; every other row and history stays. */
  lemma PurgeExactly(db: Db, before: int, id: int)
    ensures var db', gone := PurgeTx(db, before), id in db.stories && Expired(db.stories[id], before);
            && (id in db'.stories <==> id in db.stories && !gone)
            && (id in db'.stories ==> db'.stories[id] == db.stories[id])
            && (History(db'.log, id) == if gone then [] else History(db.log, id))
            && (gone ==> id !in db'.blockers)
            && (!gone ==> forall b :: b in BlockersOf(db'.blockers, id) <==>
                  b in BlockersOf(db.blockers, id) && !(b in db.stories && Expired(db.stories[b], before)))
            && db'.projects == db.projects && db'.users == db.users
  {
    var gone := db.stories.Keys - PurgeTx(db, before).stories.Keys;
    HistoryWithout(db.log, gone, id);
    if id in db.blockers {
      MinusMembers(db.blockers[id], gone);
    }
  }

  // ----- settings -----

  /** Switching points off takes them from the bugs and chores of that project; nothing
      else about any story changes, and nothing at all by any other setting. */
  lemma SettingExactly(db: Db, project: int, on: bool)
    ensures var r := ProjectTx(db, project, on);
            && (r.Ok? <==> project in db.projects)
            && (r.Err? ==> r == Err(NotFound))
            && (r.Ok? ==>
                  && r.value.projects == db.projects[project := on]
                  && r.value.stories.Keys == db.stories.Keys
                  && (forall id | id in db.stories :: r.value.stories[id] ==
                        if db.projects[project] && !on && db.stories[id].project == project && db.stories[id].kind != Feature
                        then db.stories[id].(estimate := None) else db.stories[id])
                  && r.value.users == db.users && r.value.blockers == db.blockers && r.value.log == db.log)
  {
  }

  // ----- the activity log tells what changed -----

  /** What the log is about. */
  datatype Facts = Facts(kind: Type, state: State, estimate: Option<int>, owner: Option<int>)

  function FactsOf(st: Story): Facts { Facts(st.kind, st.state, st.estimate, st.owner) }

  /** What one entry says; nothing, if it starts from something else or changes nothing. */
  function Told(f: Option<Facts>, e: Event): Option<Facts> {
    if f.None? then None
    else
      match e
      case TypeChanged(a, b) => if f.value.kind == a != b then Some(f.value.(kind := b)) else None
      case EstimateChanged(a, b) => if f.value.estimate == a != b then Some(f.value.(estimate := b)) else None
      case OwnerChanged(a, b) => if f.value.owner == a != b then Some(f.value.(owner := b)) else None
      case StateChanged(a, b) => if f.value.state == a != b then Some(f.value.(state := b)) else None
      case Moved(a, b) =>
        if SectionOf(f.value.state) == a != b then Some(f.value.(state := Dragged(f.value.state, b))) else None
      case _ => f
  }

  function ToldBy(f: Option<Facts>, events: seq<Event>): Option<Facts> {
    if events == [] then f else Told(ToldBy(f, events[..|events| - 1]), events[|events| - 1])
  }

  lemma ToldOne(f: Option<Facts>, events: seq<Event>, e: Event)
    ensures ToldBy(f, events + [e]) == Told(ToldBy(f, events), e)
  {
    assert (events + [e])[..|events|] == events;
  }

  /** The draft's entries lead from the stored row to the draft's. */
  predicate Honest(st: Story, d: Draft) { ToldBy(Some(FactsOf(st)), d.acts) == Some(FactsOf(d.row)) }

  lemma OneEntry(st: Story, d: Draft, d': Draft, e: Event)
    requires Honest(st, d) && d'.acts == d.acts + [e] && Told(Some(FactsOf(d.row)), e) == Some(FactsOf(d'.row))
    ensures Honest(st, d')
  {
    ToldOne(Some(FactsOf(st)), d.acts, e);
  }

  lemma TypeHonest(st: Story, d: Draft, kind: Option<Type>)
    requires Honest(st, d) && WithType(d, kind).Ok?
    ensures Honest(st, WithType(d, kind).value)
  {
    if kind.Some? && kind.value != d.row.kind {
      OneEntry(st, d, WithType(d, kind).value, TypeChanged(d.row.kind, kind.value));
    }
  }

  lemma EstimateHonest(st: Story, d: Draft, estimate: Opt<int>)
    requires Honest(st, d) && WithEstimate(d, estimate).Ok?
    ensures Honest(st, WithEstimate(d, estimate).value)
  {
    if estimate.Set? && estimate.to != d.row.estimate {
      OneEntry(st, d, WithEstimate(d, estimate).value, EstimateChanged(d.row.estimate, estimate.to));
    }
  }

  lemma PeopleHonest(db: Db, st: Story, d: Draft, owner: Opt<int>, requester: Option<int>)
    requires Honest(st, d) && WithPeople(db, d, owner, requester).Ok?
    ensures Honest(st, WithPeople(db, d, owner, requester).value)
  {
    if owner.Set? && owner.to != d.row.owner {
      OneEntry(st, d, WithPeople(db, d, owner, requester).value, OwnerChanged(d.row.owner, owner.to));
    }
  }

  lemma FieldsHonest(db: Db, st: Story, input: UpdateInput)
    requires Fields(db, st, input).Ok?
    ensures Honest(st, Fields(db, st, input).value)
  {
    var d1 := WithType(Draft(st, []), input.kind).value;
    var d2 := WithEstimate(d1, input.estimate).value;
    TypeHonest(st, Draft(st, []), input.kind);
    EstimateHonest(st, d1, input.estimate);
    PeopleHonest(db, st, d2, input.owner, input.requester);
  }

  lemma StateHonest(st: Story, d: Draft, position: int, actor: Actor, to: State, now: int)
    requires Honest(st, d) && to != d.row.state
    ensures Honest(st, StateDraft(d, position, actor, to, now))
  {
    var a := if d.row.state == Accepted then d.(acts := d.acts + [Reopened]) else d;
    var b := if to == Started && d.row.owner.None? then
               Draft(a.row.(owner := Some(actor.id)), a.acts + [OwnerChanged(None, Some(actor.id))])
             else a;
    var c := Draft(b.row.(state := to), b.acts + [StateChanged(d.row.state, to)]);
    if d.row.state == Accepted {
      OneEntry(st, d, a, Reopened);
    }
    if to == Started && d.row.owner.None? {
      OneEntry(st, a, b, OwnerChanged(None, Some(actor.id)));
    }
    OneEntry(st, b, c, StateChanged(d.row.state, to));
    SameEntries(d, position, actor, to, now, c);
  }

  /** Acceptance time and position aside, the step's draft is the one built entry by entry. */
  lemma SameEntries(d: Draft, position: int, actor: Actor, to: State, now: int, c: Draft)
    requires var reopened := if d.row.state == Accepted then [Reopened] else [];
             var claimed := to == Started && d.row.owner.None?;
             && c.acts == (if claimed then d.acts + reopened + [OwnerChanged(None, Some(actor.id))] else d.acts + reopened)
                          + [StateChanged(d.row.state, to)]
             && FactsOf(c.row) == FactsOf(d.row).(state := to, owner := if claimed then Some(actor.id) else d.row.owner)
    ensures var e := StateDraft(d, position, actor, to, now); e.acts == c.acts && FactsOf(e.row) == FactsOf(c.row)
  {
  }

  lemma PointsHonest(db: Db, st: Story, d: Draft, estimate: Opt<int>)
    requires Honest(st, d) && WithPointRules(db, d, estimate).Ok?
    ensures Honest(st, WithPointRules(db, d, estimate).value)
  {
    ToldOne(Some(FactsOf(st)), d.acts, EstimateChanged(d.row.estimate, None));
  }

  /** The entries an update adds lead from the old type, state, points and owner to the new
      ones, each a real change from what was there: nothing changes unlogged. */
  lemma UpdateIsLogged(db: Db, id: int, actor: Actor, input: UpdateInput, now: int) returns (events: seq<Event>)
    requires UpdateTx(db, id, actor, input, now).Ok?
    ensures var db' := UpdateTx(db, id, actor, input, now).value;
            && db'.log == Logged(db.log, id, events)
            && ToldBy(Some(FactsOf(db.stories[id])), events) == Some(FactsOf(db'.stories[id]))
  {
    var st := db.stories[id];
    var edited := Fields(db, st, input).value;
    var stepped := WithState(db.stories, db.meter, edited, id, actor, input.state, now).value.draft;
    FieldsHonest(db, st, input);
    if input.state.Some? && input.state.value != edited.row.state {
      StateHonest(st, edited, stepped.row.position, actor, input.state.value, now);
    }
    PointsHonest(db, st, stepped, input.estimate);
    events := WithPointRules(db, stepped, input.estimate).value.acts;
  }

  /** So does the entry a move adds, if it changes the panel. */
  lemma MoveIsLogged(db: Db, id: int, input: MoveInput) returns (events: seq<Event>)
    requires MoveTx(db, id, input).Ok?
    ensures var db' := MoveTx(db, id, input).value.db;
            && db'.log == Logged(db.log, id, events)
            && ToldBy(Some(FactsOf(db.stories[id])), events) == Some(FactsOf(db'.stories[id]))
  {
    var st := db.stories[id];
    events := if SectionOf(st.state) != input.section then [Moved(SectionOf(st.state), input.section)] else [];
    if events != [] {
      ToldOne(Some(FactsOf(st)), [], events[0]);
    }
  }
}
