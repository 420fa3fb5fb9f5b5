/** When an update is accepted, how it is refused, and what it makes of the story
    (internal/story/story.go, Update). */
module StoryUpdates {
  import opened Sequences
  import opened States
  import opened StoryModel
  import opened StoryPlacement
  import opened StoryOrder
  import opened StoryInvariants
  import opened StoryLinks

  // ----- what an update asks for -----

  function KindAsked(st: Story, input: UpdateInput): Type { if input.kind.Some? then input.kind.value else st.kind }

  function StateAsked(st: Story, to: Option<State>): State { if to.Some? then to.value else st.state }

  function EstimateAsked(st: Story, estimate: Opt<int>): Option<int> { if estimate.Set? then estimate.to else st.estimate }

  function OwnerAsked(st: Story, owner: Opt<int>): Option<int> { if owner.Set? then owner.to else st.owner }

  predicate Working(s: State) { s == Started || s == Finished || s == Delivered || s == Rejected || s == Accepted }

  /** An accepted story keeps its type and points; points come from the scale; people exist. */
  predicate EditsAllowed(db: Db, st: Story, input: UpdateInput) {
    && (st.state == Accepted ==> KindAsked(st, input) == st.kind && EstimateAsked(st, input.estimate) == st.estimate)
    && (var e := EstimateAsked(st, input.estimate); e.Some? && e != st.estimate ==> e.value in {0, 1, 2, 3, 5, 8})
    && (var o := OwnerAsked(st, input.owner); o.Some? && o != st.owner ==> o.value in db.users)
    && (input.requester.Some? ==> input.requester.value in db.users)
  }

  /** No step, or one of the workflow's. */
  predicate InWorkflow(st: Story, to: Option<State>) {
    var s := StateAsked(st, to);
    s == st.state || s in Transitions(st.state)
  }

  /** Only an administrator takes a story out of accepted. */
  predicate Entitled(st: Story, actor: Actor, to: Option<State>) {
    st.state == Accepted && StateAsked(st, to) != Accepted ==> actor.isAdmin
  }

  /** A feature in work has points; a bug or chore is not given any its project does not allow. */
  predicate PointsAllowed(db: Db, st: Story, input: UpdateInput)
    requires st.project in db.projects
  {
    var e := EstimateAsked(st, input.estimate);
    if KindAsked(st, input) == Feature then Working(StateAsked(st, input.state)) ==> e.Some?
    else e.Some? && input.estimate.Set? ==> db.projects[st.project]
  }

  ghost predicate LinksAllowed(db: Db, id: int, input: UpdateInput)
    requires id in db.stories
  {
    input.blockedBy.Some? ==> AllLinkable(db.stories, db.blockers, id, db.stories[id].project, input.blockedBy.value)
  }

  // ----- step by step -----

  lemma FieldsExactly(db: Db, st: Story, input: UpdateInput)
    ensures var r := Fields(db, st, input);
            && (r.Ok? <==> EditsAllowed(db, st, input))
            && (r.Err? ==> r == Err(Invalid))
            && (r.Ok? ==> r.value.row == st.(
                  kind := KindAsked(st, input), estimate := EstimateAsked(st, input.estimate), owner := OwnerAsked(st, input.owner),
                  requester := if input.requester.Some? then input.requester.value else st.requester))
  {
  }

  /** Nothing but positions has changed. */
  predicate OnlyPositions(before: map<int, Story>, after: map<int, Story>) {
    after.Keys == before.Keys && forall x | x in before :: after[x] == before[x].(position := after[x].position)
  }

  lemma StepExactly(stories: map<int, Story>, meter: Meter, d: Draft, id: int, actor: Actor, to: Option<State>, now: int)
    ensures var r, s := WithState(stories, meter, d, id, actor, to, now), StateAsked(d.row, to);
            && (r.Ok? <==> InWorkflow(d.row, to) && Entitled(d.row, actor, to))
            && (r.Err? ==> r == Err(if InWorkflow(d.row, to) then Forbidden else Invalid))
            && (r.Ok? ==> var row := r.value.draft.row;
                  row == d.row.(
                    state := s, position := row.position,
                    owner := if s != d.row.state && s == Started && d.row.owner.None? then Some(actor.id) else d.row.owner,
                    acceptedAt := if s == d.row.state then d.row.acceptedAt
                                  else if s == Accepted then Some(now)
                                  else if d.row.state == Accepted then None else d.row.acceptedAt))
            && (r.Ok? ==> OnlyPositions(stories, r.value.stories))
  {
    if to.Some? && to.value != d.row.state {
      PlaceCorrect(stories, Key(d.row.project, SectionOf(to.value)), id, AT_BOTTOM);
    }
  }

  lemma PointsExactly(db: Db, st: Story, d: Draft, input: UpdateInput)
    requires RowOk(db.projects, st) && d.row.project == st.project
    requires d.row.kind == KindAsked(st, input) && d.row.estimate == EstimateAsked(st, input.estimate)
    requires d.row.state == StateAsked(st, input.state)
    ensures var r := WithPointRules(db, d, input.estimate);
            && (r.Ok? <==> PointsAllowed(db, st, input))
            && (r.Err? ==> r == Err(Invalid))
            && (r.Ok? ==> r.value.row == d.row.(
                  estimate := if d.row.kind != Feature && !db.projects[st.project] then None else d.row.estimate))
  {
  }

  /** The links are checked against rows of which only positions have changed. */
  lemma LinkableAgain(before: map<int, Story>, after: map<int, Story>, g: map<int, seq<int>>, id: int, project: int, ids: seq<int>)
    requires OnlyPositions(before, after)
    ensures AllLinkable(after, g, id, project, ids) <==> AllLinkable(before, g, id, project, ids)
  {
    forall b ensures Linkable(after, g, id, project, b) <==> Linkable(before, g, id, project, b) {
    }
  }

  // ----- the whole of it -----

  /** Everything an update has to satisfy. */
  ghost predicate MayUpdate(db: Db, id: int, actor: Actor, input: UpdateInput)
    requires id in db.stories ==> db.stories[id].project in db.projects
  {
    && id in db.stories && db.stories[id].deletedAt.None?
    && var st := db.stories[id];
       && EditsAllowed(db, st, input) && InWorkflow(st, input.state) && Entitled(st, actor, input.state)
       && PointsAllowed(db, st, input) && LinksAllowed(db, id, input)
  }

  /** Only the missing right to reopen is answered Forbidden. */
  predicate LacksRight(db: Db, id: int, actor: Actor, input: UpdateInput) {
    && id in db.stories && db.stories[id].deletedAt.None?
    && var st := db.stories[id];
       EditsAllowed(db, st, input) && InWorkflow(st, input.state) && !Entitled(st, actor, input.state)
  }

  /** What an accepted update makes of the row. */
  predicate Updated(db: Db, st: Story, row: Story, actor: Actor, input: UpdateInput, now: int)
    requires st.project in db.projects
  {
    && row.project == st.project && row.deletedAt == st.deletedAt
    && row.kind == KindAsked(st, input) && row.state == StateAsked(st, input.state)
    && row.estimate == (if row.kind != Feature && !db.projects[st.project] then None else EstimateAsked(st, input.estimate))
    && row.requester == (if input.requester.Some? then input.requester.value else st.requester)
    && row.owner == (if row.state == Started && st.state != Started && OwnerAsked(st, input.owner).None? then Some(actor.id)
                     else OwnerAsked(st, input.owner))
    && row.acceptedAt == (if row.state != Accepted then None else if st.state == Accepted then st.acceptedAt else Some(now))
    && (SectionOf(row.state) == SectionOf(st.state) ==> row.position == st.position)
  }

  /** An update is accepted if and only if what it asks for is allowed; each refusal has its error. */
  lemma UpdateAccepted(db: Db, id: int, actor: Actor, input: UpdateInput, now: int)
    requires id in db.stories ==> RowOk(db.projects, db.stories[id])
    ensures var r := UpdateTx(db, id, actor, input, now);
            && (r.Ok? <==> MayUpdate(db, id, actor, input))
            && (r == Err(NotFound) <==> id !in db.stories)
            && (r == Err(Forbidden) <==> LacksRight(db, id, actor, input))
  {
    if id in db.stories && db.stories[id].deletedAt.None? {
      StagesAccepted(db, id, actor, input, now);
    }
  }

  lemma StagesAccepted(db: Db, id: int, actor: Actor, input: UpdateInput, now: int)
    requires id in db.stories && RowOk(db.projects, db.stories[id]) && db.stories[id].deletedAt.None?
    ensures var r := UpdateTx(db, id, actor, input, now);
            && (r.Ok? <==> MayUpdate(db, id, actor, input))
            && (r.Err? ==> r == Err(if LacksRight(db, id, actor, input) then Forbidden else Invalid))
  {
    var st := db.stories[id];
    FieldsExactly(db, st, input);
    if EditsAllowed(db, st, input) {
      var edited := Fields(db, st, input).value;
      StepExactly(db.stories, db.meter, edited, id, actor, input.state, now);
      var r := WithState(db.stories, db.meter, edited, id, actor, input.state, now);
      if r.Ok? {
        PointsExactly(db, st, r.value.draft, input);
        if input.blockedBy.Some? {
          LinksExactly(r.value.stories, db.blockers, id, st.project, input.blockedBy.value);
          LinkableAgain(db.stories, r.value.stories, db.blockers, id, st.project, input.blockedBy.value);
        }
      }
    }
  }

  /** What an accepted update does: the row, its links, and nothing else but positions. */
  lemma UpdateDoes(db: Db, id: int, actor: Actor, input: UpdateInput, now: int)
    requires id in db.stories && RowOk(db.projects, db.stories[id]) && UpdateTx(db, id, actor, input, now).Ok?
    ensures var db' := UpdateTx(db, id, actor, input, now).value;
            && id in db'.stories && Updated(db, db.stories[id], db'.stories[id], actor, input, now)
            && OnlyPositions(db.stories, db'.stories[id := db.stories[id]])
            && db'.projects == db.projects && db'.users == db.users
            && (input.blockedBy.None? ==> db'.blockers == db.blockers)
            && (input.blockedBy.Some? ==> Relinked(db.blockers, db'.blockers, id, input.blockedBy.value))
  {
    RowUpdated(db, id, actor, input, now);
    OthersUpdated(db, id, actor, input, now);
    if input.blockedBy.Some? {
      LinksUpdated(db, id, actor, input, now);
    }
  }

  lemma RowUpdated(db: Db, id: int, actor: Actor, input: UpdateInput, now: int)
    requires id in db.stories && RowOk(db.projects, db.stories[id]) && UpdateTx(db, id, actor, input, now).Ok?
    ensures var db' := UpdateTx(db, id, actor, input, now).value;
            id in db'.stories && Updated(db, db.stories[id], db'.stories[id], actor, input, now)
  {
    var st := db.stories[id];
    UpdateFrame(db, id, actor, input, now);
    FieldsExactly(db, st, input);
    var edited := Fields(db, st, input).value;
    StepExactly(db.stories, db.meter, edited, id, actor, input.state, now);
    var stepped := WithState(db.stories, db.meter, edited, id, actor, input.state, now).value;
    PointsExactly(db, st, stepped.draft, input);
  }

  lemma OthersUpdated(db: Db, id: int, actor: Actor, input: UpdateInput, now: int)
    requires id in db.stories && UpdateTx(db, id, actor, input, now).Ok?
    ensures OnlyPositions(db.stories, UpdateTx(db, id, actor, input, now).value.stories[id := db.stories[id]])
  {
    var edited := Fields(db, db.stories[id], input).value;
    StepExactly(db.stories, db.meter, edited, id, actor, input.state, now);
  }

  lemma LinksUpdated(db: Db, id: int, actor: Actor, input: UpdateInput, now: int)
    requires id in db.stories && UpdateTx(db, id, actor, input, now).Ok? && input.blockedBy.Some?
    ensures Relinked(db.blockers, UpdateTx(db, id, actor, input, now).value.blockers, id, input.blockedBy.value)
  {
    var edited := Fields(db, db.stories[id], input).value;
    var stepped := WithState(db.stories, db.meter, edited, id, actor, input.state, now).value;
    var d := WithPointRules(db, stepped.draft, input.estimate).value;
    LinksExactly(stepped.stories, db.blockers, id, d.row.project, input.blockedBy.value);
    Relinks(db.blockers, id, CleanBlockers(stepped.stories, db.blockers, id, d.row.project, input.blockedBy.value).value,
      input.blockedBy.value);
  }

  // ----- a button press -----

  /** An update that only names a new state. */
  function StateUpdate(to: State): UpdateInput { UpdateInput(None, Some(to), Keep, Keep, None, None) }

  /** The answer to every state asked of every story: accepted exactly along the workflow,
      out of accepted by administrators only, into work with an estimate only. */
  lemma StateUpdateAnswered(db: Db, id: int, actor: Actor, to: State, now: int)
    requires id in db.stories ==> RowOk(db.projects, db.stories[id])
    ensures var r := UpdateTx(db, id, actor, StateUpdate(to), now);
            if id !in db.stories then r == Err(NotFound)
            else
              var st := db.stories[id];
              if st.deletedAt.Some? then r == Err(Invalid)
              else if to == st.state then r.Ok?
              else if to !in Transitions(st.state) then r == Err(Invalid)
              else if st.state == Accepted && !actor.isAdmin then r == Err(Forbidden)
              else if Working(to) && st.kind == Feature && st.estimate.None? then r == Err(Invalid)
              else r.Ok?
  {
    UpdateAccepted(db, id, actor, StateUpdate(to), now);
    if id in db.stories && db.stories[id].deletedAt.None? {
      StagesAccepted(db, id, actor, StateUpdate(to), now);
    }
  }
}
