/**
  The story service as the source runs it: each method is one transaction that
  reads rows, changes them step by step and rolls back when a step refuses.
  Its contract is the transaction function of `StoryModel`.
 */
module StoryService {
  import opened Sequences
  import opened Ordering
  import opened Position
  import opened States
  import opened StoryModel
  import opened StoryPlacement
  import opened StoryBulk
  import opened StoryLinks

  /** A row of ListSectionPositions. */
  datatype Row = Row(id: int, position: int)

  function Ids(rows: seq<Row>): (ids: seq<int>)
    ensures |ids| == |rows| && forall i | 0 <= i < |rows| :: ids[i] == rows[i].id
  {
    seq(|rows|, i requires 0 <= i < |rows| => rows[i].id)
  }

  ghost predicate RowsOf(stories: map<int, Story>, rows: seq<Row>) {
    forall i | 0 <= i < |rows| :: rows[i].id in stories && rows[i].position == stories[rows[i].id].position
  }

  class Service {
    var projects: map<int, bool>
    var users: set<int>
    var stories: map<int, Story>
    var blockers: map<int, seq<int>>
    var log: seq<Activity>
    ghost var meter: Meter

    ghost function State(): Db
      reads this
    {
      Db(projects, users, stories, blockers, log, meter)
    }

    constructor ()
      ensures State() == EMPTY
    {
      projects, users, stories, blockers, log, meter := map[], {}, map[], map[], [], EMPTY.meter;
    }

    // ----- ordering -----

    /** The query: live stories of one scope, by position, then id. */
    method ListSectionPositions(key: Key) returns (rows: seq<Row>)
      ensures Displays(ScopeOf(stories, key), Ids(rows))
      ensures RowsOf(stories, rows)
    {
      rows := SortedRows(stories, set id | id in stories && InScope(stories[id], key));
      assert ScopeOf(stories, key) == map id | id in (set id | id in stories && InScope(stories[id], key)) :: stories[id].position as real;
    }

    /** The section's rows without the story being moved. */
    method OtherRows(key: Key, moving: int) returns (rows: seq<Row>)
      ensures Ids(rows) == Rows(stories, key, moving)
      ensures RowsOf(stories, rows)
    {
      var all := ListSectionPositions(key);
      RowsAre(stories, key, moving, Ids(all));
      rows := DeleteRow(all, moving);
      forall i | 0 <= i < |rows| ensures rows[i].id in stories && rows[i].position == stories[rows[i].id].position {
        assert rows[i] in rows;
      }
    }

    /** Gives every row its evenly spaced position. */
    method Rebalance(rows: seq<Row>) returns (spread: seq<Row>)
      requires RowsOf(stories, rows) && NoDup(Ids(rows))
      modifies this`stories
      ensures stories == Renumbered(old(stories), Ids(rows))
      ensures Ids(spread) == Ids(rows) && RowsOf(stories, spread)
    {
      spread := rows;
      ghost var ids := Ids(rows);
      var spaced := Normalize(|rows|);
      assert stories == Renumbered(old(stories), ids[..0]);
      for i := 0 to |rows|
        invariant Ids(spread) == ids && RowsOf(stories, spread)
        invariant stories == Renumbered(old(stories), ids[..i])
        invariant forall j | 0 <= j < |rows| :: spaced[j] == Spaced(j)
      {
        RenumberStep(old(stories), ids, i);
        assert spread[i].id == ids[i] && spaced[i] == Spaced(i);
        stories := stories[spread[i].id := stories[spread[i].id].(position := spaced[i])];
        spread := spread[i := Row(spread[i].id, spaced[i])];
        forall j | 0 <= j < |spread| ensures spread[j].id in stories && spread[j].position == stories[spread[j].id].position {
          assert spread[j].id == ids[j];
        }
      }
      assert ids[..|rows|] == ids;
    }

    /** The index the placement names among the section's rows. */
    method FindIndex(rows: seq<Row>, w: Where) returns (k: Option<nat>)
      ensures k == IndexFor(Ids(rows), w)
    {
      if w.prev.Some? {
        var i := IndexOf(Ids(rows), w.prev.value);
        if i < 0 { return None; }
        return Some(i + 1);
      } else if w.next.Some? {
        var i := IndexOf(Ids(rows), w.next.value);
        if i < 0 { return None; }
        return Some(i);
      } else if w.bottom {
        return Some(|rows|);
      }
      return Some(0);
    }

    /** A position among the section's real neighbours. */
    method PlaceBetween(rows0: seq<Row>, w: Where) returns (r: Result<(int, bool)>)
      requires RowsOf(stories, rows0) && NoDup(Ids(rows0))
      modifies this`stories
      ensures match PlaceAmong(old(stories), Ids(rows0), w)
              case Err(e) => r == Err(e) && stories == old(stories)
              case Ok(p) => r == Ok((p.position, p.rebalanced)) && stories == p.stories
    {
      var rows := rows0;
      var found := FindIndex(rows, w);
      if found.None? { return Err(Invalid); }
      var index: int := found.value;
      NeighboursAre(stories, rows, index);
      var pos := Between(Neighbour(rows, index - 1), Neighbour(rows, index));
      if pos.Some? { return Ok((pos.value, false)); }
      RenumberedHasRoom(stories, Ids(rows), index);
      rows := Rebalance(rows);
      NeighboursAre(stories, rows, index);
      pos := Between(Neighbour(rows, index - 1), Neighbour(rows, index));
      r := Ok((pos.value, true));
    }

    /** The position for story `moving` in a section, from the section's real rows. */
    method PlaceStory(key: Key, moving: int, w: Where) returns (r: Result<(int, bool)>)
      modifies this`stories, this`meter
      ensures match Place(old(stories), key, moving, w)
              case Err(e) => r == Err(e) && stories == old(stories) && meter == old(meter)
              case Ok(p) =>
                r == Ok((p.position, p.rebalanced)) && stories == p.stories &&
                meter == Counted(old(meter), key, p.rebalanced)
    {
      var rows := OtherRows(key, moving);
      RowsInScope(stories, key, moving);
      r := PlaceBetween(rows, w);
      if r.Ok? { meter := Counted(meter, key, r.value.1); }
    }

    // ----- blockers -----

    /** Searches along blockers, depth first. */
    method Reach(from: int, target: int, depth: nat) returns (yes: bool)
      ensures yes == Reaches(blockers, from, target, depth)
      decreases if depth > MAX_DEPTH then 0 else MAX_DEPTH + 1 - depth
    {
      if depth > MAX_DEPTH { return true; }
      var list := BlockersOf(blockers, from);
      for i := 0 to |list|
        invariant forall j | 0 <= j < i :: list[j] != target && !Reaches(blockers, list[j], target, depth + 1)
      {
        assert list[i] in list;
        if list[i] == target { return true; }
        var deeper := Reach(list[i], target, depth + 1);
        if deeper { return true; }
      }
      return false;
    }

    /** The requested blockers, once each, if every one is allowed. */
    method CheckBlockers(id: int, project: int, ids: seq<int>) returns (r: Result<seq<int>>)
      ensures r == CleanBlockers(stories, blockers, id, project, ids)
      ensures r.Ok? <==> AllLinkable(stories, blockers, id, project, ids)
      ensures r.Ok? ==> FirstMentions(r.value, ids)
    {
      LinksExactly(stories, blockers, id, project, ids);
      var seen: set<int> := {};
      var clean: seq<int> := [];
      for i := 0 to |ids|
        invariant seen == (set b | b in ids[..i])
        invariant clean == Distinct(ids[..i])
        invariant forall b | b in ids[..i] :: BlockerAllowed(stories, blockers, id, project, b)
      {
        var b := ids[i];
        assert ids[..i + 1][..i] == ids[..i] && b in ids;
        assert forall x :: x in ids[..i + 1] <==> x in ids[..i] || x == b;
        DistinctMembers(ids[..i]);
        if b == id { return Err(Invalid); }
        if b !in seen {
          seen := seen + {b};
          if b !in stories || stories[b].deletedAt.Some? || stories[b].project != project { return Err(Invalid); }
          var cycle := Reach(b, id, 0);
          if cycle { return Err(Invalid); }
          clean := clean + [b];
        }
      }
      assert ids[..|ids|] == ids;
      r := if |clean| > MAX_BLOCKERS then Err(Invalid) else Ok(clean);
    }

    /** Replaces the "blocked by" list of a story. */
    method SetBlockers(id: int, project: int, ids: seq<int>) returns (r: Result<()>)
      modifies this`blockers
      ensures match CleanBlockers(stories, old(blockers), id, project, ids)
              case Err(e) => r == Err(e) && blockers == old(blockers)
              case Ok(list) => r == Ok(()) && blockers == old(blockers)[id := list]
      ensures if AllLinkable(stories, old(blockers), id, project, ids)
              then r.Ok? && Relinked(old(blockers), blockers, id, ids)
              else r == Err(Invalid) && blockers == old(blockers)
    {
      var checked := CheckBlockers(id, project, ids);
      if checked.Err? { return Err(checked.error); }
      var clean := checked.value;
      blockers := blockers[id := []];
      for i := 0 to |clean|
        invariant blockers == old(blockers)[id := clean[..i]]
      {
        assert clean[..i + 1] == clean[..i] + [clean[i]];
        blockers := blockers[id := blockers[id] + [clean[i]]];
      }
      assert clean[..|clean|] == clean;
      Relinks(old(blockers), id, clean, ids);
      r := Ok(());
    }

    method Record(id: int, events: seq<Event>)
      modifies this`log
      ensures log == Logged(old(log), id, events)
    {
      for i := 0 to |events|
        invariant log == Logged(old(log), id, events[..i])
      {
        log := log + [Activity(id, events[i])];
      }
      assert events[..|events|] == events;
    }

    // ----- transactions -----

    method CheckCreate(project: int, input: CreateInput) returns (refusal: Option<Error>)
      ensures refusal == CreateRefusal(State(), project, input)
    {
      var kind, sec := CreateType(input), CreateSection(input);
      if input.estimate.Some? && !ValidEstimate(input.estimate.value) { return Some(Invalid); }
      if sec != Icebox && sec != Backlog && sec != Current { return Some(Invalid); }
      if project !in projects { return Some(NotFound); }
      if input.estimate.Some? && kind != Feature && !projects[project] { return Some(Invalid); }
      if input.owner.Some? && input.owner.value !in users { return Some(Invalid); }
      refusal := None;
    }

    method Create(id: int, project: int, actor: int, input: CreateInput) returns (r: Result<()>)
      modifies this
      ensures match CreateTx(old(State()), id, project, actor, input)
              case Err(e) => r == Err(e) && State() == old(State())
              case Ok(db) => r == Ok(()) && State() == db
    {
      var kind, sec := CreateType(input), CreateSection(input);
      var refusal := CheckCreate(project, input);
      if refusal.Some? { return Err(refusal.value); }
      var saved := stories;
      ghost var savedMeter := meter;
      var w := Where(None, None, sec != Icebox);
      if input.after.Some? { w := Where(input.after, None, false); }
      var placed := PlaceStory(Key(project, sec), 0, w);
      if placed.Err? { return Err(placed.error); }
      var row := Story(project, kind, EntryState(sec), input.estimate, placed.value.0, actor, input.owner, None, None);
      r := Insert(id, row, input.blockedBy, sec);
      if r.Err? {
        stories, meter := saved, savedMeter; // rollback
      }
    }

    /** Stores a new story with its links and its first activity. */
    method Insert(id: int, row: Story, links: seq<int>, sec: Section) returns (r: Result<()>)
      modifies this`stories, this`blockers, this`log
      ensures stories == old(stories)[id := row]
      ensures var list := if links == [] then Ok([]) else CleanBlockers(stories, old(blockers), id, row.project, links);
              match list
              case Err(e) => r == Err(e) && blockers == old(blockers) && log == old(log)
              case Ok(clean) =>
                r == Ok(()) && log == Logged(old(log), id, [Created(sec)]) &&
                blockers == if links == [] then old(blockers) else old(blockers)[id := clean]
    {
      stories := stories[id := row];
      if |links| > 0 {
        var linked := SetBlockers(id, row.project, links);
        if linked.Err? {
          return Err(linked.error);
        }
      }
      Record(id, [Created(sec)]);
      r := Ok(());
    }

    method Move(id: int, input: MoveInput) returns (r: Result<bool>)
      modifies this
      ensures match MoveTx(old(State()), id, input)
              case Err(e) => r == Err(e) && State() == old(State())
              case Ok(res) => r == Ok(res.renormalized) && State() == res.db
    {
      if input.section != Icebox && input.section != Backlog && input.section != Current { return Err(Invalid); }
      if id !in stories { return Err(NotFound); }
      var row, savedLog := stories[id], log;
      var state := row.state;
      if row.deletedAt.Some? { return Err(Invalid); }
      if state == Accepted { return Err(Invalid); }
      if InProgress(state) && input.section != Current { return Err(Invalid); }
      if SectionOf(state) != input.section {
        row := row.(state := EntryState(input.section));
        Record(id, [Moved(SectionOf(state), input.section)]);
      } else {
        assert Logged(log, id, []) == log;
      }
      var placed := PlaceStory(Key(row.project, input.section), id, Where(input.prev, input.next, false));
      if placed.Err? {
        log := savedLog; // rollback
        return Err(placed.error);
      }
      row := row.(position := placed.value.0);
      stories := stories[id := row];
      r := Ok(placed.value.1);
    }

    /** One story of a batch; the source repeats the steps of `Move` inline. */
    method MoveNext(id: int, project: int, w: MoveInput) returns (r: Result<()>)
      modifies this
      ensures match ChainItem(old(State()), id, project, w)
              case Err(e) => r == Err(e) && State() == old(State())
              case Ok(db) => r == Ok(()) && State() == db
    {
      if id !in stories { return Err(NotFound); }
      if stories[id].project != project { return Err(Invalid); }
      var moved := Move(id, w);
      r := if moved.Err? then Err(moved.error) else Ok(());
    }

    /** Builds the block story by story and gives up at the first refusal. */
    method MoveEachNext(ids: seq<int>, project: int, input: MoveInput) returns (r: Result<()>)
      modifies this
      ensures match MoveChain(old(State()), ids, project, input)
              case Err(e) => r == Err(e)
              case Ok(db) => r == Ok(()) && State() == db
    {
      ghost var start := State();
      var seen: set<int> := {};
      var last: Option<int> := None;
      for i := 0 to |ids|
        invariant MoveChain(start, ids[..i], project, input) == Ok(State())
        invariant Tracks(seen, Distinct(ids[..i])) && last == LastOf(Distinct(ids[..i]))
      {
        var id := ids[i];
        if id in seen {
          ChainExtends(start, ids, i, project, input);
        } else {
          TracksMore(seen, Distinct(ids[..i]), id);
          seen := seen + {id};
          r := MoveNextOf(start, ids, i, project, input, last);
          if r.Err? { return; }
          last := Some(id);
        }
      }
      assert ids[..|ids|] == ids;
      r := Ok(());
    }

    /** Item `i` of a batch, not seen before. */
    method MoveNextOf(ghost start: Db, ids: seq<int>, i: nat, project: int, input: MoveInput, last: Option<int>)
      returns (r: Result<()>)
      requires i < |ids| && ids[i] !in Distinct(ids[..i])
      requires MoveChain(start, ids[..i], project, input) == Ok(State())
      requires last == LastOf(Distinct(ids[..i]))
      modifies this
      ensures r.Ok? ==> MoveChain(start, ids[..i + 1], project, input) == Ok(State())
      ensures r.Ok? ==> Distinct(ids[..i + 1]) == Distinct(ids[..i]) + [ids[i]]
      ensures r.Err? ==> MoveChain(start, ids, project, input) == Err(r.error)
    {
      ChainExtends(start, ids, i, project, input);
      r := MoveNext(ids[i], project, if last.None? then input else MoveInput(input.section, last, None));
      if r.Err? {
        MoveChainRefused(start, ids, i + 1, project, input);
      }
    }

    /** A whole selection at once: all of it moves, or none of it. */
    method MoveMany(ids: seq<int>, input: MoveInput) returns (r: Result<()>)
      modifies this
      ensures match MoveManyTx(old(State()), ids, input)
              case Err(e) => r == Err(e) && State() == old(State())
              case Ok(db) => r == Ok(()) && State() == db
    {
      if |ids| == 0 || |ids| > MAX_MOVE_MANY { return Err(Invalid); }
      if input.section != Icebox && input.section != Backlog && input.section != Current { return Err(Invalid); }
      if TargetMoving(ids, input) { return Err(Invalid); }
      if ids[0] !in stories { return Err(NotFound); }
      var saved := (projects, users, stories, blockers, log);
      ghost var savedMeter := meter;
      r := MoveEachNext(ids, stories[ids[0]].project, input);
      if r.Err? {
        projects, users, stories, blockers, log := saved.0, saved.1, saved.2, saved.3, saved.4; // rollback
        meter := savedMeter;
      }
    }

    method Delete(id: int, now: int) returns (r: Result<()>)
      modifies this
      ensures match DeleteTx(old(State()), id, now)
              case Err(e) => r == Err(e) && State() == old(State())
              case Ok(db) => r == Ok(()) && State() == db
    {
      if id !in stories { return Err(NotFound); }
      if stories[id].deletedAt.Some? { return Err(NotFound); }
      stories := stories[id := stories[id].(deletedAt := Some(now))];
      Record(id, [Deleted]);
      r := Ok(());
    }

    method Restore(id: int) returns (r: Result<()>)
      modifies this
      ensures match RestoreTx(old(State()), id)
              case Err(e) => r == Err(e) && State() == old(State())
              case Ok(db) => r == Ok(()) && State() == db
    {
      if id !in stories { return Err(NotFound); }
      if stories[id].deletedAt.None? { return Err(Invalid); }
      ghost var saved := stories;
      stories := stories[id := stories[id].(deletedAt := None)];
      var row := stories[id];
      if row.state != Accepted {
        var placed := PlaceStory(Key(row.project, SectionOf(row.state)), id, AT_BOTTOM);
        assert placed.Ok? by { PlaceCorrect(saved[id := row], Key(row.project, SectionOf(row.state)), id, AT_BOTTOM); }
        row := row.(position := placed.value.0);
      }
      Record(id, [Restored]);
      stories := stories[id := row];
      r := Ok(());
    }

    /** A project's settings: points on bugs and chores go when their option does. */
    method UpdateProject(project: int, estimating: Option<bool>) returns (r: Result<()>)
      modifies this
      ensures var on := if estimating.Some? then estimating.value else project in old(projects) && old(projects)[project];
              match ProjectTx(old(State()), project, on)
              case Err(e) => r == Err(e) && State() == old(State())
              case Ok(db) => r == Ok(()) && State() == db
    {
      if project !in projects { return Err(NotFound); }
      var wasEstimating := projects[project];
      var estimates := wasEstimating;
      if estimating.Some? { estimates := estimating.value; }
      projects := projects[project := estimates];
      if wasEstimating && !estimates {
        stories := map id | id in stories ::
          if stories[id].project == project && stories[id].kind != Feature then stories[id].(estimate := None) else stories[id];
      }
      r := Ok(());
    }

    /** Empties the trash of what was deleted before `before`. */
    method Purge(before: int)
      modifies this
      ensures State() == PurgeTx(old(State()), before)
    {
      var gone := set id | id in stories && stories[id].deletedAt.Some? && stories[id].deletedAt.value < before;
      ghost var db := State();
      stories := stories - gone;
      assert stories == PurgeTx(db, before).stories;
      assert gone == db.stories.Keys - stories.Keys;
      blockers := map id | id in blockers && id !in gone :: Minus(blockers[id], gone);
      log := LogWithout(log, gone);
    }

    /** The part of an update that only edits the row. */
    method EditFields(row0: Story, input: UpdateInput) returns (r: Result<Draft>)
      ensures r == Fields(State(), row0, input)
    {
      var row, acts := row0, [];
      var accepted := row.state == Accepted;
      if input.kind.Some? && input.kind.value != row.kind {
        if accepted { return Err(Invalid); }
        acts := acts + [TypeChanged(row.kind, input.kind.value)];
        row := row.(kind := input.kind.value);
      }
      if input.estimate.Set? && input.estimate.to != row.estimate {
        if input.estimate.to.Some? && !ValidEstimate(input.estimate.to.value) { return Err(Invalid); }
        if accepted { return Err(Invalid); }
        acts := acts + [EstimateChanged(row.estimate, input.estimate.to)];
        row := row.(estimate := input.estimate.to);
      }
      if input.owner.Set? && input.owner.to != row.owner {
        if input.owner.to.Some? && input.owner.to.value !in users { return Err(Invalid); }
        acts := acts + [OwnerChanged(row.owner, input.owner.to)];
        row := row.(owner := input.owner.to);
      }
      if input.requester.Some? {
        if input.requester.value !in users { return Err(Invalid); }
        row := row.(requester := input.requester.value);
      }
      r := Ok(Draft(row, acts));
    }

    /** The workflow step of an update. */
    method ChangeState(d: Draft, id: int, actor: Actor, wanted: Option<State>, now: int) returns (r: Result<Draft>)
      modifies this`stories, this`meter
      ensures match WithState(old(stories), old(meter), d, id, actor, wanted, now)
              case Err(e) => r == Err(e) && stories == old(stories) && meter == old(meter)
              case Ok(stepped) => r == Ok(stepped.draft) && stories == stepped.stories && meter == stepped.meter
    {
      if wanted.None? || wanted.value == d.row.state { return Ok(d); }
      var row, acts, from, to := d.row, d.acts, d.row.state, wanted.value;
      if !CanTransition(from, to) { return Err(Invalid); }
      if from == Accepted && !actor.isAdmin { return Err(Forbidden); }
      if from == Accepted {
        row := row.(acceptedAt := None);
        acts := acts + [Reopened];
        meter := Reentered(meter, Key(row.project, SectionOf(to)));
      }
      if SectionOf(to) != SectionOf(from) {
        PlaceCorrect(stories, Key(row.project, SectionOf(to)), id, AT_BOTTOM);
        var placed := PlaceStory(Key(row.project, SectionOf(to)), id, AT_BOTTOM);
        row := row.(position := placed.value.0);
      }
      if to == Started && row.owner.None? {
        row := row.(owner := Some(actor.id));
        acts := acts + [OwnerChanged(None, Some(actor.id))];
      }
      if to == Accepted { row := row.(acceptedAt := Some(now)); }
      acts := acts + [StateChanged(from, to)];
      row := row.(state := to);
      assert Draft(row, acts) == StateDraft(d, row.position, actor, to, now);
      r := Ok(Draft(row, acts));
    }

    method CheckPoints(d: Draft, estimate: Opt<int>) returns (r: Result<Draft>)
      ensures r == WithPointRules(State(), d, estimate)
    {
      var row, acts := d.row, d.acts;
      if row.kind == Feature && row.estimate.None? && (InProgress(row.state) || row.state == Accepted) { return Err(Invalid); }
      if row.kind != Feature && row.estimate.Some? {
        if row.project !in projects { return Err(NotFound); }
        if !projects[row.project] {
          if estimate.Set? && estimate.to.Some? { return Err(Invalid); }
          acts := acts + [EstimateChanged(row.estimate, None)];
          row := row.(estimate := None);
        }
      }
      r := Ok(d.(row := row, acts := acts));
    }

    method Update(id: int, actor: Actor, input: UpdateInput, now: int) returns (r: Result<()>)
      modifies this
      ensures match UpdateTx(old(State()), id, actor, input, now)
              case Err(e) => r == Err(e) && State() == old(State())
              case Ok(db) => r == Ok(()) && State() == db
    {
      if id !in stories { return Err(NotFound); }
      if stories[id].deletedAt.Some? { return Err(Invalid); }
      var saved := stories;
      ghost var savedMeter := meter;
      var edited := EditFields(stories[id], input);
      if edited.Err? { return Err(edited.error); }
      var stepped := ChangeState(edited.value, id, actor, input.state, now);
      if stepped.Err? { return Err(stepped.error); }
      var checked := CheckPoints(stepped.value, input.estimate);
      if checked.Err? {
        stories, meter := saved, savedMeter; // rollback
        return Err(checked.error);
      }
      r := StoreDraft(id, checked.value, input.blockedBy);
      if r.Err? {
        stories, meter := saved, savedMeter; // rollback
      }
    }

    /** Stores an edited story with its links, if they were given, and its activity. */
    method StoreDraft(id: int, d: Draft, links: Option<seq<int>>) returns (r: Result<()>)
      modifies this`stories, this`blockers, this`log
      ensures var list := if links.None? then Ok([]) else CleanBlockers(old(stories), old(blockers), id, d.row.project, links.value);
              match list
              case Err(e) => r == Err(e) && stories == old(stories) && blockers == old(blockers) && log == old(log)
              case Ok(clean) =>
                r == Ok(()) && stories == old(stories)[id := d.row] && log == Logged(old(log), id, d.acts) &&
                blockers == if links.None? then old(blockers) else old(blockers)[id := clean]
    {
      if links.Some? {
        var linked := SetBlockers(id, d.row.project, links.value);
        if linked.Err? {
          return Err(linked.error);
        }
      }
      Record(id, d.acts);
      stories := stories[id := d.row];
      r := Ok(());
    }
  }

  function LastOf(s: seq<int>): Option<int> { if s == [] then None else Some(s[|s| - 1]) }

  /** The set holds what the list holds. */
  predicate Tracks(seen: set<int>, done: seq<int>) {
    (forall x | x in seen :: x in done) && forall x | x in done :: x in seen
  }

  lemma TracksMore(seen: set<int>, done: seq<int>, id: int)
    requires Tracks(seen, done)
    ensures Tracks(seen + {id}, done + [id])
  {
  }

  /** ORDER BY position, id. */
  method SortedRows(stories: map<int, Story>, ids: set<int>) returns (rows: seq<Row>)
    requires forall id | id in ids :: id in stories
    ensures Displays(map id | id in ids :: stories[id].position as real, Ids(rows))
    ensures RowsOf(stories, rows)
  {
    rows := [];
    var todo := ids;
    ghost var scope: Scope := map id | id in ids :: stories[id].position as real;
    ghost var done: Scope := map[];
    while exists id :: id in todo
      invariant done == map id | id in scope && id !in todo :: scope[id]
      invariant todo <= ids
      invariant Displays(done, Ids(rows)) && RowsOf(stories, rows)
      decreases todo
    {
      var id: int :| id in todo;
      rows := InsertRow(stories, done, rows, Row(id, stories[id].position));
      todo := todo - {id};
      done := done[id := scope[id]];
    }
    assert done == scope;
  }

  /** Puts a row where the display order wants it. */
  method InsertRow(stories: map<int, Story>, ghost done: Scope, rows: seq<Row>, row: Row) returns (out: seq<Row>)
    requires row.id in stories && row.position == stories[row.id].position && row.id !in done
    requires Displays(done, Ids(rows)) && RowsOf(stories, rows)
    requires forall id | id in done :: id in stories && done[id] == stories[id].position as real
    ensures Displays(done[row.id := row.position as real], Ids(out)) && RowsOf(stories, out)
  {
    forall i | 0 <= i < |rows| ensures rows[i].id in done && done[rows[i].id] == rows[i].position as real {
      DisplayMember(done, Ids(rows), i);
    }
    var k := RowIndex(done, rows, row);
    DisplayWith(done, Ids(rows), k, row.id, row.position as real);
    out := rows[..k] + [row] + rows[k..];
    assert Ids(out) == InsertAt(Ids(rows), k, row.id);
  }

  /** How many rows the display order puts before the new one. */
  method RowIndex(ghost done: Scope, rows: seq<Row>, row: Row) returns (k: nat)
    requires Displays(done, Ids(rows)) && row.id !in done
    requires forall i | 0 <= i < |rows| :: rows[i].id in done && done[rows[i].id] == rows[i].position as real
    ensures k <= |rows|
    ensures forall i | 0 <= i < k :: Before(done[row.id := row.position as real], rows[i].id, row.id)
    ensures forall j | k <= j < |rows| :: Before(done[row.id := row.position as real], row.id, rows[j].id)
  {
    ghost var grown := done[row.id := row.position as real];
    k := |rows|;
    while k > 0 && (row.position < rows[k - 1].position || (row.position == rows[k - 1].position && row.id < rows[k - 1].id))
      invariant 0 <= k <= |rows|
      invariant forall j | k <= j < |rows| :: Before(grown, row.id, rows[j].id)
    {
      k := k - 1;
    }
    forall i | 0 <= i < k ensures Before(grown, rows[i].id, row.id) {
      assert i < k - 1 ==> Before(done, Ids(rows)[i], Ids(rows)[k - 1]);
    }
  }

  lemma NeighboursAre(stories: map<int, Story>, rows: seq<Row>, k: nat)
    requires RowsOf(stories, rows) && k <= |rows|
    ensures Neighbour(rows, k - 1) == PositionAt(stories, Ids(rows), k - 1)
    ensures Neighbour(rows, k) == PositionAt(stories, Ids(rows), k)
  {
  }

  function Neighbour(rows: seq<Row>, i: int): Option<int> {
    if 0 <= i < |rows| then Some(rows[i].position) else None
  }

  method DeleteRow(all: seq<Row>, id: int) returns (rows: seq<Row>)
    ensures Ids(rows) == Minus(Ids(all), {id})
    ensures forall r | r in rows :: r in all
  {
    rows := [];
    for i := 0 to |all|
      invariant Ids(rows) == Minus(Ids(all)[..i], {id})
      invariant forall r | r in rows :: r in all
    {
      assert Ids(all)[..i + 1][..i] == Ids(all)[..i];
      if all[i].id != id { rows := rows + [all[i]]; }
    }
    assert Ids(all)[..|all|] == Ids(all);
  }

  lemma RenumberStep(before: map<int, Story>, ids: seq<int>, i: nat)
    requires NoDup(ids) && i < |ids| && ids[i] in before
    ensures ids[i] in Renumbered(before, ids[..i])
    ensures var st := Renumbered(before, ids[..i]);
            Renumbered(before, ids[..i + 1]) == st[ids[i] := st[ids[i]].(position := Spaced(i))]
  {
    var a, b := ids[..i], ids[..i + 1];
    IndexInNoDup(b, i);
    forall id | id in before && id in a ensures IndexOf(a, id) == IndexOf(b, id) {
      var k := IndexOf(a, id);
      IndexInNoDup(b, k);
    }
    assert forall id :: id in b <==> id in a || id == ids[i];
  }
}
