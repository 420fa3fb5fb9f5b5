/** What the list and detail views show (internal/story/story.go, List, load and fromRow). */
module StoryViews {
  import opened Sequences
  import opened Ordering
  import opened States
  import opened StoryModel
  import opened StoryOrder
  import opened StoryInvariants
  import StoryService

  /** The panel a view puts a story in: accepted before the current iteration is history. */
  function SectionIn(st: Story, start: int): Section {
    if st.acceptedAt.Some? && st.acceptedAt.value < start then Done else SectionOf(st.state)
  }

  /** The default list: live stories, less those accepted before `start`. */
  predicate OnBoard(st: Story, project: int, start: int) {
    st.project == project && st.deletedAt.None? && (st.acceptedAt.None? || st.acceptedAt.value >= start)
  }

  /** The Done list: live stories accepted before `start`. */
  predicate OnDone(st: Story, project: int, start: int) {
    st.project == project && st.deletedAt.None? && st.acceptedAt.Some? && 0 <= st.acceptedAt.value < start
  }

  function BoardScope(stories: map<int, Story>, project: int, start: int): Scope {
    map id | id in stories && OnBoard(stories[id], project, start) :: stories[id].position as real
  }

  /** As the list computes it: some blocker is among the listed rows and not accepted. */
  predicate BlockedInList(db: Db, listed: set<int>, id: int) {
    exists b | b in BlockersOf(db.blockers, id) :: b in listed && b in db.stories && db.stories[b].state != Accepted
  }

  /** As the detail view computes it: some blocker is live and not accepted. */
  predicate BlockedInDetail(db: Db, id: int) {
    exists b | b in BlockersOf(db.blockers, id) :: b in db.stories && db.stories[b].deletedAt.None? && db.stories[b].state != Accepted
  }

  datatype View = View(id: int, section: Section, blocked: bool)

  class Views {
    const service: StoryService.Service

    constructor (service: StoryService.Service)
      ensures this.service == service
    {
      this.service := service;
    }

    method WaitsOn(id: int, listed: set<int>) returns (blocked: bool)
      ensures blocked == BlockedInList(service.State(), listed, id)
    {
      blocked := false;
      var list := BlockersOf(service.blockers, id);
      for n := 0 to |list|
        invariant blocked <==> exists b | b in list[..n] ::
                    b in listed && b in service.stories && service.stories[b].state != Accepted
      {
        assert list[..n + 1] == list[..n] + [list[n]];
        var b := list[n];
        assert b in list[..n + 1];
        if b in listed && b in service.stories && service.stories[b].state != Accepted { blocked := true; }
      }
      assert list[..|list|] == list;
    }

    /** The default list, in display order. */
    method List(project: int, start: int) returns (out: seq<View>)
      ensures var db, scope := service.State(), BoardScope(service.stories, project, start);
              && Displays(scope, seq(|out|, i requires 0 <= i < |out| => out[i].id))
              && forall v | v in out ::
                   v.id in db.stories && v.section == SectionIn(db.stories[v.id], start) &&
                   v.blocked == BlockedInList(db, scope.Keys, v.id)
    {
      var onBoard := set id | id in service.stories && OnBoard(service.stories[id], project, start);
      var rows := StoryService.SortedRows(service.stories, onBoard);
      ghost var scope := BoardScope(service.stories, project, start);
      assert scope == map id | id in onBoard :: service.stories[id].position as real;
      assert scope.Keys == onBoard;
      out := [];
      for i := 0 to |rows|
        invariant |out| == i && forall j | 0 <= j < i :: out[j].id == rows[j].id
        invariant forall v | v in out ::
                    v.id in service.stories && v.section == SectionIn(service.stories[v.id], start) &&
                    v.blocked == BlockedInList(service.State(), scope.Keys, v.id)
      {
        var id := rows[i].id;
        var blocked := WaitsOn(id, onBoard);
        out := out + [View(id, SectionIn(service.stories[id], start), blocked)];
      }
      assert seq(|out|, i requires 0 <= i < |out| => out[i].id) == StoryService.Ids(rows);
    }

    /** One story, as the detail view and every write answer with. */
    method Load(id: int, start: int) returns (v: View)
      requires id in service.stories
      ensures v == View(id, SectionIn(service.stories[id], start), BlockedInDetail(service.State(), id))
    {
      var blocked := false;
      var list := BlockersOf(service.blockers, id);
      for n := 0 to |list|
        invariant blocked <==> exists b | b in list[..n] ::
                    b in service.stories && service.stories[b].deletedAt.None? && service.stories[b].state != Accepted
      {
        assert list[..n + 1] == list[..n] + [list[n]];
        var b := list[n];
        if b in service.stories && service.stories[b].deletedAt.None? && service.stories[b].state != Accepted { blocked := true; }
      }
      assert list[..|list|] == list;
      v := View(id, SectionIn(service.stories[id], start), blocked);
    }
  }

  /** Every live story of a project is on exactly one of the two lists, and the
      section it shows is Done exactly on the Done list. */
  lemma ListsPartition(db: Db, project: int, start: int, id: int)
    requires Inv(db) && id in db.stories
    ensures var st := db.stories[id];
            && (st.project == project && st.deletedAt.None? <==> OnBoard(st, project, start) != OnDone(st, project, start))
            && !(OnBoard(st, project, start) && OnDone(st, project, start))
            && (OnBoard(st, project, start) ==> SectionIn(st, start) != Done)
            && (OnDone(st, project, start) ==> SectionIn(st, start) == Done)
  {
    assert RowOk(db.projects, db.stories[id]);
  }

  /** The list's panels are the ordering engine's: the rows a section shows, less
      the accepted ones, are that scope in its order. */
  lemma ListShowsPanels(db: Db, project: int, start: int, section: Section, listed: seq<int>)
    requires Inv(db) && section != Done && Displays(BoardScope(db.stories, project, start), listed)
    ensures var others := set id | id in listed && id in db.stories &&
                            (SectionIn(db.stories[id], start) != section || db.stories[id].state == Accepted);
            Minus(listed, others) == Panel(db.stories, Key(project, section))
  {
    var board, key := BoardScope(db.stories, project, start), Key(project, section);
    var others := set id | id in listed && id in db.stories &&
                    (SectionIn(db.stories[id], start) != section || db.stories[id].state == Accepted);
    DisplayMinus(board, listed, others);
    forall id ensures id in board - others <==> id in ScopeOf(db.stories, key) {
      if id in db.stories {
        assert RowOk(db.projects, db.stories[id]);
        ScopesPartition(db.stories[id].state, section);
        assert id in board <==> id in listed;
      }
    }
    assert board - others == ScopeOf(db.stories, key);
    OrderIs(ScopeOf(db.stories, key), Minus(listed, others));
  }

  /** The list and the detail view agree on what is blocked. */
  lemma BlockedAgrees(db: Db, project: int, start: int, id: int)
    requires Inv(db) && id in db.stories && db.stories[id].project == project
    ensures BlockedInList(db, BoardScope(db.stories, project, start).Keys, id) <==> BlockedInDetail(db, id)
  {
    var board := BoardScope(db.stories, project, start).Keys;
    forall b | b in BlockersOf(db.blockers, id)
      ensures b in db.stories && (b in board && db.stories[b].state != Accepted <==>
                                  db.stories[b].deletedAt.None? && db.stories[b].state != Accepted)
    {
      assert LinksOk(db, id, db.blockers[id]);
      assert RowOk(db.projects, db.stories[b]);
    }
  }
}
