/** The bulk tools as their loops run (internal/mcpserver/tools.go). */
module StoryTools {
  import opened Sequences
  import opened States
  import opened StoryModel
  import opened StoryBulk
  import opened StoryOutcomes
  import StoryService

  class Tools {
    const service: StoryService.Service
    /** The projects the caller may write to. */
    const writable: set<int>

    constructor (service: StoryService.Service, writable: set<int>)
      ensures this.service == service && this.writable == writable
    {
      this.service := service;
      this.writable := writable;
    }

    /** One move per story; a refusal skips its story only. Each item is answered for
        what it asks of the store before the call. */
    method MoveStories(ids: seq<int>, input: MoveInput) returns (r: Result<Answer>)
      modifies service
      ensures if |ids| == 0 || |ids| > 50 || (input.prev.Some? && input.prev.value in ids) || (input.next.Some? && input.next.value in ids) then
                r == Err(Invalid) && service.State() == old(service.State())
              else
                var b := MoveEach(old(service.State()), writable, ids, input);
                r == Ok(b.answer) && service.State() == b.db
      ensures r.Ok? ==> |r.value.results| == |ids| && forall i | 0 <= i < |ids| ::
                r.value.results[i] == Outcome(ids[i], Moves(old(service.State()), writable, ids, i, input))
    {
      if |ids| == 0 || |ids| > MAX_BULK || TargetMoving(ids, input) { return Err(Invalid); }
      ghost var start, moved := service.State(), [];
      var project: Option<int> := None;
      var out := NO_ANSWER;
      var prev, next := input.prev, input.next;
      var seen: set<int> := {};
      for i := 0 to |ids|
        invariant MoveEach(start, writable, ids[..i], input) == Bulk(service.State(), project, moved, out)
        invariant MoveInput(input.section, prev, next) == ChainWhere(input, moved)
        invariant forall x :: x in seen <==> x in ids[..i]
      {
        var id := ids[i];
        ghost var upTo := ids[..i + 1];
        assert upTo[..i] == ids[..i] && upTo[i] == id && upTo == ids[..i] + [id];
        if id in seen {
          out := Added(out, Outcome(id, false));
        } else {
          seen := seen + {id};
          var done;
          project, done, moved := MoveStory(id, MoveInput(input.section, prev, next), project, input, moved, out);
          out := Added(out, Outcome(id, done));
          if done { prev, next := Some(id), None; }
        }
      }
      assert ids[..|ids|] == ids;
      MoveEachExactly(start, writable, ids, input);
      r := Ok(out);
    }

    /** One story not seen before: its project must be the first one's and take writes. */
    method MoveStory(
        id: int, w: MoveInput, project: Option<int>, ghost input: MoveInput, ghost moved: seq<int>, ghost out: Answer)
      returns (fixedProject: Option<int>, done: bool, ghost now: seq<int>)
      requires w == ChainWhere(input, moved)
      modifies service
      ensures MoveItem(Bulk(old(service.State()), project, moved, out), writable, id, input) ==
              Bulk(service.State(), fixedProject, now, Added(out, Outcome(id, done)))
      ensures now == if done then moved + [id] else moved
    {
      fixedProject, done, now := project, false, moved;
      if id < 1 || id !in service.stories || service.stories[id].project !in writable { return; }
      var owner := service.stories[id].project;
      if project.Some? && project.value != owner { return; }
      fixedProject := Some(owner);
      var res := service.Move(id, w);
      if res.Ok? {
        done, now := true, moved + [id];
      }
    }

    /** Item i's blockers, with the earlier items it names resolved to their ids. */
    method LinkItem(i: nat, item: Item, created: seq<Option<int>>) returns (r: Result<seq<int>>)
      ensures r == ItemBlockers(i, item, created)
    {
      var links := item.blockedByItems;
      var ids := item.input.blockedBy;
      for n := 0 to |links|
        invariant forall m | 0 <= m < n :: 0 <= links[m] < i && links[m] < |created| && created[links[m]].Some?
        invariant |ids| == |item.input.blockedBy| + n && ids[..|item.input.blockedBy|] == item.input.blockedBy
        invariant forall m | 0 <= m < n :: ids[|item.input.blockedBy| + m] == created[links[m]].value
      {
        var j := links[n];
        assert j in links;
        if j < 0 || j >= i || j >= |created| || created[j].None? { return Err(Invalid); }
        ids := ids + [created[j].value];
      }
      assert forall j | j in links :: 0 <= j < i && j < |created| && created[j].Some?;
      assert ItemBlockers(i, item, created).Ok? && ids == ItemBlockers(i, item, created).value;
      r := Ok(ids);
    }

    /** Creates each story on its own, right after the last one created; `keys`
        are the ids the table hands out. */
    method CreateStories(project: int, actor: int, wanted: Option<Section>, items: seq<Item>, keys: seq<int>)
      returns (r: Result<Answer>)
      requires |keys| == |items|
      modifies service
      ensures var section := if wanted.Some? then wanted.value else Icebox;
              if |items| == 0 || |items| > 50 || section == Done || project !in writable then
                r.Err? && service.State() == old(service.State())
              else
                var c := CreateEach(old(service.State()), project, actor, section, items, keys);
                r == Ok(c.answer) && service.State() == c.db
    {
      var section := if wanted.Some? then wanted.value else Icebox;
      if |items| == 0 || |items| > MAX_BULK || section == Done { return Err(Invalid); }
      if project !in writable { return Err(NotFound); }
      ghost var start, done := service.State(), [];
      var out := NO_ANSWER;
      var created: seq<Option<int>> := [];
      var after: Option<int> := None;
      for i := 0 to |items|
        invariant CreateEach(start, project, actor, section, items[..i], keys[..i]) == Creation(service.State(), created, done, out)
        invariant after == if done == [] then None else Some(done[|done| - 1])
      {
        assert items[..i + 1][..i] == items[..i] && keys[..i + 1][..i] == keys[..i];
        ghost var was := Creation(service.State(), created, done, out);
        var made := CreateStory(i, items[i], keys[i], project, actor, section, created, after, was);
        out := Added(out, if made then Outcome(keys[i], true) else NOT_CREATED);
        created := created + [if made then Some(keys[i]) else None];
        if made {
          after := Some(keys[i]);
          done := done + [keys[i]];
        }
      }
      assert items[..|items|] == items && keys[..|items|] == keys;
      r := Ok(out);
    }

    /** One item: its links resolved, then created right after the last one. */
    method CreateStory(
        i: nat, item: Item, key: int, project: int, actor: int, section: Section, created: seq<Option<int>>, after: Option<int>,
        ghost c: Creation)
      returns (made: bool)
      requires c.db == service.State() && c.created == created
      requires after == if c.done == [] then None else Some(c.done[|c.done| - 1])
      modifies service
      ensures CreateItem(c, i, item, key, project, actor, section) ==
                if made then Creation(service.State(), created + [Some(key)], c.done + [key], Added(c.answer, Outcome(key, true)))
                else c.(created := created + [None], answer := Added(c.answer, NOT_CREATED))
      ensures !made ==> service.State() == c.db
    {
      var blockedBy := LinkItem(i, item, created);
      if blockedBy.Err? { return false; }
      var res := service.Create(
        key, project, actor, item.input.(section := Some(section), blockedBy := blockedBy.value, after := after));
      made := res.Ok?;
    }
  }
}
