/** Which items of a bulk move succeed, item by item, and what it makes of every row
    (internal/mcpserver/tools.go). */
module StoryOutcomes {
  import opened Sequences
  import opened States
  import opened StoryModel
  import opened StoryOrder
  import opened StoryBulk
  import opened StoryEffects

  // ----- what each item asks for, read off the request and the store before it -----

  predicate Found(db: Db, writable: set<int>, id: int) {
    id > 0 && id in db.stories && db.stories[id].project in writable
  }

  /** The project of the first id that is found. */
  function FirstProject(db: Db, writable: set<int>, ids: seq<int>): Option<int> {
    if ids == [] then None
    else if Found(db, writable, ids[0]) then Some(db.stories[ids[0]].project)
    else FirstProject(db, writable, ids[1..])
  }

  /** The drop point is an end of the panel, or next to a story it shows. */
  ghost predicate DropShown(db: Db, key: Key, input: MoveInput) {
    var panel := Panel(db.stories, key);
    if input.prev.Some? then input.prev.value in panel else input.next.Some? ==> input.next.value in panel
  }

  /** Item `i` is not named before, found, of the first project, may be dragged there, and
      the drop point is shown. What the other items do is no part of it. */
  ghost predicate Moves(db: Db, writable: set<int>, ids: seq<int>, i: nat, input: MoveInput)
    requires i < |ids|
  {
    var id := ids[i];
    && id !in ids[..i] && Found(db, writable, id)
    && FirstProject(db, writable, ids) == Some(db.stories[id].project)
    && MayDrag(db.stories[id], input.section)
    && DropShown(db, Key(db.stories[id].project, input.section), input)
  }

  lemma {:induction false} FirstProjectGrows(db: Db, writable: set<int>, ids: seq<int>, id: int)
    ensures FirstProject(db, writable, ids + [id]) ==
            if FirstProject(db, writable, ids).Some? then FirstProject(db, writable, ids)
            else if Found(db, writable, id) then Some(db.stories[id].project) else None
  {
    if ids != [] {
      assert (ids + [id])[1..] == ids[1..] + [id];
      FirstProjectGrows(db, writable, ids[1..], id);
    } else {
      assert (ids + [id])[1..] == [];
    }
  }

  lemma {:induction false} FirstProjectSettled(db: Db, writable: set<int>, ids: seq<int>, n: nat)
    requires n <= |ids| && FirstProject(db, writable, ids[..n]).Some?
    ensures FirstProject(db, writable, ids) == FirstProject(db, writable, ids[..n])
    decreases |ids| - n
  {
    if n < |ids| {
      assert ids[..n + 1] == ids[..n] + [ids[n]];
      FirstProjectGrows(db, writable, ids[..n], ids[n]);
      FirstProjectSettled(db, writable, ids, n + 1);
    } else {
      assert ids[..n] == ids;
    }
  }

  // ----- what the chain keeps true on the way -----

  /** Rows are the ones before, the moved ones dragged; positions aside. */
  ghost predicate RowsDragged(db: Db, b: Bulk, section: Section) {
    && b.db.stories.Keys == db.stories.Keys
    && forall x | x in db.stories ::
         b.db.stories[x] == db.stories[x].(
           position := b.db.stories[x].position, state := if x in b.done then Dragged(db.stories[x].state, section) else db.stories[x].state)
  }

  ghost predicate OnTheWay(db: Db, writable: set<int>, ids: seq<int>, input: MoveInput, b: Bulk) {
    && b.project == FirstProject(db, writable, ids)
    && RowsDragged(db, b, input.section)
    && b.db.projects == db.projects && b.db.users == db.users && b.db.blockers == db.blockers
    && (forall x | x in b.done :: x in ids)
    && (b.done == [] ==> b.db == db)
    && (b.done != [] ==> b.project.Some? && DropShown(db, Key(b.project.value, input.section), input))
  }

  /** Whether the next id moves. */
  ghost predicate Joins(db: Db, writable: set<int>, ids: seq<int>, id: int, input: MoveInput) {
    && Found(db, writable, id) && FirstProject(db, writable, ids + [id]) == Some(db.stories[id].project)
    && MayDrag(db.stories[id], input.section) && DropShown(db, Key(db.stories[id].project, input.section), input)
  }

  /** The last story moved is shown in the panel, to be followed by the next. */
  lemma LastMovedShown(db: Db, writable: set<int>, ids: seq<int>, input: MoveInput)
    requires var b := MoveEach(db, writable, ids, input); b.done != [] && b.project.Some?
    requires !TargetMoving(ids, input)
    ensures var b := MoveEach(db, writable, ids, input);
            b.done[|b.done| - 1] in Panel(b.db.stories, Key(b.project.value, input.section))
  {
    var b := MoveEach(db, writable, ids, input);
    var key := Key(b.project.value, input.section);
    MoveEachBlock(db, writable, ids, input, key);
    LastIsShown(Panel(db.stories, key), CutAt(Panel(db.stories, key), input), b.done);
  }

  /** The neighbour the next move goes by is there if and only if the drop point was shown at first. */
  lemma NextHasNeighbour(db: Db, writable: set<int>, ids: seq<int>, id: int, input: MoveInput)
    requires OnTheWay(db, writable, ids, input, MoveEach(db, writable, ids, input))
    requires id !in ids && !TargetMoving(ids + [id], input) && Found(db, writable, id)
    requires FirstProject(db, writable, ids + [id]) == Some(db.stories[id].project)
    ensures var b := MoveEach(db, writable, ids, input);
            var w, key := ChainWhere(input, b.done), Key(db.stories[id].project, input.section);
            NeighbourShown(Panel(b.db.stories, key), id, w.prev, w.next) <==> DropShown(db, key, input)
  {
    var b := MoveEach(db, writable, ids, input);
    FirstProjectGrows(db, writable, ids, id);
    forall x | x in ids ensures x in ids + [id] {
    }
    assert !TargetMoving(ids, input);
    if b.done != [] {
      LastMovedShown(db, writable, ids, input);
      assert b.done[|b.done| - 1] in b.done;
    } else {
      assert id in ids + [id];
    }
  }

  lemma ItemMoves(db: Db, writable: set<int>, ids: seq<int>, id: int, input: MoveInput)
    requires OnTheWay(db, writable, ids, input, MoveEach(db, writable, ids, input))
    requires id !in ids && !TargetMoving(ids + [id], input)
    ensures var b := MoveEach(db, writable, ids, input);
            var c, ok := MoveItem(b, writable, id, input), Joins(db, writable, ids, id, input);
            && c.answer == Added(b.answer, Outcome(id, ok)) && c.done == (if ok then b.done + [id] else b.done)
            && c.project == FirstProject(db, writable, ids + [id])
            && (!ok ==> c.db == b.db)
            && (ok ==> MoveKeepsRows(b.db, c.db, id, input.section))
  {
    var b := MoveEach(db, writable, ids, input);
    FirstProjectGrows(db, writable, ids, id);
    assert id !in b.done;
    if Found(db, writable, id) && FirstProject(db, writable, ids + [id]) == Some(db.stories[id].project) {
      NextHasNeighbour(db, writable, ids, id, input);
      MoveExactly(b.db, id, ChainWhere(input, b.done));
      assert MayDrag(b.db.stories[id], input.section) <==> MayDrag(db.stories[id], input.section);
    }
  }

  lemma StaysOnTheWay(db: Db, writable: set<int>, ids: seq<int>, id: int, input: MoveInput, b: Bulk, c: Bulk)
    requires OnTheWay(db, writable, ids, input, b) && id !in ids
    requires c.project == FirstProject(db, writable, ids + [id])
    requires c == b.(project := c.project, answer := c.answer) ||
             (Joins(db, writable, ids, id, input) && c.done == b.done + [id] && id in b.db.stories &&
              MoveKeepsRows(b.db, c.db, id, input.section))
    ensures OnTheWay(db, writable, ids + [id], input, c)
  {
    FirstProjectGrows(db, writable, ids, id);
    if c.done != b.done {
      assert id !in b.done;
      forall x | x in db.stories
        ensures c.db.stories[x] == db.stories[x].(
                  position := c.db.stories[x].position, state := if x in c.done then Dragged(db.stories[x].state, input.section) else db.stories[x].state)
      {
        assert x in c.done <==> x in b.done || x == id;
      }
    }
  }

  lemma {:induction false} EachOnTheWay(db: Db, writable: set<int>, ids: seq<int>, input: MoveInput)
    requires !TargetMoving(ids, input)
    ensures OnTheWay(db, writable, ids, input, MoveEach(db, writable, ids, input))
  {
    if ids != [] {
      var most, id := ids[..|ids| - 1], ids[|ids| - 1];
      assert ids == most + [id];
      assert forall x | x in most :: x in ids;
      EachOnTheWay(db, writable, most, input);
      var b, c := MoveEach(db, writable, most, input), MoveEach(db, writable, ids, input);
      if id !in most {
        ItemMoves(db, writable, most, id, input);
        StaysOnTheWay(db, writable, most, id, input, b, c);
      } else {
        RepeatedSettles(db, writable, most, id);
      }
    }
  }

  /** An id named again decides nothing. */
  lemma {:induction false} RepeatedSettles(db: Db, writable: set<int>, ids: seq<int>, id: int)
    requires id in ids
    ensures FirstProject(db, writable, ids + [id]) == FirstProject(db, writable, ids)
  {
    FirstProjectGrows(db, writable, ids, id);
    if Found(db, writable, id) {
      var n :| 0 <= n < |ids| && ids[n] == id;
      FirstProjectGrows(db, writable, ids[..n], id);
      assert ids[..n + 1] == ids[..n] + [id];
      FirstProjectSettled(db, writable, ids, n + 1);
    }
  }

  // ----- the main result -----

  lemma {:induction false} ResultsSoFar(db: Db, writable: set<int>, ids: seq<int>, n: nat, input: MoveInput)
    requires n <= |ids| && !TargetMoving(ids, input)
    ensures MoveEach(db, writable, ids[..n], input).answer.results == Told(db, writable, ids, n, input)
  {
    if n > 0 {
      ResultsSoFar(db, writable, ids, n - 1, input);
      NthResult(db, writable, ids, n - 1, input);
      assert Told(db, writable, ids, n, input) ==
             Told(db, writable, ids, n - 1, input) + [Outcome(ids[n - 1], Moves(db, writable, ids, n - 1, input))];
    } else {
      assert ids[..0] == [];
    }
  }

  ghost function Told(db: Db, writable: set<int>, ids: seq<int>, n: nat, input: MoveInput): seq<Outcome>
    requires n <= |ids|
  {
    seq(n, i requires 0 <= i < n => Outcome(ids[i], Moves(db, writable, ids, i, input)))
  }

  lemma NthResult(db: Db, writable: set<int>, ids: seq<int>, n: nat, input: MoveInput)
    requires n < |ids| && !TargetMoving(ids, input)
    ensures MoveEach(db, writable, ids[..n + 1], input).answer ==
            Added(MoveEach(db, writable, ids[..n], input).answer, Outcome(ids[n], Moves(db, writable, ids, n, input)))
  {
    var most, id := ids[..n], ids[n];
    assert ids[..n + 1][..n] == most && ids[..n + 1] == most + [id];
    forall x | x in most + [id] ensures x in ids {
    }
    if id !in most {
      EachOnTheWay(db, writable, most, input);
      ItemMoves(db, writable, most, id, input);
      FirstProjectGrows(db, writable, most, id);
      if Found(db, writable, id) {
        FirstProjectSettled(db, writable, ids, n + 1);
      }
    }
  }

  /** A bulk move reports item `i` as done if and only if `Moves` says so, and then its state
      is dragged; every other row keeps all but its position. */
  lemma MoveEachExactly(db: Db, writable: set<int>, ids: seq<int>, input: MoveInput)
    requires !TargetMoving(ids, input)
    ensures var b := MoveEach(db, writable, ids, input);
            && |b.answer.results| == |ids|
            && (forall i | 0 <= i < |ids| :: b.answer.results[i] == Outcome(ids[i], Moves(db, writable, ids, i, input)))
            && Succeeded(b.answer.results) == b.done && RowsDragged(db, b, input.section)
            && b.project == FirstProject(db, writable, ids)
            && b.db.projects == db.projects && b.db.users == db.users && b.db.blockers == db.blockers
  {
    assert ids[..|ids|] == ids;
    ResultsSoFar(db, writable, ids, |ids|, input);
    EachOnTheWay(db, writable, ids, input);
    MoveEachAnswers(db, writable, ids, input);
  }

  lemma {:induction false} AllSucceeded(results: seq<Outcome>, ids: seq<int>)
    requires |results| == |ids| && forall i | 0 <= i < |ids| :: results[i] == Outcome(ids[i], true)
    ensures Succeeded(results) == ids
  {
    if ids != [] {
      AllSucceeded(results[..|results| - 1], ids[..|ids| - 1]);
      assert ids == ids[..|ids| - 1] + [ids[|ids| - 1]];
    }
  }

  /** If all may move, all do: different stories of one writable project, each of which may be
      dragged there, and a drop point that is shown. */
  lemma AllMove(db: Db, writable: set<int>, ids: seq<int>, project: int, input: MoveInput)
    requires !TargetMoving(ids, input) && NoDup(ids) && DropShown(db, Key(project, input.section), input)
    requires forall id | id in ids ::
               Found(db, writable, id) && db.stories[id].project == project && MayDrag(db.stories[id], input.section)
    ensures var b := MoveEach(db, writable, ids, input); b.done == ids && b.answer.failed == 0
  {
    MoveEachExactly(db, writable, ids, input);
    var b := MoveEach(db, writable, ids, input);
    forall i | 0 <= i < |ids| ensures Moves(db, writable, ids, i, input) {
      assert ids[i] in ids && ids[0] in ids;
      assert ids[i] !in ids[..i];
    }
    AllSucceeded(b.answer.results, ids);
    MoveEachAnswers(db, writable, ids, input);
  }
}
