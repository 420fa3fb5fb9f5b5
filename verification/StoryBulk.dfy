/**
  Bulk moves and bulk creation: chains of single transactions
  (internal/story/story.go, internal/mcpserver/tools.go). However many of the
  items fail, the ones that succeed end up side by side, in the given order, at
  the drop point, and all other stories keep their order.
 */
module StoryBulk {
  import opened Sequences
  import opened Ordering
  import opened States
  import opened StoryModel
  import opened StoryOrder
  import StoryPlacement

  // ----- the block a chain builds -----

  /** Where a drop point cuts a panel: everything before the block, and after it. */
  function CutAt(panel: seq<int>, input: MoveInput): (k: int)
    ensures 0 <= k <= |panel|
  {
    if input.prev.Some? then IndexOf(panel, input.prev.value) + 1
    else if input.next.Some? && input.next.value in panel then IndexOf(panel, input.next.value)
    else 0
  }

  function Block(panel: seq<int>, cut: int, done: seq<int>): seq<int>
    requires 0 <= cut <= |panel|
  {
    var gone := set x | x in done;
    Minus(panel[..cut], gone) + done + Minus(panel[cut..], gone)
  }

  /** The panels after the stories `done` were placed as one block at `cut`. */
  ghost predicate Blocked(before: map<int, Story>, after: map<int, Story>, key: Key, cut: int, done: seq<int>) {
    var gone := set x | x in done;
    && 0 <= cut <= |Panel(before, key)|
    && Panel(after, key) == Block(Panel(before, key), cut, done)
    && forall other: Key | other != key :: Panel(after, other) == Minus(Panel(before, other), gone)
  }

  /** What the n-th item of a chain asks for: the caller's drop point for the
      first story placed, right after the previous one for every other. */
  function ChainWhere(input: MoveInput, done: seq<int>): MoveInput {
    if done == [] then input else MoveInput(input.section, Some(done[|done| - 1]), None)
  }

  predicate TargetMoving(ids: seq<int>, input: MoveInput) {
    (input.prev.Some? && input.prev.value in ids) || (input.next.Some? && input.next.value in ids)
  }

  lemma BlockWithout(panel: seq<int>, cut: int, done: seq<int>, id: int)
    requires 0 <= cut <= |panel| && id !in done
    ensures Minus(Block(panel, cut, done), {id}) ==
            var gone := (set x | x in done) + {id};
            Minus(panel[..cut], gone) + done + Minus(panel[cut..], gone)
  {
    var gone := set x | x in done;
    var a, c := Minus(panel[..cut], gone), Minus(panel[cut..], gone);
    MinusTwice(panel[..cut], gone, {id});
    MinusTwice(panel[cut..], gone, {id});
    MinusNothing(done, {id});
    MinusAppend(a, done, {id});
    MinusAppend(a + done, c, {id});
  }

  lemma MinusKeepsLast(s: seq<int>, gone: set<int>)
    requires s != [] && s[|s| - 1] !in gone
    ensures var t := Minus(s, gone); t != [] && t[|t| - 1] == s[|s| - 1]
  {
  }

  lemma {:induction false} MinusKeepsFirst(s: seq<int>, gone: set<int>)
    requires s != [] && s[0] !in gone
    ensures var t := Minus(s, gone); t != [] && t[0] == s[0]
  {
    if |s| > 1 {
      MinusKeepsFirst(s[..|s| - 1], gone);
    }
  }

  lemma {:induction false} IndexInSplit(a: seq<int>, x: int, b: seq<int>)
    requires x !in a
    ensures IndexOf(a + [x] + b, x) == |a|
  {
    var s := a + [x] + b;
    if a != [] {
      assert s[1..] == a[1..] + [x] + b;
      IndexInSplit(a[1..], x, b);
    }
  }

  /** Right behind the last story of the block. */
  lemma IndexBehindBlock(a: seq<int>, done: seq<int>, c: seq<int>)
    requires done != [] && NoDup(done) && done[|done| - 1] !in a
    ensures IndexOf(a + done + c, done[|done| - 1]) == |a| + |done| - 1
  {
    var most, last := done[..|done| - 1], done[|done| - 1];
    assert a + done + c == (a + most) + [last] + c;
    assert last !in most;
    IndexInSplit(a + most, last, c);
  }

  /** Right behind `prev`, which no story of the chain displaces. */
  lemma IndexBehindPrev(p: seq<int>, c: seq<int>, gone: set<int>, prev: int)
    requires NoDup(p) && p != [] && p[|p| - 1] == prev && prev !in gone
    ensures Minus(p, gone) != [] && IndexOf(Minus(p, gone) + c, prev) == |Minus(p, gone)| - 1
  {
    var a := Minus(p, gone);
    MinusKeepsLast(p, gone);
    MinusKeepsOnce(p, gone);
    assert a + c == a[..|a| - 1] + [prev] + c;
    IndexInSplit(a[..|a| - 1], prev, c);
  }

  /** Right before `next`. */
  lemma IndexBeforeNext(a: seq<int>, q: seq<int>, gone: set<int>, next: int)
    requires q != [] && q[0] == next && next !in gone && next !in a
    ensures IndexOf(a + Minus(q, gone), next) == |a|
  {
    var c := Minus(q, gone);
    MinusKeepsFirst(q, gone);
    assert a + c == a + [c[0]] + c[1..];
    IndexInSplit(a, c[0], c[1..]);
  }

  /** The index of the next placement is right behind the block built so far. */
  lemma ChainIndex(panel: seq<int>, input: MoveInput, done: seq<int>, id: int)
    requires NoDup(panel) && NoDup(done) && id !in done
    requires !TargetMoving(done + [id], input)
    ensures var gone := (set x | x in done) + {id};
            var cut, w := CutAt(panel, input), ChainWhere(input, done);
            var a := Minus(panel[..cut], gone);
            var k := IndexFor(a + done + Minus(panel[cut..], gone), Where(w.prev, w.next, false));
            k.Some? ==> k.value == |a| + |done|
  {
    var gone := (set x | x in done) + {id};
    var cut := CutAt(panel, input);
    var a, c := Minus(panel[..cut], gone), Minus(panel[cut..], gone);
    if done != [] {
      MinusMembers(panel[..cut], gone);
      MinusMembers(panel[cut..], gone);
      assert done[|done| - 1] in done;
      IndexBehindBlock(a, done, c);
    } else {
      assert a + done + c == a + c;
      FirstIndex(panel, input, gone);
    }
  }

  /** Where the first story of a chain goes. */
  lemma FirstIndex(panel: seq<int>, input: MoveInput, gone: set<int>)
    requires NoDup(panel)
    requires input.prev.Some? ==> input.prev.value !in gone
    requires input.next.Some? ==> input.next.value !in gone
    ensures var cut := CutAt(panel, input);
            var a := Minus(panel[..cut], gone);
            var k := IndexFor(a + Minus(panel[cut..], gone), Where(input.prev, input.next, false));
            k.Some? ==> k.value == |a|
  {
    var cut := CutAt(panel, input);
    var p, q := panel[..cut], panel[cut..];
    var a, c := Minus(p, gone), Minus(q, gone);
    MinusMembers(p, gone);
    MinusMembers(q, gone);
    assert forall x :: x in a + c ==> x in panel by { assert panel == p + q; }
    if input.prev.Some? {
      if input.prev.value in panel { IndexBehindPrev(p, c, gone, input.prev.value); }
    } else if input.next.Some? && input.next.value in panel {
      assert input.next.value !in p;
      IndexBeforeNext(a, q, gone, input.next.value);
    }
  }

  lemma {:induction false} MinusKeepsOnce(s: seq<int>, gone: set<int>)
    requires NoDup(s)
    ensures NoDup(Minus(s, gone))
  {
    if s != [] {
      MinusKeepsOnce(s[..|s| - 1], gone);
      MinusMembers(s[..|s| - 1], gone);
      assert s[|s| - 1] !in s[..|s| - 1];
    }
  }

  lemma BlockGrows(panel: seq<int>, cut: int, done: seq<int>, id: int)
    requires 0 <= cut <= |panel| && id !in done
    ensures var rows := Minus(Block(panel, cut, done), {id});
            var k := |Minus(panel[..cut], (set x | x in done) + {id})| + |done|;
            k <= |rows| && InsertAt(rows, k, id) == Block(panel, cut, done + [id])
  {
    var gone := (set x | x in done) + {id};
    var a, c := Minus(panel[..cut], gone), Minus(panel[cut..], gone);
    BlockWithout(panel, cut, done, id);
    assert (set x | x in done + [id]) == gone;
    assert InsertAt(a + done + c, |a| + |done|, id) == a + (done + [id]) + c;
  }

  /** On plain lists: taking the story out and putting it in where the request
      says extends the block. */
  lemma BlockTakesIn(panel: seq<int>, input: MoveInput, done: seq<int>, id: int, rows: seq<int>, k: nat)
    requires NoDup(panel) && NoDup(done) && id !in done && !TargetMoving(done + [id], input)
    requires rows == Minus(Block(panel, CutAt(panel, input), done), {id})
    requires var w := ChainWhere(input, done); IndexFor(rows, Where(w.prev, w.next, false)) == Some(k)
    ensures k <= |rows| && InsertAt(rows, k, id) == Block(panel, CutAt(panel, input), done + [id])
  {
    BlockWithout(panel, CutAt(panel, input), done, id);
    ChainIndex(panel, input, done, id);
    BlockGrows(panel, CutAt(panel, input), done, id);
  }

  lemma PanelNoDup(stories: map<int, Story>, key: Key)
    ensures NoDup(Panel(stories, key))
  {
    DisplayNoDup(ScopeOf(stories, key), Panel(stories, key));
  }

  /** One more story joins the block. */
  lemma ChainStep(start: map<int, Story>, db: Db, key: Key, input: MoveInput, done: seq<int>, id: int)
    requires Blocked(start, db.stories, key, CutAt(Panel(start, key), input), done)
    requires NoDup(done) && id !in done && !TargetMoving(done + [id], input)
    requires id in db.stories && db.stories[id].project == key.project && input.section == key.section
    requires MoveTx(db, id, ChainWhere(input, done)).Ok?
    ensures var after := MoveTx(db, id, ChainWhere(input, done)).value.db.stories;
            Blocked(start, after, key, CutAt(Panel(start, key), input), done + [id])
  {
    var w := ChainWhere(input, done);
    var after := MoveTx(db, id, w).value.db.stories;
    MoveOrder(db, id, w);
    PlacedJoins(start, db.stories, after, key, input, done, id);
  }

  lemma PlacedJoins(
    start: map<int, Story>, before: map<int, Story>, after: map<int, Story>, key: Key, input: MoveInput, done: seq<int>, id: int)
    requires Blocked(start, before, key, CutAt(Panel(start, key), input), done)
    requires NoDup(done) && id !in done && !TargetMoving(done + [id], input)
    requires var w := ChainWhere(input, done);
             var k := IndexFor(Minus(Panel(before, key), {id}), Where(w.prev, w.next, false));
             k.Some? && PlacedAt(before, after, key, id, k.value)
    ensures Blocked(start, after, key, CutAt(Panel(start, key), input), done + [id])
  {
    var w := ChainWhere(input, done);
    var k := IndexFor(Minus(Panel(before, key), {id}), Where(w.prev, w.next, false)).value;
    PanelNoDup(start, key);
    BlockTakesIn(Panel(start, key), input, done, id, Minus(Panel(before, key), {id}), k);
    forall other: Key | other != key ensures Panel(after, other) == Minus(Panel(start, other), set x | x in done + [id]) {
      OneMoreGone(Panel(start, other), done, id);
    }
  }

  lemma OneMoreGone(s: seq<int>, done: seq<int>, id: int)
    ensures Minus(Minus(s, set x | x in done), {id}) == Minus(s, set x | x in done + [id])
  {
    assert (set x | x in done + [id]) == (set x | x in done) + {id};
    MinusTwice(s, set x | x in done, {id});
  }

  lemma ChainStart(start: map<int, Story>, key: Key, cut: int)
    requires 0 <= cut <= |Panel(start, key)|
    ensures Blocked(start, start, key, cut, [])
  {
    EmptyBlock(Panel(start, key), cut);
    forall other: Key ensures Panel(start, other) == Minus(Panel(start, other), set x | x in []) {
      NothingTaken(Panel(start, other));
    }
  }

  lemma NothingTaken(s: seq<int>)
    ensures Minus(s, set x | x in []) == s
  {
    MinusNothing(s, set x | x in []);
  }

  lemma EmptyBlock(panel: seq<int>, cut: int)
    requires 0 <= cut <= |panel|
    ensures Block(panel, cut, []) == panel
  {
    NothingTaken(panel[..cut]);
    NothingTaken(panel[cut..]);
    assert panel[..cut] + [] + panel[cut..] == panel;
  }

  // ----- all or nothing: MoveMany -----

  const MAX_MOVE_MANY: nat := 200

  /** The stories named once each, moved one after the other; the first refusal refuses all. */
  ghost function MoveChain(db: Db, ids: seq<int>, project: int, input: MoveInput): Result<Db> {
    if ids == [] then Ok(db)
    else
      var most, id := ids[..|ids| - 1], ids[|ids| - 1];
      var db1 :- MoveChain(db, most, project, input);
      if id in most then Ok(db1) else ChainItem(db1, id, project, ChainWhere(input, Distinct(most)))
  }

  ghost function ChainItem(db: Db, id: int, project: int, w: MoveInput): Result<Db> {
    if id !in db.stories then Err(NotFound)
    else if db.stories[id].project != project then Err(Invalid)
    else match MoveTx(db, id, w) {
      case Err(e) => Err(e)
      case Ok(res) => Ok(res.db)
    }
  }

  ghost function MoveManyTx(db: Db, ids: seq<int>, input: MoveInput): Result<Db> {
    if |ids| == 0 || |ids| > MAX_MOVE_MANY then Err(Invalid)
    else if !MoveTarget(input.section) then Err(Invalid)
    else if TargetMoving(ids, input) then Err(Invalid)
    else if ids[0] !in db.stories then Err(NotFound)
    else MoveChain(db, ids, db.stories[ids[0]].project, input)
  }

  /** One item further along the chain. */
  lemma ChainExtends(db: Db, ids: seq<int>, i: nat, project: int, input: MoveInput)
    requires i < |ids| && MoveChain(db, ids[..i], project, input).Ok?
    ensures var done, so := Distinct(ids[..i]), MoveChain(db, ids[..i], project, input);
            if ids[i] in done then
              Distinct(ids[..i + 1]) == done && MoveChain(db, ids[..i + 1], project, input) == so
            else
              Distinct(ids[..i + 1]) == done + [ids[i]] &&
              MoveChain(db, ids[..i + 1], project, input) == ChainItem(so.value, ids[i], project, ChainWhere(input, done))
  {
    assert ids[..i + 1][..i] == ids[..i];
    DistinctMembers(ids[..i]);
  }

  /** A refusal part of the way is the answer to the whole chain. */
  lemma {:induction false} MoveChainRefused(db: Db, ids: seq<int>, i: nat, project: int, input: MoveInput)
    requires i <= |ids| && MoveChain(db, ids[..i], project, input).Err?
    ensures MoveChain(db, ids, project, input) == MoveChain(db, ids[..i], project, input)
  {
    if i == |ids| {
      assert ids[..i] == ids;
    } else {
      assert ids[..|ids| - 1][..i] == ids[..i];
      MoveChainRefused(db, ids[..|ids| - 1], i, project, input);
    }
  }

  lemma {:induction false} MoveChainBlock(db: Db, ids: seq<int>, project: int, input: MoveInput)
    requires !TargetMoving(ids, input) && MoveChain(db, ids, project, input).Ok?
    ensures var key := Key(project, input.section);
            Blocked(db.stories, MoveChain(db, ids, project, input).value.stories, key, CutAt(Panel(db.stories, key), input), Distinct(ids))
  {
    var key := Key(project, input.section);
    if ids == [] {
      ChainStart(db.stories, key, CutAt(Panel(db.stories, key), input));
    } else {
      var most, id := ids[..|ids| - 1], ids[|ids| - 1];
      assert forall x | x in most :: x in ids;
      MoveChainBlock(db, most, project, input);
      DistinctMembers(most);
      if id !in most {
        assert id in ids;
        ChainStep(db.stories, MoveChain(db, most, project, input).value, key, input, Distinct(most), id);
      }
    }
  }

  /** `MoveMany` leaves the untouched stories in their old order and the moved
      ones as one block, in the given order, right after `prev`, else right
      before `next`, else at the top. A refusal changes nothing: there is no new store. */
  lemma MoveManyOrder(db: Db, ids: seq<int>, input: MoveInput)
    requires MoveManyTx(db, ids, input).Ok?
    ensures var key := Key(db.stories[ids[0]].project, input.section);
            var after := MoveManyTx(db, ids, input).value.stories;
            && Blocked(db.stories, after, key, CutAt(Panel(db.stories, key), input), Distinct(ids))
            && (input.prev.Some? ==> input.prev.value in Panel(db.stories, key))
            && (input.prev.None? && input.next.Some? ==> input.next.value in Panel(db.stories, key))
  {
    var project := db.stories[ids[0]].project;
    var key := Key(project, input.section);
    MoveChainBlock(db, ids, project, input);
    FirstOfChain(db, ids, project, input);
    MoveRefusal(db, ids[0], input);
    MinusMembers(Panel(db.stories, key), {ids[0]});
  }

  // ----- when a bulk move is accepted -----

  /** What a bulk move asks for: a sensible size and target, stories of one project that
      may all be moved there, and a neighbour that is shown. */
  ghost predicate Movable(db: Db, ids: seq<int>, input: MoveInput) {
    && 0 < |ids| <= 200 && input.section != Done
    && (input.prev.Some? ==> input.prev.value !in ids) && (input.next.Some? ==> input.next.value !in ids)
    && ids[0] in db.stories && (forall i | 0 <= i < |ids| :: MayMove(db, ids[i], db.stories[ids[0]].project, input.section))
    && var panel := Panel(db.stories, Key(db.stories[ids[0]].project, input.section));
       if input.prev.Some? then input.prev.value in panel else input.next.Some? ==> input.next.value in panel
  }

  predicate MayMove(db: Db, id: int, project: int, section: Section) {
    id in db.stories && db.stories[id].project == project && db.stories[id].deletedAt.None? && db.stories[id].state != Accepted &&
    (db.stories[id].state in {Started, Finished, Delivered, Rejected} ==> section == Current)
  }

  /** A chain changes nothing but positions of the stories it does not move. */
  lemma {:induction false} ChainFrame(db: Db, ids: seq<int>, project: int, input: MoveInput)
    requires MoveChain(db, ids, project, input).Ok?
    ensures var after := MoveChain(db, ids, project, input).value.stories;
            && after.Keys == db.stories.Keys
            && forall x | x in db.stories && x !in ids :: after[x] == db.stories[x].(position := after[x].position)
  {
    if ids != [] {
      var most, id := ids[..|ids| - 1], ids[|ids| - 1];
      ChainFrame(db, most, project, input);
      assert forall x | x in most :: x in ids;
      assert id in ids;
      if id !in most {
        var mid, w := MoveChain(db, most, project, input).value, ChainWhere(input, Distinct(most));
        MoveFrame(mid, id, w);
        StoryPlacement.PlaceCorrect(mid.stories, Key(mid.stories[id].project, w.section), id, Where(w.prev, w.next, false));
      }
    }
  }

  /** An item not moved yet is accepted exactly if it may move and, being the first, its
      neighbour is shown. */
  lemma ChainItemAccepted(db: Db, ids: seq<int>, i: nat, project: int, input: MoveInput)
    requires i < |ids| && ids[i] !in ids[..i] && MoveChain(db, ids[..i], project, input).Ok?
    requires MoveTarget(input.section) && !TargetMoving(ids, input)
    requires i > 0 ==> ids[0] in db.stories && db.stories[ids[0]].project == project
    ensures var mid, w := MoveChain(db, ids[..i], project, input).value, ChainWhere(input, Distinct(ids[..i]));
            var panel := Panel(db.stories, Key(project, input.section));
            ChainItem(mid, ids[i], project, w).Ok? <==>
              MayMove(db, ids[i], project, input.section) &&
              (i == 0 ==> if input.prev.Some? then input.prev.value in panel else input.next.Some? ==> input.next.value in panel)
  {
    var most, id := ids[..i], ids[i];
    var mid, done := MoveChain(db, most, project, input).value, Distinct(most);
    var key, w := Key(project, input.section), ChainWhere(input, done);
    ChainFrame(db, most, project, input);
    assert id in ids;
    if MayMove(db, id, project, input.section) {
      MoveRefusal(mid, id, w);
      MinusMembers(Panel(mid.stories, key), {id});
      DistinctMembers(most);
      if i > 0 {
        assert most[0] in done && done[|done| - 1] in done;
        MoveChainBlock(db, most, project, input);
        LastIsShown(Panel(db.stories, key), CutAt(Panel(db.stories, key), input), done);
        assert forall x | x in most :: x in ids;
      }
    }
  }

  lemma LastIsShown(panel: seq<int>, cut: int, done: seq<int>)
    requires 0 <= cut <= |panel| && done != []
    ensures done[|done| - 1] in Block(panel, cut, done)
  {
    var gone := set x | x in done;
    var a := Minus(panel[..cut], gone);
    assert Block(panel, cut, done)[|a| + |done| - 1] == done[|done| - 1];
  }

  lemma {:induction false} ChainAccepted(db: Db, ids: seq<int>, n: nat, input: MoveInput)
    requires Movable(db, ids, input) && n <= |ids|
    ensures MoveChain(db, ids[..n], db.stories[ids[0]].project, input).Ok?
  {
    if n > 0 {
      var project := db.stories[ids[0]].project;
      ChainAccepted(db, ids, n - 1, input);
      assert ids[..n][..n - 1] == ids[..n - 1];
      if ids[n - 1] !in ids[..n - 1] {
        ChainItemAccepted(db, ids, n - 1, project, input);
      }
    }
  }

  /** Every story of an accepted chain may be moved there. */
  lemma {:induction false} ChainMovable(db: Db, ids: seq<int>, n: nat, i: nat, input: MoveInput)
    requires ids != [] && ids[0] in db.stories && MoveTarget(input.section) && !TargetMoving(ids, input)
    requires i < n <= |ids| && MoveChain(db, ids[..n], db.stories[ids[0]].project, input).Ok?
    ensures MayMove(db, ids[i], db.stories[ids[0]].project, input.section)
    decreases n
  {
    ChainShorter(db, ids, n, input);
    if i < n - 1 {
      ChainMovable(db, ids, n - 1, i, input);
    } else if ids[i] in ids[..n - 1] {
      var j :| 0 <= j < n - 1 && ids[j] == ids[i];
      ChainMovable(db, ids, n - 1, j, input);
    } else {
      ChainItemAccepted(db, ids, n - 1, db.stories[ids[0]].project, input);
    }
  }

  lemma ChainShorter(db: Db, ids: seq<int>, n: nat, input: MoveInput)
    requires ids != [] && ids[0] in db.stories && 0 < n <= |ids|
    requires MoveChain(db, ids[..n], db.stories[ids[0]].project, input).Ok?
    ensures var project, most := db.stories[ids[0]].project, ids[..n - 1];
            && MoveChain(db, most, project, input).Ok?
            && (ids[n - 1] !in most ==>
                  ChainItem(MoveChain(db, most, project, input).value, ids[n - 1], project, ChainWhere(input, Distinct(most))).Ok?)
  {
    assert ids[..n][..n - 1] == ids[..n - 1];
  }

  /** A bulk move is accepted if and only if what it asks for is in order: nothing it
      does along the way can make a later story fail. */
  lemma MoveManyAccepted(db: Db, ids: seq<int>, input: MoveInput)
    ensures MoveManyTx(db, ids, input).Ok? <==> Movable(db, ids, input)
  {
    if MoveManyTx(db, ids, input).Ok? {
      assert ids[..|ids|] == ids;
      forall i | 0 <= i < |ids| ensures MayMove(db, ids[i], db.stories[ids[0]].project, input.section) {
        ChainMovable(db, ids, |ids|, i, input);
      }
      MoveManyOrder(db, ids, input);
    }
    if Movable(db, ids, input) {
      assert ids[0] in db.stories;
      assert ids[..|ids|] == ids;
      ChainAccepted(db, ids, |ids|, input);
    }
  }

  lemma {:induction false} FirstOfChain(db: Db, ids: seq<int>, project: int, input: MoveInput)
    requires ids != [] && MoveChain(db, ids, project, input).Ok?
    ensures MoveTx(db, ids[0], input).Ok?
  {
    var most := ids[..|ids| - 1];
    if most != [] {
      FirstOfChain(db, most, project, input);
    } else {
      assert MoveChain(db, most, project, input) == Ok(db);
    }
  }

  // ----- each on its own: move_stories -----

  const MAX_BULK: nat := 50

  /** What a bulk tool reports of one item. */
  datatype Outcome = Outcome(id: int, ok: bool)

  /** A bulk tool's answer: one outcome per item, in order, and how many went either way. */
  datatype Answer = Answer(results: seq<Outcome>, succeeded: nat, failed: nat)

  const NO_ANSWER := Answer([], 0, 0)

  function Added(a: Answer, o: Outcome): Answer {
    Answer(a.results + [o], if o.ok then a.succeeded + 1 else a.succeeded, if o.ok then a.failed else a.failed + 1)
  }

  /** The ids that succeeded, in order. */
  function Succeeded(results: seq<Outcome>): seq<int> {
    if results == [] then []
    else
      var most, last := Succeeded(results[..|results| - 1]), results[|results| - 1];
      if last.ok then most + [last.id] else most
  }

  ghost predicate AnswerOk(a: Answer) {
    a.succeeded == |Succeeded(a.results)| && a.succeeded + a.failed == |a.results|
  }

  lemma AddedCounts(a: Answer, o: Outcome)
    requires AnswerOk(a)
    ensures AnswerOk(Added(a, o))
    ensures Succeeded(Added(a, o).results) == if o.ok then Succeeded(a.results) + [o.id] else Succeeded(a.results)
  {
    assert (a.results + [o])[..|a.results|] == a.results;
  }

  /** The store, the project fixed by the first story that resolved, the stories moved
      so far, and the answer so far. */
  datatype Bulk = Bulk(db: Db, project: Option<int>, done: seq<int>, answer: Answer)

  predicate Resolves(db: Db, writable: set<int>, id: int) {
    id >= 1 && id in db.stories && db.stories[id].project in writable
  }

  /** Each story moved in its own transaction; failures are skipped. */
  ghost function MoveEach(db: Db, writable: set<int>, ids: seq<int>, input: MoveInput): Bulk {
    if ids == [] then Bulk(db, None, [], NO_ANSWER)
    else
      var most, id := ids[..|ids| - 1], ids[|ids| - 1];
      var b := MoveEach(db, writable, most, input);
      if id in most then b.(answer := Added(b.answer, Outcome(id, false)))
      else MoveItem(b, writable, id, input)
  }

  ghost function MoveItem(b: Bulk, writable: set<int>, id: int, input: MoveInput): Bulk {
    var failed := Added(b.answer, Outcome(id, false));
    if !Resolves(b.db, writable, id) then b.(answer := failed)
    else
      var project := b.db.stories[id].project;
      if b.project.Some? && b.project.value != project then b.(answer := failed)
      else match MoveTx(b.db, id, ChainWhere(input, b.done)) {
        case Err(_) => b.(project := Some(project), answer := failed)
        case Ok(res) => Bulk(res.db, Some(project), b.done + [id], Added(b.answer, Outcome(id, true)))
      }
  }

  /** The answer lists the ids given, in order; the ones it calls done are those that moved. */
  ghost predicate Tells(b: Bulk, ids: seq<int>) {
    && AnswerOk(b.answer) && Succeeded(b.answer.results) == b.done
    && |b.answer.results| == |ids| && forall i | 0 <= i < |ids| :: b.answer.results[i].id == ids[i]
  }

  lemma SkippedTells(b: Bulk, ids: seq<int>, id: int)
    requires Tells(b, ids)
    ensures Tells(b.(answer := Added(b.answer, Outcome(id, false))), ids + [id])
  {
    AddedCounts(b.answer, Outcome(id, false));
  }

  lemma MovedTells(b: Bulk, ids: seq<int>, id: int)
    requires Tells(b, ids)
    ensures Tells(b.(done := b.done + [id], answer := Added(b.answer, Outcome(id, true))), ids + [id])
  {
    AddedCounts(b.answer, Outcome(id, true));
  }

  lemma MoveItemTells(b: Bulk, writable: set<int>, ids: seq<int>, id: int, input: MoveInput)
    requires Tells(b, ids)
    ensures Tells(MoveItem(b, writable, id, input), ids + [id])
  {
    var c := MoveItem(b, writable, id, input);
    if c.done == b.done {
      SkippedTells(b, ids, id);
      assert c.answer == Added(b.answer, Outcome(id, false));
    } else {
      MovedTells(b, ids, id);
      assert c.answer == Added(b.answer, Outcome(id, true)) && c.done == b.done + [id];
    }
  }

  lemma {:induction false} MoveEachAnswers(db: Db, writable: set<int>, ids: seq<int>, input: MoveInput)
    ensures Tells(MoveEach(db, writable, ids, input), ids)
  {
    if ids != [] {
      var most, id := ids[..|ids| - 1], ids[|ids| - 1];
      assert ids == most + [id];
      MoveEachAnswers(db, writable, most, input);
      if id in most {
        SkippedTells(MoveEach(db, writable, most, input), most, id);
      } else {
        MoveItemTells(MoveEach(db, writable, most, input), writable, most, id, input);
      }
    }
  }

  lemma {:induction false} MoveEachBlock(db: Db, writable: set<int>, ids: seq<int>, input: MoveInput, key: Key)
    requires !TargetMoving(ids, input) && key.section == input.section
    requires var b := MoveEach(db, writable, ids, input); b.project.Some? ==> b.project.value == key.project
    ensures var b := MoveEach(db, writable, ids, input);
            && Blocked(db.stories, b.db.stories, key, CutAt(Panel(db.stories, key), input), b.done)
            && NoDup(b.done) && (forall x | x in b.done :: x in ids)
  {
    if ids == [] {
      ChainStart(db.stories, key, CutAt(Panel(db.stories, key), input));
    } else {
      var most, id := ids[..|ids| - 1], ids[|ids| - 1];
      assert forall x | x in most :: x in ids;
      assert id in ids;
      MoveEachBlock(db, writable, most, input, key);
      var b, b' := MoveEach(db, writable, most, input), MoveEach(db, writable, ids, input);
      if b'.done != b.done {
        assert forall x | x in b.done + [id] :: x in ids;
        ChainStep(db.stories, b.db, key, input, b.done, id);
      }
    }
  }

  /** The stories that moved are the block; every other story, failed items
      included, keeps its place in every panel and all of its row but the position. */
  lemma MoveEachOrder(db: Db, writable: set<int>, ids: seq<int>, input: MoveInput, key: Key)
    requires !TargetMoving(ids, input) && key.section == input.section
    requires var b := MoveEach(db, writable, ids, input); b.project.Some? ==> b.project.value == key.project
    ensures var b := MoveEach(db, writable, ids, input);
            && Blocked(db.stories, b.db.stories, key, CutAt(Panel(db.stories, key), input), b.done)
            && NoDup(b.done) && (forall x | x in b.done :: x in ids)
            && forall x | x in db.stories && x !in b.done ::
                 x in b.db.stories && b.db.stories[x] == db.stories[x].(position := b.db.stories[x].position)
  {
    MoveEachBlock(db, writable, ids, input, key);
    MoveEachFrame(db, writable, ids, input);
  }

  lemma {:induction false} MoveEachFrame(db: Db, writable: set<int>, ids: seq<int>, input: MoveInput)
    ensures var b := MoveEach(db, writable, ids, input);
            forall x | x in db.stories && x !in b.done ::
              x in b.db.stories && b.db.stories[x] == db.stories[x].(position := b.db.stories[x].position)
  {
    if ids != [] {
      var most, id := ids[..|ids| - 1], ids[|ids| - 1];
      MoveEachFrame(db, writable, most, input);
      var b, b' := MoveEach(db, writable, most, input), MoveEach(db, writable, ids, input);
      if b'.done != b.done {
        MoveFrame(b.db, id, ChainWhere(input, b.done));
      }
    }
  }

  lemma MoveFrame(db: Db, id: int, input: MoveInput)
    requires MoveTx(db, id, input).Ok?
    ensures var after := MoveTx(db, id, input).value.db.stories;
            forall x | x in db.stories && x != id :: x in after && after[x] == db.stories[x].(position := after[x].position)
  {
    StoryPlacement.PlaceCorrect(db.stories, Key(db.stories[id].project, input.section), id, Where(input.prev, input.next, false));
  }

  // ----- each on its own: create_stories -----

  /** An item may name earlier items, by their index, as its blockers. */
  datatype Item = Item(input: CreateInput, blockedByItems: seq<int>)

  /** Item i's blockers: the ids it names, then those created for the earlier items it names. */
  function ItemBlockers(i: nat, item: Item, created: seq<Option<int>>): Result<seq<int>> {
    if exists j | j in item.blockedByItems :: !(0 <= j < i && j < |created| && created[j].Some?) then Err(Invalid)
    else Ok(item.input.blockedBy + seq(|item.blockedByItems|, n requires 0 <= n < |item.blockedByItems| =>
              var j := item.blockedByItems[n];
              if 0 <= j < |created| && created[j].Some? then created[j].value else 0))
  }

  datatype Creation = Creation(db: Db, created: seq<Option<int>>, done: seq<int>, answer: Answer)

  /** A failed item is reported without an id. */
  const NOT_CREATED := Outcome(0, false)

  /** One item: a story created right after the last one created, or nothing. */
  ghost function CreateItem(c: Creation, n: nat, item: Item, key: int, project: int, actor: int, section: Section): Creation {
    var blockedBy := ItemBlockers(n, item, c.created);
    if blockedBy.Err? then c.(created := c.created + [None], answer := Added(c.answer, NOT_CREATED))
    else match CreateTx(c.db, key, project, actor, ItemInput(c, item, blockedBy.value, section)) {
      case Err(_) => c.(created := c.created + [None], answer := Added(c.answer, NOT_CREATED))
      case Ok(db') => Creation(db', c.created + [Some(key)], c.done + [key], Added(c.answer, Outcome(key, true)))
    }
  }

  function ItemInput(c: Creation, item: Item, blockedBy: seq<int>, section: Section): CreateInput {
    item.input.(section := Some(section), blockedBy := blockedBy,
                after := if c.done == [] then None else Some(c.done[|c.done| - 1]))
  }

  /** Each story in its own transaction; failures are skipped. */
  ghost function CreateEach(db: Db, project: int, actor: int, section: Section, items: seq<Item>, keys: seq<int>): Creation
    requires |keys| == |items|
  {
    if items == [] then Creation(db, [], [], NO_ANSWER)
    else
      var n := |items| - 1;
      CreateItem(CreateEach(db, project, actor, section, items[..n], keys[..n]), n, items[n], keys[n], project, actor, section)
  }

  /** Fresh keys: every new row gets one that is not in use. */
  ghost predicate FreshKeys(db: Db, keys: seq<int>) {
    NoDup(keys) && forall k | k in keys :: k > 0 && k !in db.stories
  }

  /** The created stories are one block on top of the icebox or at the bottom of
      the panel, and no other panel changed. */
  ghost predicate CreatedBlock(db: Db, c: Creation, key: Key) {
    && Panel(c.db.stories, key) == CreatedPanel(Panel(db.stories, key), key.section, c.done)
    && (forall other: Key | other != key :: Panel(c.db.stories, other) == Panel(db.stories, other))
    && c.db.stories.Keys == db.stories.Keys + (set x | x in c.done)
    && NoDup(c.done) && forall x | x in c.done :: x !in db.stories
  }

  function CreatedPanel(was: seq<int>, section: Section, done: seq<int>): seq<int> {
    if section == Icebox then done + was else was + done
  }

  /** Bulk creation keeps the order given, whatever items fail. */
  lemma {:induction false} CreateEachOrder(
    db: Db, project: int, actor: int, section: Section, items: seq<Item>, keys: seq<int>)
    requires |keys| == |items| && FreshKeys(db, keys) && 0 !in db.stories
    ensures var c := CreateEach(db, project, actor, section, items, keys);
            CreatedBlock(db, c, Key(project, section)) && forall x | x in c.done :: x in keys
  {
    if items != [] {
      var n := |items| - 1;
      var most := keys[..n];
      assert forall x | x in most :: x in keys;
      CreateEachOrder(db, project, actor, section, items[..n], most);
      assert keys[n] in keys && keys[n] !in most;
      var b := CreateEach(db, project, actor, section, items[..n], most);
      CreateStep(db, b, n, items[n], keys[n], project, actor, section);
    }
  }

  ghost predicate TellsCreated(c: Creation) {
    && AnswerOk(c.answer) && Succeeded(c.answer.results) == c.done && |c.answer.results| == |c.created|
    && forall i | 0 <= i < |c.created| :: c.answer.results[i] == Told(c.created[i])
  }

  function Told(created: Option<int>): Outcome {
    if created.Some? then Outcome(created.value, true) else NOT_CREATED
  }

  lemma CreateItemTells(b: Creation, n: nat, item: Item, id: int, project: int, actor: int, section: Section)
    requires TellsCreated(b)
    ensures var c := CreateItem(b, n, item, id, project, actor, section); TellsCreated(c) && |c.created| == |b.created| + 1
  {
    AddedCounts(b.answer, NOT_CREATED);
    AddedCounts(b.answer, Outcome(id, true));
  }

  /** The answer has one result per item; the ones it calls done are those created. */
  lemma {:induction false} CreateEachAnswers(
    db: Db, project: int, actor: int, section: Section, items: seq<Item>, keys: seq<int>)
    requires |keys| == |items|
    ensures var c := CreateEach(db, project, actor, section, items, keys); TellsCreated(c) && |c.created| == |items|
  {
    if items != [] {
      var n := |items| - 1;
      CreateEachAnswers(db, project, actor, section, items[..n], keys[..n]);
      CreateItemTells(CreateEach(db, project, actor, section, items[..n], keys[..n]), n, items[n], keys[n], project, actor, section);
    }
  }

  lemma CreateStep(db: Db, b: Creation, n: nat, item: Item, id: int, project: int, actor: int, section: Section)
    requires CreatedBlock(db, b, Key(project, section)) && 0 !in db.stories
    requires id > 0 && id !in db.stories && id !in b.done && 0 !in b.done
    ensures var c := CreateItem(b, n, item, id, project, actor, section);
            CreatedBlock(db, c, Key(project, section)) && (c.done == b.done || c.done == b.done + [id])
  {
    var key, c := Key(project, section), CreateItem(b, n, item, id, project, actor, section);
    if c.done != b.done {
      var input := ItemInput(b, item, ItemBlockers(n, item, b.created).value, section);
      CreateOrder(b.db, id, project, actor, input);
      CreateKeepsKeys(b.db, id, project, actor, input);
      CreatedJoins(db, b, c, key, id);
    }
  }

  function CreatedWhere(b: Creation, section: Section): Where {
    if b.done == [] then Where(None, None, section != Icebox) else Where(Some(b.done[|b.done| - 1]), None, false)
  }

  lemma CreatedJoins(db: Db, b: Creation, c: Creation, key: Key, id: int)
    requires CreatedBlock(db, b, key) && id !in db.stories && id !in b.done
    requires c.done == b.done + [id] && c.db.stories.Keys == b.db.stories.Keys + {id}
    requires var panel := Panel(b.db.stories, key);
             var k := IndexFor(panel, CreatedWhere(b, key.section));
             k.Some? && Panel(c.db.stories, key) == InsertAt(panel, k.value, id)
    requires forall other: Key | other != key :: Panel(c.db.stories, other) == Panel(b.db.stories, other)
    ensures CreatedBlock(db, c, key)
  {
    CreateIndex(db, b, key);
    CreatedGrows(Panel(db.stories, key), key.section, b.done, id);
    assert (set x | x in b.done + [id]) == (set x | x in b.done) + {id};
  }

  lemma CreatedGrows(was: seq<int>, section: Section, done: seq<int>, id: int)
    ensures var panel := CreatedPanel(was, section, done);
            InsertAt(panel, if section == Icebox then |done| else |panel|, id) == CreatedPanel(was, section, done + [id])
  {
    if section == Icebox {
      assert InsertAt(done + was, |done|, id) == (done + [id]) + was;
    } else {
      assert InsertAt(was + done, |was + done|, id) == was + (done + [id]);
    }
  }

  lemma CreateIndex(db: Db, b: Creation, key: Key)
    requires CreatedBlock(db, b, key)
    ensures var panel := Panel(b.db.stories, key);
            var k := IndexFor(panel, CreatedWhere(b, key.section));
            k.Some? && k.value == if key.section == Icebox then |b.done| else |panel|
  {
    if b.done != [] {
      assert b.done[|b.done| - 1] in b.done;
      assert forall x | x in Panel(db.stories, key) :: x in ScopeOf(db.stories, key);
      LastIndex(Panel(db.stories, key), b.done);
    }
  }

  lemma LastIndex(was: seq<int>, done: seq<int>)
    requires NoDup(done) && done != [] && done[|done| - 1] !in was
    ensures IndexOf(done + was, done[|done| - 1]) == |done| - 1
    ensures IndexOf(was + done, done[|done| - 1]) == |was + done| - 1
  {
    var most, last := done[..|done| - 1], done[|done| - 1];
    Split(was, done);
    IndexInSplit(most, last, was);
    IndexInSplit(was + most, last, []);
  }

  lemma Split(was: seq<int>, done: seq<int>)
    requires NoDup(done) && done != []
    ensures var most, last := done[..|done| - 1], done[|done| - 1];
            last !in most && done + was == most + [last] + was && was + done == (was + most) + [last] + []
  {
  }

  lemma CreateKeepsKeys(db: Db, id: int, project: int, actor: int, input: CreateInput)
    requires CreateTx(db, id, project, actor, input).Ok?
    ensures CreateTx(db, id, project, actor, input).value.stories.Keys == db.stories.Keys + {id}
  {
    StoryPlacement.PlaceCorrect(db.stories, Key(project, CreateSection(input)), 0, CreateWhere(input));
  }
}
