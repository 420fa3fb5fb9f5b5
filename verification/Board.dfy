/**
  The board's optimistic copy of the ordering engine (web/src/lib/board.ts): it
  computes positions its own way, as exact midpoints, and must show what the
  server will answer. The board's array of stories is a map from id to card.
 */
module Board {
  import opened Sequences
  import opened Ordering
  import opened States
  import opened StoryModel
  import opened StoryOrder
  import opened StoryInvariants
  import opened StoryBulk
  import opened StoryUpdates
  import opened StoryViews
  import StoryPlacement

  datatype Card = Card(section: Section, state: State, position: real)

  type Cards = map<int, Card>

  predicate Shown(c: Card, section: Section) { c.section == section && c.state != Accepted }

  function CardScope(cards: Cards, section: Section): Scope {
    map id | id in cards && Shown(cards[id], section) :: cards[id].position
  }

  /** What a panel of the board shows, top to bottom. */
  ghost function SectionStories(cards: Cards, section: Section): seq<int> {
    Order(CardScope(cards, section))
  }

  predicate CanDrop(c: Card, target: Section) {
    c.state != Accepted && (InProgress(c.state) ==> target == Current)
  }

  function Clamp(i: int, n: nat): (k: nat)
    ensures k <= n && (0 <= i <= n ==> k == i) && (i > n ==> k == n)
  {
    if i < 0 then 0 else if i > n then n else i
  }

  function At(s: seq<int>, i: int): Option<int> {
    if 0 <= i < |s| then Some(s[i]) else None
  }

  /** "Dropped at this index" as the neighbours the API expects. */
  function MoveRequest(orderedIds: seq<int>, movedId: int, section: Section, newIndex: int): MoveInput {
    var ids := Minus(orderedIds, {movedId});
    var index := Clamp(newIndex, |ids|);
    MoveInput(section, At(ids, index - 1), At(ids, index))
  }

  function BulkMoveRequest(orderedIds: seq<int>, movedIds: seq<int>, section: Section, newIndex: int): MoveInput {
    var ids := Minus(orderedIds, set x | x in movedIds);
    var index := Clamp(newIndex, |ids|);
    MoveInput(section, At(ids, index - 1), At(ids, index))
  }

  function Midpoint(prev: Option<real>, next: Option<real>): real {
    if prev.None? && next.None? then 0.0
    else if prev.None? then next.value - 1.0
    else if next.None? then prev.value + 1.0
    else (prev.value + next.value) / 2.0
  }

  function PositionOf(cards: Cards, id: Option<int>): Option<real> {
    if id.Some? && id.value in cards then Some(cards[id.value].position) else None
  }

  /** The dropped row lands instantly. */
  ghost function ApplyMove(cards: Cards, movedId: int, section: Section, newIndex: int): Cards {
    if movedId !in cards || !CanDrop(cards[movedId], section) then cards
    else
      var target := Minus(SectionStories(cards, section), {movedId});
      var index := Clamp(newIndex, |target|);
      var position := Midpoint(PositionOf(cards, At(target, index - 1)), PositionOf(cards, At(target, index)));
      var c := cards[movedId];
      cards[movedId := Card(section, if c.section == section then c.state else EntryState(section), position)]
  }

  function MaxPosition(cards: Cards, ids: seq<int>): real {
    if ids == [] then 0.0
    else
      var rest, last := MaxPosition(cards, ids[..|ids| - 1]), PositionOf(cards, Some(ids[|ids| - 1]));
      if last.Some? && last.value > rest then last.value else rest
  }

  /** The workflow button acts instantly; a story taken from the icebox or
      the backlog lands below everything planned for now. */
  ghost function ApplyState(cards: Cards, id: int, state: State): Cards {
    if id !in cards then cards
    else
      var c := cards[id];
      var section := if InProgress(state) || state == Accepted then Current else c.section;
      var position := if section == c.section then c.position else MaxPosition(cards, SectionStories(cards, Current)) + 1.0;
      cards[id := Card(section, state, position)]
  }

  /** The workflow buttons of a row. */
  function NextActions(s: State): set<State> {
    match s
    case InIcebox => {Started}
    case InBacklog => {Started}
    case Unstarted => {Started}
    case Started => {Finished}
    case Finished => {Delivered}
    case Delivered => {Accepted, Rejected}
    case Rejected => {Started}
    case Accepted => {}
  }

  /** The buttons are the workflow's steps into work, less the way back from finished and the
      reopening of accepted stories. */
  lemma ActionsOffered(s: State, to: State)
    ensures to in NextActions(s) <==>
            CanTransition(s, to) && Working(to) && s != Accepted && !(s == Finished && to == Started)
  {
  }

  // ----- agreement with the server -----

  /** The board shows this store: the default list of the project, loaded at `start`. */
  ghost predicate Mirrors(db: Db, project: int, start: int, cards: Cards) {
    && (forall id :: id in cards <==> id in db.stories && OnBoard(db.stories[id], project, start))
    && forall id | id in cards ::
         cards[id] == Card(SectionIn(db.stories[id], start), db.stories[id].state, db.stories[id].position as real)
  }

  /** The same panels in the same order. */
  ghost predicate SameBoard(cards: Cards, stories: map<int, Story>, project: int) {
    forall section | section != Done :: SectionStories(cards, section) == Panel(stories, Key(project, section))
  }

  lemma MirrorScope(db: Db, project: int, start: int, cards: Cards, section: Section)
    requires Inv(db) && Mirrors(db, project, start, cards) && section != Done
    ensures CardScope(cards, section) == ScopeOf(db.stories, Key(project, section))
  {
    var key := Key(project, section);
    var m, n := CardScope(cards, section), ScopeOf(db.stories, key);
    forall id ensures id in m <==> id in n {
      assert id in cards <==> id in db.stories && OnBoard(db.stories[id], project, start);
      if id in db.stories {
        assert RowOk(db.projects, db.stories[id]);
        ScopesPartition(db.stories[id].state, section);
      }
    }
    forall id | id in m ensures m[id] == n[id] {
      assert id in cards;
    }
  }

  lemma MirrorShowsBoard(db: Db, project: int, start: int, cards: Cards)
    requires Inv(db) && Mirrors(db, project, start, cards)
    ensures SameBoard(cards, db.stories, project)
  {
    forall section | section != Done ensures SectionStories(cards, section) == Panel(db.stories, Key(project, section)) {
      MirrorScope(db, project, start, cards, section);
    }
  }

  /** The neighbours at the drop index share a position. The server rebalances
      then; the browser's midpoint is a tie that only ids break. */
  predicate Tied(cards: Cards, rows: seq<int>, k: nat) {
    0 < k < |rows| && rows[k - 1] in cards && rows[k] in cards && cards[rows[k - 1]].position == cards[rows[k]].position
  }

  /** An exact midpoint shows the story at its index exactly when the neighbours'
      positions differ or the ids happen to fall in order. */
  lemma MidpointOrder(m: Scope, cards: Cards, rows: seq<int>, k: nat, id: int)
    requires Displays(m, rows) && id !in m && k <= |rows|
    requires forall x | x in m :: x in cards && cards[x].position == m[x]
    ensures var v := Midpoint(PositionOf(cards, At(rows, k - 1)), PositionOf(cards, At(rows, k)));
            Order(m[id := v]) == InsertAt(rows, k, id) <==> (Tied(cards, rows, k) ==> rows[k - 1] < id < rows[k])
  {
    var v := Midpoint(PositionOf(cards, At(rows, k - 1)), PositionOf(cards, At(rows, k)));
    var m' := m[id := v];
    forall i | 0 <= i < |rows| ensures rows[i] in m { DisplayMember(m, rows, i); }
    if k > 0 { PositionIs(m, cards, rows[k - 1]); }
    if k < |rows| { PositionIs(m, cards, rows[k]); }
    if 0 < k < |rows| { assert Before(m, rows[k - 1], rows[k]); }
    if Tied(cards, rows, k) {
      if rows[k - 1] < id < rows[k] {
        TieOrder(m, rows, k, id, v);
        OrderIs(m', InsertAt(rows, k, id));
      } else {
        var t := InsertAt(rows, k, id);
        assert t[k - 1] == rows[k - 1] && t[k] == id && t[k + 1] == rows[k];
        assert !Before(m', t[k - 1], t[k]) || !Before(m', t[k], t[k + 1]);
        assert !Sorted(m', t);
      }
    } else {
      DisplayInsert(m, rows, k, id, v);
      OrderIs(m', InsertAt(rows, k, id));
    }
  }

  lemma PositionIs(m: Scope, cards: Cards, x: int)
    requires x in m && forall y | y in m :: y in cards && cards[y].position == m[y]
    ensures x in cards && PositionOf(cards, Some(x)) == Some(m[x])
  {
  }

  lemma TieOrder(m: Scope, rows: seq<int>, k: nat, id: int, v: real)
    requires Displays(m, rows) && id !in m && 0 < k < |rows| && rows[k - 1] < id < rows[k]
    requires rows[k - 1] in m && rows[k] in m && m[rows[k - 1]] == v == m[rows[k]]
    ensures Displays(m[id := v], InsertAt(rows, k, id))
  {
    forall i | 0 <= i < k ensures Before(m[id := v], rows[i], id) {
      assert i < k - 1 ==> Before(m, rows[i], rows[k - 1]);
    }
    forall j | k <= j < |rows| ensures Before(m[id := v], id, rows[j]) {
      assert j > k ==> Before(m, rows[k], rows[j]);
    }
    DisplayWith(m, rows, k, id, v);
  }

  /** The request for an index names that index to the server. */
  lemma RequestNamesIndex(panel: seq<int>, id: int, section: Section, newIndex: int)
    requires NoDup(panel)
    ensures var rows, r := Minus(panel, {id}), MoveRequest(panel, id, section, newIndex);
            IndexFor(rows, Where(r.prev, r.next, false)) == Some(Clamp(newIndex, |rows|))
  {
    var rows := Minus(panel, {id});
    MinusKeepsOnce(panel, {id});
    var k := Clamp(newIndex, |rows|);
    if k > 0 {
      StoryPlacement.IndexInNoDup(rows, k - 1);
    } else if rows != [] {
      StoryPlacement.IndexInNoDup(rows, 0);
    }
  }

  /**
    Dropping a row the board lets go at any index: the server accepts the request
    for that index, the row gets the state the board guessed, every other panel
    shows what the board guessed, and so does the target panel if and only if the
    new neighbours' positions differ or the ids fall in order.
   */
  lemma OptimisticMove(db: Db, project: int, start: int, cards: Cards, id: int, section: Section, newIndex: int)
    requires Inv(db) && Mirrors(db, project, start, cards) && section != Done
    requires id in cards && CanDrop(cards[id], section)
    ensures var r := MoveTx(db, id, MoveRequest(SectionStories(cards, section), id, section, newIndex));
            var guess, key := ApplyMove(cards, id, section, newIndex), Key(project, section);
            var rows := Minus(SectionStories(cards, section), {id});
            && r.Ok?
            && (0 <= newIndex <= |rows| ==> Panel(r.value.db.stories, key) == rows[..newIndex] + [id] + rows[newIndex..])
            && guess[id].state == r.value.db.stories[id].state
            && (forall other | other != Done && other != section ::
                  SectionStories(guess, other) == Panel(r.value.db.stories, Key(project, other)))
            && (SectionStories(guess, section) == Panel(r.value.db.stories, key) <==>
                  var k := Clamp(newIndex, |rows|); Tied(cards, rows, k) ==> rows[k - 1] < id < rows[k])
  {
    var key := Key(project, section);
    var panel := SectionStories(cards, section);
    var rows, input := Minus(panel, {id}), MoveRequest(panel, id, section, newIndex);
    MirrorShowsBoard(db, project, start, cards);
    PanelNoDup(db.stories, key);
    RequestNamesIndex(panel, id, section, newIndex);
    StoryOrder.RowsArePanel(db.stories, key, id);
    assert RowOk(db.projects, db.stories[id]);
    var r := MoveTx(db, id, input);
    assert r.Ok?;
    MoveOrder(db, id, input);
    MoveGuess(cards, id, section, newIndex);
  }

  /** The board's own guess, panel by panel. */
  lemma MoveGuess(cards: Cards, id: int, section: Section, newIndex: int)
    requires id in cards && CanDrop(cards[id], section)
    ensures var guess, rows := ApplyMove(cards, id, section, newIndex), Minus(SectionStories(cards, section), {id});
            var k := Clamp(newIndex, |rows|);
            && (forall other | other != section :: SectionStories(guess, other) == Minus(SectionStories(cards, other), {id}))
            && (SectionStories(guess, section) == InsertAt(rows, k, id) <==> (Tied(cards, rows, k) ==> rows[k - 1] < id < rows[k]))
  {
    var guess := ApplyMove(cards, id, section, newIndex);
    var m := CardScope(cards, section) - {id};
    var rows := Minus(SectionStories(cards, section), {id});
    DisplayMinus(CardScope(cards, section), SectionStories(cards, section), {id});
    MidpointOrder(m, cards, rows, Clamp(newIndex, |rows|), id);
    assert CardScope(guess, section) == m[id := guess[id].position];
    forall other | other != section ensures SectionStories(guess, other) == Minus(SectionStories(cards, other), {id}) {
      SectionLoses(cards, guess, id, other);
    }
  }

  lemma SectionLoses(cards: Cards, guess: Cards, id: int, section: Section)
    requires id in guess && guess == cards[id := guess[id]] && !Shown(guess[id], section)
    ensures SectionStories(guess, section) == Minus(SectionStories(cards, section), {id})
  {
    DisplayMinus(CardScope(cards, section), SectionStories(cards, section), {id});
    assert CardScope(guess, section) == CardScope(cards, section) - {id};
    OrderIs(CardScope(guess, section), Minus(SectionStories(cards, section), {id}));
  }

  /** With all positions of the panel distinct the guess is never wrong. */
  lemma OptimisticMoveDistinct(db: Db, project: int, start: int, cards: Cards, id: int, section: Section, newIndex: int)
    requires Inv(db) && Mirrors(db, project, start, cards) && section != Done
    requires id in cards && CanDrop(cards[id], section)
    requires forall a, b | a in cards && b in cards && a != b && Shown(cards[a], section) && Shown(cards[b], section) ::
               cards[a].position != cards[b].position
    ensures var r := MoveTx(db, id, MoveRequest(SectionStories(cards, section), id, section, newIndex));
            r.Ok? && SameBoard(ApplyMove(cards, id, section, newIndex), r.value.db.stories, project)
  {
    OptimisticMove(db, project, start, cards, id, section, newIndex);
    var m, panel := CardScope(cards, section), SectionStories(cards, section);
    var rows := Minus(panel, {id});
    var k := Clamp(newIndex, |rows|);
    MinusMembers(panel, {id});
    DisplayNoDup(m, panel);
    MinusKeepsOnce(panel, {id});
    if 0 < k < |rows| {
      assert rows[k - 1] in rows && rows[k] in rows && rows[k - 1] != rows[k];
      assert rows[k - 1] in m && rows[k] in m;
    }
  }

  lemma {:induction false} MaxPositionBounds(cards: Cards, ids: seq<int>)
    requires forall x | x in ids :: x in cards
    ensures forall x | x in ids :: cards[x].position <= MaxPosition(cards, ids)
  {
    if ids != [] {
      assert forall x | x in ids[..|ids| - 1] :: x in ids;
      assert ids[|ids| - 1] in ids;
      MaxPositionBounds(cards, ids[..|ids| - 1]);
      assert ids == ids[..|ids| - 1] + [ids[|ids| - 1]];
    }
  }

  /** Every button the board offers, whoever presses it: the server accepts if and only if
      a feature has points, and then state, section and every panel are what the board guessed. */
  lemma OptimisticState(db: Db, project: int, start: int, cards: Cards, id: int, actor: Actor, to: State, now: int)
    requires Inv(db) && Mirrors(db, project, start, cards) && id in cards && to in NextActions(cards[id].state)
    requires now >= start
    ensures var r := UpdateTx(db, id, actor, StateUpdate(to), now);
            && (r.Ok? <==> (db.stories[id].kind == Feature ==> db.stories[id].estimate.Some?))
            && (r.Err? ==> r == Err(Invalid))
            && (r.Ok? ==> GuessedState(r.value.stories, project, start, cards, id, to))
  {
    assert RowOk(db.projects, db.stories[id]);
    StateUpdateAnswered(db, id, actor, to, now);
    if UpdateTx(db, id, actor, StateUpdate(to), now).Ok? {
      StateIsGuessed(db, project, start, cards, id, actor, to, now);
    }
  }

  /** State, section and every panel as the board guessed them. */
  ghost predicate GuessedState(after: map<int, Story>, project: int, start: int, cards: Cards, id: int, to: State)
    requires id in cards && id in after
  {
    var guess := ApplyState(cards, id, to);
    && guess[id].state == after[id].state == to && guess[id].section == SectionIn(after[id], start)
    && SameBoard(guess, after, project)
  }

  lemma StateIsGuessed(db: Db, project: int, start: int, cards: Cards, id: int, actor: Actor, to: State, now: int)
    requires Inv(db) && Mirrors(db, project, start, cards) && id in cards && to in NextActions(cards[id].state)
    requires now >= start && UpdateTx(db, id, actor, StateUpdate(to), now).Ok?
    ensures GuessedState(UpdateTx(db, id, actor, StateUpdate(to), now).value.stories, project, start, cards, id, to)
  {
    var after, guess := UpdateTx(db, id, actor, StateUpdate(to), now).value.stories, ApplyState(cards, id, to);
    assert RowOk(db.projects, db.stories[id]);
    StateReached(db, id, actor, to, now);
    forall section | section != Done ensures SectionStories(guess, section) == Panel(after, Key(project, section)) {
      PanelGuessed(db, project, start, cards, id, actor, to, now, section);
    }
  }

  lemma PanelGuessed(
    db: Db, project: int, start: int, cards: Cards, id: int, actor: Actor, to: State, now: int, section: Section)
    requires Inv(db) && Mirrors(db, project, start, cards) && id in cards && to in NextActions(cards[id].state)
    requires now >= start && UpdateTx(db, id, actor, StateUpdate(to), now).Ok? && section != Done
    ensures SectionStories(ApplyState(cards, id, to), section) ==
            Panel(UpdateTx(db, id, actor, StateUpdate(to), now).value.stories, Key(project, section))
  {
    assert RowOk(db.projects, db.stories[id]);
    ServerStep(db, id, actor, to, now, Key(project, section));
    MirrorShowsBoard(db, project, start, cards);
    StateGuess(cards, id, to);
  }

  /** What the server's step does to one panel. */
  lemma ServerStep(db: Db, id: int, actor: Actor, to: State, now: int, key: Key)
    requires UpdateTx(db, id, actor, StateUpdate(to), now).Ok? && RowsOk(db)
    requires db.stories[id].project == key.project && to in NextActions(db.stories[id].state)
    ensures var after, was := UpdateTx(db, id, actor, StateUpdate(to), now).value.stories, Panel(db.stories, key);
            Panel(after, key) ==
              if to == Accepted then Minus(was, {id})
              else if SectionOf(db.stories[id].state) == Current then was
              else if key.section == Current then Minus(was, {id}) + [id]
              else Minus(was, {id})
  {
    UpdateOrder(db, id, actor, StateUpdate(to), now);
    StateReached(db, id, actor, to, now);
    var after := UpdateTx(db, id, actor, StateUpdate(to), now).value.stories;
    if to == Accepted {
      MinusNothing(Panel(after, key), {id});
    } else if SectionOf(db.stories[id].state) != Current {
      var rows := Minus(Panel(db.stories, key), {id});
      assert InsertAt(rows, |rows|, id) == rows + [id];
    }
  }

  lemma StateReached(db: Db, id: int, actor: Actor, to: State, now: int)
    requires UpdateTx(db, id, actor, StateUpdate(to), now).Ok?
    requires RowsOk(db) && db.stories[id].state != Accepted && db.stories[id].state != to
    ensures var st := UpdateTx(db, id, actor, StateUpdate(to), now).value.stories[id];
            st.state == to && st.acceptedAt == if to == Accepted then Some(now) else None
  {
    assert RowOk(db.projects, db.stories[id]);
  }

  /** The board's own guess for a workflow step. */
  lemma StateGuess(cards: Cards, id: int, to: State)
    requires id in cards && to in NextActions(cards[id].state) && cards[id].section == SectionOf(cards[id].state)
    ensures var guess, c := ApplyState(cards, id, to), cards[id];
            if to == Accepted then
              forall section :: SectionStories(guess, section) == Minus(SectionStories(cards, section), {id})
            else if c.section == Current then
              forall section :: SectionStories(guess, section) == SectionStories(cards, section)
            else
              && SectionStories(guess, Current) == Minus(SectionStories(cards, Current), {id}) + [id]
              && forall section | section != Current :: SectionStories(guess, section) == Minus(SectionStories(cards, section), {id})
  {
    var guess, c := ApplyState(cards, id, to), cards[id];
    if to != Accepted && c.section == Current {
      forall section ensures SectionStories(guess, section) == SectionStories(cards, section) {
        assert CardScope(guess, section) == CardScope(cards, section);
      }
    } else {
      forall section | to == Accepted || section != Current
        ensures SectionStories(guess, section) == Minus(SectionStories(cards, section), {id})
      {
        SectionLoses(cards, guess, id, section);
      }
      if to != Accepted { BottomGuess(cards, id, to); }
    }
  }

  lemma BottomGuess(cards: Cards, id: int, to: State)
    requires id in cards && cards[id].section != Current && InProgress(to)
    ensures SectionStories(ApplyState(cards, id, to), Current) == Minus(SectionStories(cards, Current), {id}) + [id]
  {
    var guess, m, rows := ApplyState(cards, id, to), CardScope(cards, Current), SectionStories(cards, Current);
    assert forall x | x in rows :: x in m;
    MaxPositionBounds(cards, rows);
    MinusNothing(rows, {id});
    if rows != [] { DisplayMember(m, rows, |rows| - 1); assert rows[|rows| - 1] in rows; }
    DisplayInsert(m, rows, |rows|, id, guess[id].position);
    BottomScope(cards, id, to);
    assert InsertAt(rows, |rows|, id) == rows + [id];
    OrderIs(CardScope(guess, Current), rows + [id]);
  }

  lemma BottomScope(cards: Cards, id: int, to: State)
    requires id in cards && cards[id].section != Current && InProgress(to)
    ensures var guess := ApplyState(cards, id, to);
            id in guess && CardScope(guess, Current) == CardScope(cards, Current)[id := guess[id].position]
  {
  }

  // ----- bulk drops -----

  /** What a selection leaves out. */
  function Unchecked(board: seq<int>, checked: set<int>): set<int> {
    set x | x in board && x !in checked
  }

  /** The checked stories, panel by panel, in the order shown. */
  method OrderedSelection(icebox: seq<int>, backlog: seq<int>, current: seq<int>, checked: set<int>) returns (out: seq<int>)
    ensures out == Minus(icebox + backlog + current, Unchecked(icebox + backlog + current, checked))
  {
    ghost var board := icebox + backlog + current;
    ghost var skip := Unchecked(board, checked);
    out := [];
    var all := [icebox, backlog, current];
    ghost var seen: seq<int> := [];
    for p := 0 to |all|
      invariant seen == match p case 0 => [] case 1 => icebox case 2 => icebox + backlog case _ => board
      invariant out == Minus(seen, skip)
    {
      forall i | 0 <= i < |all[p]| ensures all[p][i] in skip <==> all[p][i] !in checked {
        assert board[i + |seen|] == all[p][i];
      }
      out := AddChecked(out, seen, all[p], skip, checked);
      seen := seen + all[p];
    }
  }

  method AddChecked(before: seq<int>, ghost seen: seq<int>, ids: seq<int>, ghost skip: set<int>, checked: set<int>)
    returns (out: seq<int>)
    requires before == Minus(seen, skip)
    requires forall i | 0 <= i < |ids| :: ids[i] in skip <==> ids[i] !in checked
    ensures out == Minus(seen + ids, skip)
  {
    out := before;
    assert seen + ids[..0] == seen;
    for i := 0 to |ids|
      invariant out == Minus(seen + ids[..i], skip)
    {
      assert (seen + ids[..i + 1])[..|seen| + i] == seen + ids[..i];
      if ids[i] in checked { out := out + [ids[i]]; }
    }
    assert ids[..|ids|] == ids;
  }

  lemma MinusAround(p: seq<int>, x: int, q: seq<int>, gone: set<int>)
    requires x !in gone
    ensures Minus(p + [x] + q, gone) == Minus(p, gone) + [x] + Minus(q, gone)
  {
    MinusAppend(p, [x], gone);
    MinusAppend(p + [x], q, gone);
    assert Minus([x], gone) == [x];
  }

  /** Taking elements out commutes with cutting at a kept one. */
  lemma MinusCut(s: seq<int>, gone: set<int>, j: nat)
    requires NoDup(s) && j < |Minus(s, gone)|
    ensures var rest := Minus(s, gone);
            var i := IndexOf(s, rest[j]);
            && i >= 0
            && Minus(s[..i], gone) == rest[..j] && Minus(s[i + 1..], gone) == rest[j + 1..]
            && Minus(s[..i + 1], gone) == rest[..j + 1] && Minus(s[i..], gone) == rest[j..]
  {
    var x := Minus(s, gone)[j];
    assert x in s && x !in gone by {
      MinusMembers(s, gone);
      assert x in Minus(s, gone);
    }
    var i := IndexOf(s, x);
    Around(s, i);
    MinusKeepsOnce(s, gone);
    CutAround(s[..i], x, s[i + 1..], gone, j);
  }

  lemma Around(s: seq<int>, i: nat)
    requires i < |s|
    ensures s == s[..i] + [s[i]] + s[i + 1..] && s[..i + 1] == s[..i] + [s[i]] && s[i..] == [s[i]] + s[i + 1..]
  {
  }

  lemma CutAround(p: seq<int>, x: int, q: seq<int>, gone: set<int>, j: nat)
    requires x !in gone && NoDup(Minus(p + [x] + q, gone))
    requires j < |Minus(p + [x] + q, gone)| && Minus(p + [x] + q, gone)[j] == x
    ensures var rest := Minus(p + [x] + q, gone);
            && Minus(p, gone) == rest[..j] && Minus(q, gone) == rest[j + 1..]
            && Minus(p + [x], gone) == rest[..j + 1] && Minus([x] + q, gone) == rest[j..]
  {
    MinusAround(p, x, q, gone);
    MinusAppend(p, [x], gone);
    MinusAppend([x], q, gone);
    assert Minus([x], gone) == [x];
    SamePlaceInNoDup(Minus(p + [x] + q, gone), Minus(p, gone), x, Minus(q, gone), j);
  }

  lemma SamePlaceInNoDup(s: seq<int>, a: seq<int>, x: int, b: seq<int>, j: nat)
    requires NoDup(s) && s == a + [x] + b && j < |s| && s[j] == x
    ensures a == s[..j] && b == s[j + 1..] && a + [x] == s[..j + 1] && [x] + b == s[j..]
  {
    assert s[|a|] == x;
  }

  /** Dropping a selection: the server accepts it if and only if its size is allowed and
      the board lets each story go there, and then puts it at the index of the panel as
      displayed without it, as one block in the order sent. */
  lemma BulkDrop(db: Db, project: int, start: int, cards: Cards, moved: seq<int>, section: Section, newIndex: int)
    requires Inv(db) && Mirrors(db, project, start, cards) && section != Done
    requires NoDup(moved) && forall i | 0 <= i < |moved| :: moved[i] in cards
    ensures var panel := SectionStories(cards, section);
            var input := BulkMoveRequest(panel, moved, section, newIndex);
            var rest := Minus(panel, set x | x in moved);
            var r, k := MoveManyTx(db, moved, input), Clamp(newIndex, |rest|);
            && (r.Ok? <==> 0 < |moved| <= 200 && forall i | 0 <= i < |moved| :: CanDrop(cards[moved[i]], section))
            && (r.Ok? ==> Panel(r.value.stories, Key(project, section)) == rest[..k] + moved + rest[k..] &&
                          forall other | other != Done && other != section ::
                            Panel(r.value.stories, Key(project, other)) == Minus(SectionStories(cards, other), set x | x in moved))
  {
    MirrorShowsBoard(db, project, start, cards);
    BulkAccepted(db, project, start, cards, moved, section, newIndex);
    if MoveManyTx(db, moved, BulkMoveRequest(SectionStories(cards, section), moved, section, newIndex)).Ok? {
      CardMayMove(db, project, start, cards, moved[0], section);
      BulkPlaced(db, project, moved, section, newIndex);
    }
  }

  lemma BulkAccepted(db: Db, project: int, start: int, cards: Cards, moved: seq<int>, section: Section, newIndex: int)
    requires Inv(db) && Mirrors(db, project, start, cards) && section != Done
    requires forall i | 0 <= i < |moved| :: moved[i] in cards
    ensures MoveManyTx(db, moved, BulkMoveRequest(SectionStories(cards, section), moved, section, newIndex)).Ok? <==>
              0 < |moved| <= 200 && forall i | 0 <= i < |moved| :: CanDrop(cards[moved[i]], section)
  {
    var panel := SectionStories(cards, section);
    MirrorShowsBoard(db, project, start, cards);
    MoveManyAccepted(db, moved, BulkMoveRequest(panel, moved, section, newIndex));
    BulkNeighbours(panel, moved, section, newIndex);
    forall i | 0 <= i < |moved|
      ensures moved[i] in db.stories && db.stories[moved[i]].project == project
      ensures MayMove(db, moved[i], project, section) <==> CanDrop(cards[moved[i]], section)
    {
      CardMayMove(db, project, start, cards, moved[i], section);
    }
  }

  lemma CardMayMove(db: Db, project: int, start: int, cards: Cards, id: int, section: Section)
    requires Mirrors(db, project, start, cards) && id in cards
    ensures id in db.stories && db.stories[id].project == project
    ensures MayMove(db, id, project, section) <==> CanDrop(cards[id], section)
  {
  }

  lemma BulkPlaced(db: Db, project: int, moved: seq<int>, section: Section, newIndex: int)
    requires NoDup(moved) && moved != [] && moved[0] in db.stories && db.stories[moved[0]].project == project
    requires MoveManyTx(db, moved, BulkMoveRequest(Panel(db.stories, Key(project, section)), moved, section, newIndex)).Ok?
    ensures var panel, gone := Panel(db.stories, Key(project, section)), set x | x in moved;
            var after := MoveManyTx(db, moved, BulkMoveRequest(panel, moved, section, newIndex)).value.stories;
            var rest := Minus(panel, gone);
            var k := Clamp(newIndex, |rest|);
            && Panel(after, Key(project, section)) == rest[..k] + moved + rest[k..]
            && forall other | other != section :: Panel(after, Key(project, other)) == Minus(Panel(db.stories, Key(project, other)), gone)
  {
    var key := Key(project, section);
    var input := BulkMoveRequest(Panel(db.stories, key), moved, section, newIndex);
    MoveManyOrder(db, moved, input);
    DistinctSame(moved);
    PanelNoDup(db.stories, key);
    BlockShown(db.stories, MoveManyTx(db, moved, input).value.stories, key, moved, newIndex);
  }

  lemma BlockShown(before: map<int, Story>, after: map<int, Story>, key: Key, moved: seq<int>, newIndex: int)
    requires NoDup(Panel(before, key))
    requires Blocked(before, after, key,
               CutAt(Panel(before, key), BulkMoveRequest(Panel(before, key), moved, key.section, newIndex)), moved)
    ensures var rest := Minus(Panel(before, key), set x | x in moved);
            var k := Clamp(newIndex, |rest|);
            && Panel(after, key) == rest[..k] + moved + rest[k..]
            && forall other | other != key.section ::
                 Panel(after, Key(key.project, other)) == Minus(Panel(before, Key(key.project, other)), set x | x in moved)
  {
    var panel, gone := Panel(before, key), set x | x in moved;
    BulkCut(panel, moved, key.section, newIndex);
    forall other | other != key.section
      ensures Panel(after, Key(key.project, other)) == Minus(Panel(before, Key(key.project, other)), gone)
    {
      assert Key(key.project, other) != key;
    }
  }

  /** The neighbours of a bulk request are shown and not among the stories moved. */
  lemma BulkNeighbours(panel: seq<int>, moved: seq<int>, section: Section, newIndex: int)
    ensures var input := BulkMoveRequest(panel, moved, section, newIndex);
            && !TargetMoving(moved, input)
            && (input.prev.Some? ==> input.prev.value in panel) && (input.next.Some? ==> input.next.value in panel)
  {
    var gone := set x | x in moved;
    var rest := Minus(panel, gone);
    var k := Clamp(newIndex, |rest|);
    MinusMembers(panel, gone);
    if k > 0 { assert rest[k - 1] in rest; }
    if k < |rest| { assert rest[k] in rest; }
  }

  lemma BulkCut(panel: seq<int>, moved: seq<int>, section: Section, newIndex: int)
    requires NoDup(panel)
    ensures var rest, input := Minus(panel, set x | x in moved), BulkMoveRequest(panel, moved, section, newIndex);
            var k := Clamp(newIndex, |rest|);
            Block(panel, CutAt(panel, input), moved) == rest[..k] + moved + rest[k..]
  {
    var gone := set x | x in moved;
    var k, input := Clamp(newIndex, |Minus(panel, gone)|), BulkMoveRequest(panel, moved, section, newIndex);
    RequestCut(panel, gone, section, k);
    CutSplits(panel, gone, CutAt(panel, input));
  }

  /** How many rows before `cut` stay. */
  function Kept(panel: seq<int>, gone: set<int>, cut: nat): nat
    requires cut <= |panel|
  {
    |Minus(panel[..cut], gone)|
  }

  /** The drop point of the request cuts the panel where the selection goes. */
  lemma RequestCut(panel: seq<int>, gone: set<int>, section: Section, k: nat)
    requires NoDup(panel) && k <= |Minus(panel, gone)|
    ensures var rest := Minus(panel, gone);
            Kept(panel, gone, CutAt(panel, MoveInput(section, At(rest, k - 1), At(rest, k)))) == k
  {
    var rest := Minus(panel, gone);
    RowCutIs(panel, rest, section, k);
    RowCutKeeps(panel, gone, rest, k);
  }

  /** Behind the row before index `k` of `rest`, else before its first row. */
  function RowCut(panel: seq<int>, rest: seq<int>, k: nat): (cut: int)
    requires k <= |rest|
    ensures 0 <= cut <= |panel|
  {
    if k > 0 then IndexOf(panel, rest[k - 1]) + 1
    else if rest != [] && rest[0] in panel then IndexOf(panel, rest[0])
    else 0
  }

  lemma RowCutIs(panel: seq<int>, rest: seq<int>, section: Section, k: nat)
    requires k <= |rest|
    ensures CutAt(panel, MoveInput(section, At(rest, k - 1), At(rest, k))) == RowCut(panel, rest, k)
  {
  }

  lemma RowCutKeeps(panel: seq<int>, gone: set<int>, rest: seq<int>, k: nat)
    requires NoDup(panel) && rest == Minus(panel, gone) && k <= |rest|
    ensures Kept(panel, gone, RowCut(panel, rest, k)) == k
  {
    if k > 0 {
      KeptBefore(panel, gone, k - 1);
    } else if rest != [] {
      KeptBefore(panel, gone, 0);
    }
  }

  lemma KeptBefore(panel: seq<int>, gone: set<int>, j: nat)
    requires NoDup(panel) && j < |Minus(panel, gone)|
    ensures var i := IndexOf(panel, Minus(panel, gone)[j]);
            i >= 0 && Kept(panel, gone, i) == j && Kept(panel, gone, i + 1) == j + 1
  {
    MinusCut(panel, gone, j);
  }

  lemma CutSplits(panel: seq<int>, gone: set<int>, cut: nat)
    requires cut <= |panel|
    ensures var rest, k := Minus(panel, gone), Kept(panel, gone, cut);
            k <= |rest| && Minus(panel[..cut], gone) == rest[..k] && Minus(panel[cut..], gone) == rest[k..]
  {
    MinusAppend(panel[..cut], panel[cut..], gone);
    assert panel == panel[..cut] + panel[cut..];
  }

  lemma {:induction false} DistinctSame(s: seq<int>)
    requires NoDup(s)
    ensures Distinct(s) == s
  {
    if s != [] {
      DistinctSame(s[..|s| - 1]);
      assert s[|s| - 1] !in s[..|s| - 1];
      assert s == s[..|s| - 1] + [s[|s| - 1]];
    }
  }
}
