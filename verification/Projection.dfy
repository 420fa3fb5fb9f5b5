/** The backlog split into projected iterations (web/src/lib/board.ts, projectBacklog). */
module Projection {
  import opened Sequences
  import Iteration

  const DAY := Iteration.DAY

  datatype Item = Item(id: int, estimate: Option<nat>)

  /** A row of the projected backlog: an iteration header with its planned points, or a story. */
  datatype BacklogRow = Marker(number: int, startAt: int, points: nat) | StoryRow(item: Item)

  /** The current iteration's number and end, and how long iterations are. */
  datatype Current = Current(number: int, endAt: int, lengthDays: int)

  const HOUR: int := 60 * 60

  /** The header of the `offset`-th iteration to come. Its date is nudged past midnight. */
  function Header(current: Current, offset: int, points: nat): BacklogRow {
    Marker(current.number + offset, current.endAt + (offset - 1) * current.lengthDays * DAY + 2 * HOUR, points)
  }

  function Pts(item: Item): nat { if item.estimate.Some? then item.estimate.value else 0 }

  function Points(items: seq<Item>): nat {
    if items == [] then 0 else Points(items[..|items| - 1]) + Pts(items[|items| - 1])
  }

  function Pointed(items: seq<Item>): nat {
    if items == [] then 0 else Pointed(items[..|items| - 1]) + (if Pts(items[|items| - 1]) > 0 then 1 else 0)
  }

  /** The rule: an iteration stays within capacity, or holds one story too large for any. */
  predicate Fits(items: seq<Item>, capacity: nat) { Points(items) <= capacity || Pointed(items) == 1 }

  function Flat(split: seq<seq<Item>>): seq<Item> {
    if split == [] then [] else Flat(split[..|split| - 1]) + split[|split| - 1]
  }

  /** Whether the next story opens an iteration. Unpointed work never does. */
  predicate Opens(split: seq<seq<Item>>, item: Item, capacity: nat) {
    split == [] ||
    var last := Points(split[|split| - 1]);
    Pts(item) > 0 && last > 0 && last + Pts(item) > capacity
  }

  function Extend(split: seq<seq<Item>>, item: Item, capacity: nat): seq<seq<Item>> {
    if Opens(split, item, capacity) then split + [[item]]
    else split[|split| - 1 := split[|split| - 1] + [item]]
  }

  /** The iterations the projection makes of a backlog. */
  function Iterations(backlog: seq<Item>, capacity: nat): seq<seq<Item>> {
    if backlog == [] then []
    else Extend(Iterations(backlog[..|backlog| - 1], capacity), backlog[|backlog| - 1], capacity)
  }

  function StoryRows(items: seq<Item>): seq<BacklogRow> {
    seq(|items|, i requires 0 <= i < |items| => StoryRow(items[i]))
  }

  /** Each iteration as its header followed by its stories. */
  function Rendered(split: seq<seq<Item>>, current: Current): seq<BacklogRow> {
    if split == [] then []
    else
      var last := split[|split| - 1];
      Rendered(split[..|split| - 1], current) + [Header(current, |split|, Points(last))] + StoryRows(last)
  }

  method ProjectBacklog(backlog: seq<Item>, velocity: int, current: Current) returns (rows: seq<BacklogRow>)
    ensures rows == Rendered(Iterations(backlog, if velocity < 1 then 1 else velocity), current)
  {
    var capacity := if velocity > 1 then velocity else 1;
    rows := [];
    var points, offset, marker := 0, 0, -1;
    ghost var split: seq<seq<Item>> := [];
    for i := 0 to |backlog|
      invariant split == Iterations(backlog[..i], capacity)
      invariant Filling(split, current, rows, points, offset, marker)
    {
      var item := backlog[i];
      var pts := Pts(item);
      assert backlog[..i + 1][..i] == backlog[..i];
      FillingStep(split, current, rows, points, offset, marker, item, capacity);
      split := Extend(split, item, capacity);
      if marker < 0 || (pts > 0 && points > 0 && points + pts > capacity) {
        offset := offset + 1;
        marker := |rows|;
        rows := rows + [Header(current, offset, 0)];
        points := 0;
      }
      points := points + pts;
      rows := rows[marker := Header(current, offset, points)];
      rows := rows + [StoryRow(item)];
    }
    assert backlog[..|backlog|] == backlog;
  }

  /** The loop's variables: the rows so far, and where the last header is and what it says. */
  ghost predicate Filling(split: seq<seq<Item>>, current: Current, rows: seq<BacklogRow>, points: int, offset: int, marker: int) {
    && rows == Rendered(split, current) && offset == |split| && (marker < 0 <==> split == [])
    && (split != [] ==> points == Points(split[|split| - 1]) && 0 <= marker == |rows| - |split[|split| - 1]| - 1)
  }

  lemma FillingStep(
    split: seq<seq<Item>>, current: Current, rows: seq<BacklogRow>, points: int, offset: int, marker: int, item: Item, capacity: nat)
    requires Filling(split, current, rows, points, offset, marker)
    ensures Opens(split, item, capacity) <==> marker < 0 || (Pts(item) > 0 && points > 0 && points + Pts(item) > capacity)
    ensures if Opens(split, item, capacity) then
              Filling(Extend(split, item, capacity), current,
                      (rows + [Header(current, offset + 1, 0)])[|rows| := Header(current, offset + 1, Pts(item))] + [StoryRow(item)],
                      Pts(item), offset + 1, |rows|)
            else
              0 <= marker < |rows| &&
              Filling(Extend(split, item, capacity), current,
                      rows[marker := Header(current, offset, points + Pts(item))] + [StoryRow(item)],
                      points + Pts(item), offset, marker)
  {
    RenderExtended(split, item, capacity, current);
    if Opens(split, item, capacity) {
      PointsOne([], item);
      assert [] + [item] == [item];
      assert (rows + [Header(current, offset + 1, 0)])[|rows| := Header(current, offset + 1, Pts(item))] ==
             rows + [Header(current, offset + 1, Pts(item))];
    } else {
      PointsOne(split[|split| - 1], item);
    }
  }

  /** How one more story changes the rows. */
  lemma RenderExtended(split: seq<seq<Item>>, item: Item, capacity: nat, current: Current)
    ensures var rows, rows' := Rendered(split, current), Rendered(Extend(split, item, capacity), current);
            if Opens(split, item, capacity) then
              rows' == rows + [Header(current, |split| + 1, Pts(item)), StoryRow(item)]
            else
              var last := split[|split| - 1];
              var at := |rows| - |last| - 1;
              && 0 <= at < |rows| && rows[at] == Header(current, |split|, Points(last))
              && rows' == rows[at := Header(current, |split|, Points(last) + Pts(item))] + [StoryRow(item)]
  {
    if Opens(split, item, capacity) {
      assert (split + [[item]])[..|split|] == split;
      PointsOne([], item);
      assert [] + [item] == [item];
      assert StoryRows([item]) == [StoryRow(item)];
    } else {
      RenderGrown(split, item, current);
    }
  }

  lemma RenderGrown(split: seq<seq<Item>>, item: Item, current: Current)
    requires split != []
    ensures var last := split[|split| - 1];
            var rows, at := Rendered(split, current), |Rendered(split, current)| - |last| - 1;
            && 0 <= at < |rows| && rows[at] == Header(current, |split|, Points(last))
            && Rendered(split[|split| - 1 := last + [item]], current) ==
               rows[at := Header(current, |split|, Points(last) + Pts(item))] + [StoryRow(item)]
  {
    var last, most := split[|split| - 1], split[..|split| - 1];
    var split' := split[|split| - 1 := last + [item]];
    assert split'[..|split| - 1] == most;
    PointsOne(last, item);
    assert StoryRows(last + [item]) == StoryRows(last) + [StoryRow(item)];
    var r, m, m' := Rendered(most, current), Header(current, |split|, Points(last)), Header(current, |split|, Points(last) + Pts(item));
    assert (r + [m] + StoryRows(last))[|r| := m'] == r + [m'] + StoryRows(last);
  }

  // ----- what the projection promises -----

  lemma PointsOne(items: seq<Item>, item: Item)
    ensures Points(items + [item]) == Points(items) + Pts(item)
    ensures Pointed(items + [item]) == Pointed(items) + (if Pts(item) > 0 then 1 else 0)
  {
    assert (items + [item])[..|items|] == items;
  }

  lemma {:induction false} PointedIffPoints(items: seq<Item>)
    ensures Pointed(items) == 0 <==> Points(items) == 0
  {
    if items != [] { PointedIffPoints(items[..|items| - 1]); }
  }

  lemma FlatExtended(split: seq<seq<Item>>, item: Item, capacity: nat)
    ensures Flat(Extend(split, item, capacity)) == Flat(split) + [item]
  {
    var split' := Extend(split, item, capacity);
    if Opens(split, item, capacity) {
      assert split'[..|split|] == split;
    } else {
      assert split'[..|split| - 1] == split[..|split| - 1];
      assert Flat(split) + [item] == Flat(split[..|split| - 1]) + (split[|split| - 1] + [item]);
    }
  }

  /** Every story is kept, once and in order; every iteration obeys the rule and holds something. */
  lemma {:induction false} IterationsAreASplit(backlog: seq<Item>, capacity: nat)
    ensures var split := Iterations(backlog, capacity);
            Flat(split) == backlog && forall k | 0 <= k < |split| :: split[k] != [] && Fits(split[k], capacity)
  {
    if backlog != [] {
      var most, item := backlog[..|backlog| - 1], backlog[|backlog| - 1];
      IterationsAreASplit(most, capacity);
      var split := Iterations(most, capacity);
      FlatExtended(split, item, capacity);
      assert backlog == most + [item];
      PointsOne([], item);
      assert [] + [item] == [item];
      if split != [] {
        PointsOne(split[|split| - 1], item);
        PointedIffPoints(split[|split| - 1]);
      }
    }
  }

  /** The headers account for all the points of the backlog. */
  lemma {:induction false} PointsConserved(split: seq<seq<Item>>)
    ensures SplitPoints(split) == Points(Flat(split))
  {
    if split != [] {
      PointsConserved(split[..|split| - 1]);
      PointsAppend(Flat(split[..|split| - 1]), split[|split| - 1]);
    }
  }

  function SplitPoints(split: seq<seq<Item>>): nat {
    if split == [] then 0 else SplitPoints(split[..|split| - 1]) + Points(split[|split| - 1])
  }

  lemma {:induction false} PointsAppend(a: seq<Item>, b: seq<Item>)
    ensures Points(a + b) == Points(a) + Points(b)
  {
    if b == [] {
      assert a + b == a;
    } else {
      assert (a + b)[..|a + b| - 1] == a + b[..|b| - 1];
      PointsAppend(a, b[..|b| - 1]);
    }
  }

  /** Greedy stays ahead: fewer iterations, or as many with no more in the last one. */
  predicate Ahead(a: seq<seq<Item>>, b: seq<seq<Item>>) {
    |a| < |b| || (|a| == |b| && (a == [] || Points(a[|a| - 1]) <= Points(b[|b| - 1])))
  }

  lemma AheadStep(g: seq<seq<Item>>, t: seq<seq<Item>>, item: Item, capacity: nat)
    requires t != [] && Ahead(g, t) && Fits(t[|t| - 1] + [item], capacity)
    ensures Ahead(Extend(g, item, capacity), t[|t| - 1 := t[|t| - 1] + [item]])
  {
    PointsOne(t[|t| - 1], item);
    PointsOne([], item);
    assert [] + [item] == [item];
    PointedIffPoints(t[|t| - 1]);
    if g != [] { PointsOne(g[|g| - 1], item); }
  }

  /** A prefix of a good iteration is a good iteration. */
  lemma FitsPrefix(items: seq<Item>, item: Item, capacity: nat)
    requires Fits(items + [item], capacity)
    ensures Fits(items, capacity)
  {
    PointsOne(items, item);
    PointedIffPoints(items);
  }

  lemma {:induction false} GreedyAhead(backlog: seq<Item>, split: seq<seq<Item>>, capacity: nat)
    requires Flat(split) == backlog && forall k | 0 <= k < |split| :: Fits(split[k], capacity)
    ensures Ahead(Iterations(backlog, capacity), split)
    decreases |backlog| + |split|
  {
    if split != [] {
      var most, last := split[..|split| - 1], split[|split| - 1];
      if last == [] {
        GreedyAhead(backlog, most, capacity);
      } else {
        var item, head := last[|last| - 1], last[..|last| - 1];
        var shorter := split[|split| - 1 := head];
        assert last == head + [item];
        FlatShorter(split);
        FitsPrefix(head, item, capacity);
        GreedyAhead(Flat(shorter), shorter, capacity);
        AheadStep(Iterations(Flat(shorter), capacity), shorter, item, capacity);
        assert shorter[|split| - 1 := head + [item]] == split;
      }
    }
  }

  /** Taking the last story out of a split takes it out of the backlog. */
  lemma FlatShorter(split: seq<seq<Item>>)
    requires split != [] && split[|split| - 1] != []
    ensures var last := split[|split| - 1];
            var shorter := split[|split| - 1 := last[..|last| - 1]];
            && Flat(split) == Flat(shorter) + [last[|last| - 1]]
            && Flat(split)[..|Flat(split)| - 1] == Flat(shorter)
  {
    var last := split[|split| - 1];
    assert split[|split| - 1 := last[..|last| - 1]][..|split| - 1] == split[..|split| - 1];
    assert last == last[..|last| - 1] + [last[|last| - 1]];
  }

  /** No contiguous split that obeys the rule uses fewer iterations. */
  lemma GreedyIsOptimal(backlog: seq<Item>, split: seq<seq<Item>>, velocity: int)
    requires Flat(split) == backlog
    requires forall k | 0 <= k < |split| :: Points(split[k]) <= velocity || Points(split[k]) <= 1 || Pointed(split[k]) == 1
    ensures |Iterations(backlog, if velocity < 1 then 1 else velocity)| <= |split|
  {
    GreedyAhead(backlog, split, if velocity < 1 then 1 else velocity);
  }

  /** A new iteration opens with a pointed story that did not fit into the one before, which has points. */
  predicate Pushed(before: seq<Item>, next: seq<Item>, capacity: nat) {
    next != [] && Pts(next[0]) > 0 && Points(before) > 0 && Points(before) + Pts(next[0]) > capacity
  }

  predicate Planned(split: seq<seq<Item>>, capacity: nat) {
    && (forall k | 0 <= k < |split| :: split[k] != [] && Fits(split[k], capacity))
    && forall k | 0 < k < |split| :: Pushed(split[k - 1], split[k], capacity)
  }

  lemma {:induction false} IterationsArePlanned(backlog: seq<Item>, capacity: nat)
    ensures Planned(Iterations(backlog, capacity), capacity)
  {
    IterationsAreASplit(backlog, capacity);
    if backlog != [] {
      var most, item := backlog[..|backlog| - 1], backlog[|backlog| - 1];
      var was, split := Iterations(most, capacity), Iterations(backlog, capacity);
      IterationsArePlanned(most, capacity);
      forall k | 0 < k < |split| ensures Pushed(split[k - 1], split[k], capacity) {
        assert k < |was| ==> Pushed(was[k - 1], was[k], capacity);
      }
    }
  }

  /** The plan in terms of the velocity: every story once and in order; each iteration holds at most
      the velocity (at least one point), or one pointed story; and a new one opens only with a pointed
      story that would have pushed the one before, with its points, past that. */
  lemma PlannedByVelocity(backlog: seq<Item>, velocity: int)
    ensures var split, most := Iterations(backlog, if velocity < 1 then 1 else velocity), if velocity < 1 then 1 else velocity;
            && Flat(split) == backlog
            && (forall k | 0 <= k < |split| :: split[k] != [] && (Points(split[k]) <= most || Pointed(split[k]) == 1))
            && (forall k | 0 < k < |split| :: Pushed(split[k - 1], split[k], most))
  {
    var capacity := if velocity < 1 then 1 else velocity;
    IterationsAreASplit(backlog, capacity);
    IterationsArePlanned(backlog, capacity);
  }

  /** And no other plan is like that: these rules determine the split. */
  lemma {:induction false} RulesDetermine(split: seq<seq<Item>>, capacity: nat)
    requires Planned(split, capacity)
    ensures split == Iterations(Flat(split), capacity)
    decreases |Flat(split)|
  {
    if split != [] {
      var last := split[|split| - 1];
      assert Fits(last, capacity) && last != [];
      var item, head := last[|last| - 1], last[..|last| - 1];
      assert last == head + [item];
      FlatShorter(split);
      if head == [] {
        FlatDropped(split);
        RulesDetermine(split[..|split| - 1], capacity);
        assert [item] == last;
      } else {
        HeadPlanned(split, capacity);
        RulesDetermine(split[|split| - 1 := head], capacity);
        StaysOpen(head, item, capacity);
        assert split[|split| - 1 := head][|split| - 1 := head + [item]] == split;
      }
    }
  }

  lemma FlatDropped(split: seq<seq<Item>>)
    requires split != [] && |split[|split| - 1]| == 1
    ensures Flat(split) == Flat(split[..|split| - 1]) + split[|split| - 1]
    ensures Flat(split)[..|Flat(split)| - 1] == Flat(split[..|split| - 1])
  {
  }

  lemma HeadPlanned(split: seq<seq<Item>>, capacity: nat)
    requires Planned(split, capacity) && split != [] && |split[|split| - 1]| > 1
    ensures var last := split[|split| - 1]; Planned(split[|split| - 1 := last[..|last| - 1]], capacity)
  {
    var last := split[|split| - 1];
    var head := last[..|last| - 1];
    var shorter := split[|split| - 1 := head];
    assert last == head + [last[|last| - 1]] && Fits(last, capacity);
    FitsPrefix(head, last[|last| - 1], capacity);
    forall k | 0 < k < |shorter| ensures Pushed(shorter[k - 1], shorter[k], capacity) {
      assert Pushed(split[k - 1], split[k], capacity);
    }
  }

  /** A story that shares an iteration with others did not open one. */
  lemma StaysOpen(head: seq<Item>, item: Item, capacity: nat)
    requires head != [] && Fits(head + [item], capacity)
    ensures !(Pts(item) > 0 && Points(head) > 0 && Points(head) + Pts(item) > capacity)
  {
    PointsOne(head, item);
    PointedIffPoints(head);
  }

  // ----- reading the rows back -----

  /** A header with the stories up to the next one. */
  datatype Shown = Shown(header: BacklogRow, items: seq<Item>)

  /** The rows as a reader groups them. */
  function Grouped(rows: seq<BacklogRow>): seq<Shown> {
    if rows == [] then []
    else
      var before := Grouped(rows[..|rows| - 1]);
      match rows[|rows| - 1]
      case Marker(_, _, _) => before + [Shown(rows[|rows| - 1], [])]
      case StoryRow(item) =>
        if before == [] then []
        else before[|before| - 1 := before[|before| - 1].(items := before[|before| - 1].items + [item])]
  }

  lemma {:induction false} GroupedStories(rows: seq<BacklogRow>, m: BacklogRow, items: seq<Item>)
    requires m.Marker?
    ensures Grouped(rows + [m] + StoryRows(items)) == Grouped(rows) + [Shown(m, items)]
  {
    var all := rows + [m] + StoryRows(items);
    if items == [] {
      assert all[..|all| - 1] == rows;
    } else {
      var most := items[..|items| - 1];
      assert all[..|all| - 1] == rows + [m] + StoryRows(most);
      GroupedStories(rows, m, most);
      assert items == most + [items[|items| - 1]];
    }
  }

  function Headed(split: seq<seq<Item>>, current: Current): seq<Shown> {
    seq(|split|, k requires 0 <= k < |split| => Shown(Header(current, k + 1, Points(split[k])), split[k]))
  }

  lemma {:induction false} HeadedReadBack(split: seq<seq<Item>>, current: Current)
    ensures Grouped(Rendered(split, current)) == Headed(split, current)
  {
    if split != [] {
      var n := |split| - 1;
      HeadedReadBack(split[..n], current);
      GroupedStories(Rendered(split[..n], current), Header(current, n + 1, Points(split[n])), split[n]);
      assert Headed(split, current) == Headed(split[..n], current) + [Shown(Header(current, n + 1, Points(split[n])), split[n])];
    }
  }

  /** The header of the k-th iteration to come, counted from zero: its number, and two hours into
      where its first day begins with 24-hour days. */
  lemma HeaderIs(current: Current, k: nat, points: nat)
    ensures Header(current, k + 1, points) ==
            Marker(current.number + k + 1, current.endAt + k * (current.lengthDays * 86400) + 7200, points)
  {
    var days := current.lengthDays;
    assert k * days * 86400 == k * (days * 86400);
  }

  /** Read back, the rows are the iterations in order, each under a header with its number, its
      date and exactly the points of the stories below it. */
  lemma RowsReadBack(split: seq<seq<Item>>, current: Current, k: nat)
    requires k < |split|
    ensures var shown := Grouped(Rendered(split, current));
            && |shown| == |split| && shown[k].items == split[k]
            && shown[k].header == Marker(current.number + k + 1, current.endAt + k * (current.lengthDays * 86400) + 7200, Points(split[k]))
  {
    HeadedReadBack(split, current);
    HeaderIs(current, k, Points(split[k]));
  }

  /** Boundaries stay within two hours of where 24-hour days would put them. */
  ghost predicate Steady(s: Iteration.Schedule, day: int) {
    forall k: nat :: Iteration.Distance(s.midnight(day + k) - s.midnight(day), DAY * k) <= 2 * HOUR
  }

  /** The nudge keeps a header's date on the first local day of the iteration it heads,
      as long as clock changes stay within two hours. */
  lemma HeaderDay(s: Iteration.Schedule, n: int, offset: int, points: nat)
    requires Iteration.Calendar(s) && offset >= 1 && Steady(s, Iteration.Origin(s) + n * Iteration.Length(s))
    ensures var current := Current(n, Iteration.Number(s, n).end, Iteration.Length(s));
            var day := Iteration.Origin(s) + (n + offset - 1) * Iteration.Length(s);
            && Header(current, offset, points).number == n + offset
            && Iteration.Number(s, n + offset).start == s.midnight(day)
            && s.midnight(day) <= Header(current, offset, points).startAt < s.midnight(day + 1)
  {
    var len, first := Iteration.Length(s), Iteration.Origin(s) + n * Iteration.Length(s);
    var k: nat := (offset - 1) * len;
    assert (n + offset - 1) * len == n * len + k;
    assert Iteration.Distance(s.midnight(first + k) - s.midnight(first), DAY * k) <= 2 * HOUR;
    assert Iteration.Distance(s.midnight(first + (k + 1)) - s.midnight(first), DAY * (k + 1)) <= 2 * HOUR;
  }
}
