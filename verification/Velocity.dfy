/** Iteration history and velocity from the accepted stories (internal/velocity/velocity.go). */
module Velocity {
  import opened Sequences
  import opened Iteration
  import opened StoryModel
  import opened StoryInvariants
  import opened StoryRuns

  const DEFAULT_VELOCITY: int := 10

  datatype Planning = Planning(schedule: Schedule, window: int)

  datatype Bucket = Bucket(points: int, stories: nat)

  const EMPTY_BUCKET := Bucket(0, 0)

  datatype Summary = Summary(span: Span, current: bool, points: int, accepted: nat)

  datatype IterationPoints = IterationPoints(number: int, points: int)

  datatype Report = Report(velocity: int, average: real, window: int, estimated: bool, iterations: seq<IterationPoints>)

  // ----- what is being counted -----

  function Points(st: Story): int {
    if st.estimate.Some? then st.estimate.value else 0
  }

  predicate AcceptedIn(st: Story, project: int, lo: int, hi: int) {
    st.project == project && st.deletedAt.None? && st.acceptedAt.Some? && lo <= st.acceptedAt.value < hi
  }

  /** The live stories of a project accepted in [lo, hi). */
  function Accepted(stories: map<int, Story>, project: int, lo: int, hi: int): set<int> {
    set id | id in stories && AcceptedIn(stories[id], project, lo, hi)
  }

  ghost function Sum(stories: map<int, Story>, ids: set<int>): int
    requires ids <= stories.Keys
  {
    if exists id :: id in ids then
      var id :| id in ids;
      Points(stories[id]) + Sum(stories, ids - {id})
    else 0
  }

  lemma {:induction false} SumWithout(stories: map<int, Story>, ids: set<int>, id: int)
    requires ids <= stories.Keys && id in ids
    ensures Sum(stories, ids) == Points(stories[id]) + Sum(stories, ids - {id})
    decreases ids
  {
    var first :| first in ids && Sum(stories, ids) == Points(stories[first]) + Sum(stories, ids - {first});
    if first != id {
      SumWithout(stories, ids - {first}, id);
      SumWithout(stories, ids - {id}, first);
      assert ids - {first} - {id} == ids - {id} - {first};
    }
  }

  lemma {:induction false} SumUnion(stories: map<int, Story>, a: set<int>, b: set<int>)
    requires a <= stories.Keys && b <= stories.Keys && a !! b
    ensures Sum(stories, a + b) == Sum(stories, a) + Sum(stories, b)
    decreases a
  {
    if exists id :: id in a {
      var id :| id in a;
      SumWithout(stories, a, id);
      SumWithout(stories, a + b, id);
      assert a + b - {id} == (a - {id}) + b;
      SumUnion(stories, a - {id}, b);
    } else {
      assert a == {} && a + b == b;
    }
  }

  /** Iteration `n`'s share of a project's accepted stories. */
  function InIteration(stories: map<int, Story>, project: int, s: Schedule, n: int): set<int>
    requires 0 <= s.startWeekday <= 6
  {
    Accepted(stories, project, Number(s, n).start, Number(s, n).end)
  }

  ghost function BucketAt(stories: map<int, Story>, project: int, s: Schedule, n: int): Bucket
    requires 0 <= s.startWeekday <= 6
  {
    var ids := InIteration(stories, project, s, n);
    Bucket(Sum(stories, ids), |ids|)
  }

  // ----- conservation -----

  ghost function PointsOver(stories: map<int, Story>, project: int, s: Schedule, lo: int, hi: int): int
    requires 0 <= s.startWeekday <= 6 && lo <= hi
    decreases hi - lo
  {
    if lo == hi then 0
    else PointsOver(stories, project, s, lo, hi - 1) + BucketAt(stories, project, s, hi - 1).points
  }

  ghost function StoriesOver(stories: map<int, Story>, project: int, s: Schedule, lo: int, hi: int): nat
    requires 0 <= s.startWeekday <= 6 && lo <= hi
    decreases hi - lo
  {
    if lo == hi then 0
    else StoriesOver(stories, project, s, lo, hi - 1) + BucketAt(stories, project, s, hi - 1).stories
  }

  lemma AcceptedSplit(stories: map<int, Story>, project: int, a: int, b: int, c: int)
    requires a <= b <= c
    ensures Accepted(stories, project, a, c) == Accepted(stories, project, a, b) + Accepted(stories, project, b, c)
    ensures Accepted(stories, project, a, b) !! Accepted(stories, project, b, c)
  {
    forall id ensures id in Accepted(stories, project, a, c) <==> id in Accepted(stories, project, a, b) + Accepted(stories, project, b, c) {
    }
    forall id | id in Accepted(stories, project, a, b) ensures id !in Accepted(stories, project, b, c) {
    }
  }

  /** Iterations `lo` up to `hi` together hold every story accepted between their
      boundaries, each once, with its points. */
  lemma {:induction false} Conserved(stories: map<int, Story>, project: int, s: Schedule, lo: int, hi: int)
    requires Calendar(s) && lo <= hi
    ensures PointsOver(stories, project, s, lo, hi) == Sum(stories, Accepted(stories, project, Number(s, lo).start, Number(s, hi).start))
    ensures StoriesOver(stories, project, s, lo, hi) == |Accepted(stories, project, Number(s, lo).start, Number(s, hi).start)|
    decreases hi - lo
  {
    if lo == hi {
      NoneBetween(stories, project, Number(s, lo).start);
    } else {
      Conserved(stories, project, s, lo, hi - 1);
      OneMoreIteration(stories, project, s, lo, hi);
    }
  }

  lemma NoneBetween(stories: map<int, Story>, project: int, a: int)
    ensures Accepted(stories, project, a, a) == {} && Sum(stories, {}) == 0
  {
    forall id ensures id !in Accepted(stories, project, a, a) {
    }
  }

  lemma OneMoreIteration(stories: map<int, Story>, project: int, s: Schedule, lo: int, hi: int)
    requires Calendar(s) && lo < hi
    ensures var a, b, c := Number(s, lo).start, Number(s, hi - 1).start, Number(s, hi).start;
            && Sum(stories, Accepted(stories, project, a, c)) ==
                 Sum(stories, Accepted(stories, project, a, b)) + BucketAt(stories, project, s, hi - 1).points
            && |Accepted(stories, project, a, c)| == |Accepted(stories, project, a, b)| + BucketAt(stories, project, s, hi - 1).stories
  {
    var a, b, c := Number(s, lo).start, Number(s, hi - 1).start, Number(s, hi).start;
    NumbersTile(s, hi - 1);
    if lo < hi - 1 {
      NumbersAscend(s, lo, hi - 1);
    }
    AcceptedSplit(stories, project, a, b, c);
    SumUnion(stories, Accepted(stories, project, a, b), Accepted(stories, project, b, c));
  }

  // ----- the service -----

  function Get(buckets: map<int, Bucket>, n: int): Bucket {
    if n in buckets then buckets[n] else EMPTY_BUCKET
  }

  ghost predicate Dated(stories: map<int, Story>, rows: set<int>) {
    forall id | id in rows :: id in stories && stories[id].acceptedAt.Some?
  }

  /** Of the rows, those whose iteration is `n`. */
  ghost function Share(stories: map<int, Story>, s: Schedule, rows: set<int>, n: int): (ids: set<int>)
    requires Calendar(s) && Dated(stories, rows)
    ensures ids <= stories.Keys
  {
    set id | id in stories && id in rows && NumberAt(s, stories[id].acceptedAt.value) == n
  }

  ghost function ShareBucket(stories: map<int, Story>, s: Schedule, rows: set<int>, n: int): Bucket
    requires Calendar(s) && Dated(stories, rows)
  {
    Bucket(Sum(stories, Share(stories, s, rows, n)), |Share(stories, s, rows, n)|)
  }

  lemma OneMore(stories: map<int, Story>, s: Schedule, rows: set<int>, id: int, n: int)
    requires Calendar(s) && Dated(stories, rows + {id}) && id !in rows
    ensures var was, st := ShareBucket(stories, s, rows, n), stories[id];
            ShareBucket(stories, s, rows + {id}, n) ==
              if NumberAt(s, st.acceptedAt.value) == n then Bucket(was.points + Points(st), was.stories + 1) else was
  {
    var was, ids := Share(stories, s, rows, n), Share(stories, s, rows + {id}, n);
    if NumberAt(s, stories[id].acceptedAt.value) == n {
      assert ids == was + {id};
      SumWithout(stories, ids, id);
      assert ids - {id} == was;
    } else {
      assert ids == was;
    }
  }

  /** Groups the stories accepted between two iteration boundaries by iteration. */
  method Buckets(stories: map<int, Story>, project: int, s: Schedule, lo: int, hi: int) returns (buckets: map<int, Bucket>)
    requires Calendar(s) && 1 <= lo <= hi
    ensures forall n | lo <= n < hi :: Get(buckets, n) == BucketAt(stories, project, s, n)
  {
    var rows := Accepted(stories, project, Number(s, lo).start, Number(s, hi).start);
    buckets := CountAll(stories, s, rows);
    forall n | lo <= n < hi ensures Share(stories, s, rows, n) == InIteration(stories, project, s, n) {
      ShareIsIteration(stories, project, s, lo, hi, n);
    }
  }

  method CountAll(stories: map<int, Story>, s: Schedule, rows: set<int>) returns (buckets: map<int, Bucket>)
    requires Calendar(s) && Dated(stories, rows)
    ensures forall n :: Get(buckets, n) == ShareBucket(stories, s, rows, n)
  {
    var todo := rows;
    ghost var counted: set<int> := {};
    buckets := map[];
    assert forall n :: Share(stories, s, {}, n) == {};
    while exists id :: id in todo
      invariant counted + todo == rows && counted !! todo
      invariant forall n :: Get(buckets, n) == ShareBucket(stories, s, counted, n)
      decreases todo
    {
      var id :| id in todo;
      var st := stories[id];
      var it, _ := At(s, st.acceptedAt.value);
      forall m {
        OneMore(stories, s, counted, id, m);
      }
      buckets := Count(buckets, it.number, st);
      todo, counted := todo - {id}, counted + {id};
    }
    assert todo == {};
    assert counted == rows;
  }

  /** One accepted story goes into its bucket. */
  method Count(before: map<int, Bucket>, n: int, st: Story) returns (buckets: map<int, Bucket>)
    ensures forall m :: Get(buckets, m) ==
                          if m == n then Bucket(Get(before, n).points + Points(st), Get(before, n).stories + 1) else Get(before, m)
  {
    var b := Get(before, n);
    b := b.(stories := b.stories + 1);
    if st.estimate.Some? {
      b := b.(points := b.points + st.estimate.value);
    }
    buckets := before[n := b];
  }

  lemma ShareIsIteration(stories: map<int, Story>, project: int, s: Schedule, lo: int, hi: int, n: int)
    requires Calendar(s) && 1 <= lo <= n < hi
    ensures Share(stories, s, Accepted(stories, project, Number(s, lo).start, Number(s, hi).start), n) == InIteration(stories, project, s, n)
  {
    var rows := Accepted(stories, project, Number(s, lo).start, Number(s, hi).start);
    forall id ensures id in Share(stories, s, rows, n) <==> id in InIteration(stories, project, s, n) {
      if id in stories && stories[id].acceptedAt.Some? {
        InShare(s, stories[id].acceptedAt.value, lo, hi, n);
      }
    }
  }

  lemma InShare(s: Schedule, t: int, lo: int, hi: int, n: int)
    requires Calendar(s) && 1 <= lo <= n < hi
    ensures Number(s, lo).start <= t < Number(s, hi).start && NumberAt(s, t) == n <==> Contains(Number(s, n), t)
  {
    NumbersTile(s, n);
    NumberAtWithin(s, t, n, n + 1);
    NumberAtWithin(s, t, lo, hi);
  }

  ghost function History(stories: map<int, Story>, project: int, s: Schedule, current: nat): (h: seq<Summary>)
    requires Calendar(s)
    ensures |h| == current
  {
    seq(current, i requires 0 <= i < current =>
      var b := BucketAt(stories, project, s, i + 1); Summary(Number(s, i + 1), i + 1 == current, b.points, b.stories))
  }

  function HistoryPoints(h: seq<Summary>): int {
    if h == [] then 0 else HistoryPoints(h[..|h| - 1]) + h[|h| - 1].points
  }

  function HistoryStories(h: seq<Summary>): nat {
    if h == [] then 0 else HistoryStories(h[..|h| - 1]) + h[|h| - 1].accepted
  }

  lemma {:induction false} HistoryOver(stories: map<int, Story>, project: int, s: Schedule, current: nat, n: nat)
    requires Calendar(s) && n <= current
    ensures var h := History(stories, project, s, current)[..n];
            && HistoryPoints(h) == PointsOver(stories, project, s, 1, n + 1)
            && HistoryStories(h) == StoriesOver(stories, project, s, 1, n + 1)
  {
    var all := History(stories, project, s, current);
    if n > 0 {
      HistoryOver(stories, project, s, current, n - 1);
      assert all[..n][..n - 1] == all[..n - 1];
    }
  }

  /** The history shown adds up to the live stories accepted from iteration 1 to the
      end of the current one: their number and their points. */
  lemma HistoryConserves(stories: map<int, Story>, project: int, s: Schedule, current: nat)
    requires Calendar(s)
    ensures var h, all := History(stories, project, s, current),
                          Accepted(stories, project, Number(s, 1).start, Number(s, current).end);
            HistoryPoints(h) == Sum(stories, all) && HistoryStories(h) == |all|
  {
    var h := History(stories, project, s, current);
    HistoryOver(stories, project, s, current, current);
    assert h[..current] == h;
    NumbersTile(s, current);
    Conserved(stories, project, s, 1, current + 1);
  }

  lemma HistoryEntry(stories: map<int, Story>, project: int, s: Schedule, current: nat, i: nat)
    requires Calendar(s) && i < current
    ensures var b := BucketAt(stories, project, s, i + 1);
            History(stories, project, s, current)[i] == Summary(Number(s, i + 1), i + 1 == current, b.points, b.stories)
  {
  }

  /** Every iteration up to the current one, with the points and stories accepted in it. */
  method Iterations(projects: map<int, Planning>, stories: map<int, Story>, project: int, now: int) returns (r: Result<seq<Summary>>)
    requires project in projects ==> Calendar(projects[project].schedule)
    ensures r == if project in projects
                 then Ok(History(stories, project, projects[project].schedule, NumberAt(projects[project].schedule, now)))
                 else Err(NotFound)
  {
    if project !in projects {
      return Err(NotFound);
    }
    var s := projects[project].schedule;
    var current, _ := At(s, now);
    NumbersTile(s, current.number);
    var buckets := Buckets(stories, project, s, 1, current.number + 1);
    var out := Summaries(stories, project, s, current.number, buckets);
    return Ok(out);
  }

  method Summaries(ghost stories: map<int, Story>, ghost project: int, s: Schedule, current: nat, buckets: map<int, Bucket>)
    returns (out: seq<Summary>)
    requires Calendar(s) && current >= 1
    requires forall n | 1 <= n <= current :: Get(buckets, n) == BucketAt(stories, project, s, n)
    ensures out == History(stories, project, s, current)
  {
    var all := Range(s, 1, current);
    out := [];
    ghost var history := History(stories, project, s, current);
    var i := 0;
    while i < |all|
      invariant 0 <= i <= |all| && out == history[..i]
    {
      var b := Get(buckets, all[i].number);
      HistoryEntry(stories, project, s, current, i);
      out := out + [Summary(all[i], all[i].number == current, b.points, b.stories)];
      assert history[..i + 1] == history[..i] + [history[i]];
      i := i + 1;
    }
    assert history[..i] == history;
  }

  /** Integer division as the service does it, toward zero. */
  function Truncated(a: int, b: int): (q: int)
    requires b > 0
    ensures a >= 0 ==> q * b <= a < (q + 1) * b
  {
    if a >= 0 then a / b else -(-a / b)
  }

  function First(current: int, window: int): int { if 1 < current - window then current - window else 1 }

  /** The report over iterations `first` up to the current one: their points are those of
      the full history, and the velocity averages every story accepted between their boundaries. */
  ghost function Measure(p: Planning, stories: map<int, Story>, project: int, first: int, current: int): Report
    requires Calendar(p.schedule) && first < current
  {
    var s, n := p.schedule, current - first;
    var total := Sum(stories, Accepted(stories, project, Number(s, first).start, Number(s, current).start));
    Report(Truncated(total, n), total as real / n as real, p.window, false, PointsFrom(stories, project, s, first, n))
  }

  ghost function PointsFrom(stories: map<int, Story>, project: int, s: Schedule, first: int, n: nat): (points: seq<IterationPoints>)
    requires 0 <= s.startWeekday <= 6
    ensures |points| == n
    ensures forall i | 0 <= i < n :: points[i] == IterationPoints(first + i, BucketAt(stories, project, s, first + i).points)
  {
    seq(n, i requires 0 <= i < n => IterationPoints(first + i, BucketAt(stories, project, s, first + i).points))
  }

  /** The window is the last completed iterations, as many as there are; with none, the default. */
  ghost function Expected(p: Planning, stories: map<int, Story>, project: int, current: int): Report
    requires Calendar(p.schedule)
  {
    var first := First(current, p.window);
    if first >= current then Report(DEFAULT_VELOCITY, DEFAULT_VELOCITY as real, p.window, true, [])
    else Measure(p, stories, project, first, current)
  }

  /** One story counts with its estimate, or not at all. */
  lemma SumOfOne(stories: map<int, Story>, id: int)
    requires id in stories
    ensures Sum(stories, {id}) == if stories[id].estimate.Some? then stories[id].estimate.value else 0
  {
    SumWithout(stories, {id}, id);
    assert {id} - {id} == {};
    NoneBetween(stories, 0, 0);
  }

  /** How many completed iterations the velocity looks at. */
  function LookedAt(window: int, current: int): int {
    if window < 1 || current <= 1 then 0 else if window < current - 1 then window else current - 1
  }

  /** A report over the `n` iterations before the current one, each with the points of the live
      stories accepted in it, and their average. */
  ghost predicate Covers(r: Report, stories: map<int, Story>, project: int, s: Schedule, current: int, n: nat)
    requires Calendar(s)
  {
    && |r.iterations| == n
    && (forall i | 0 <= i < n ::
          r.iterations[i] == IterationPoints(current - n + i, Sum(stories, Earned(stories, project, Number(s, current - n + i)))))
    && (n > 0 ==> r.average == HistoryOf(r.iterations) as real / n as real)
  }

  /** The report is about the last completed iterations, as many as the window asks for and there
      are. With none, the velocity is ten. */
  lemma WindowIsLast(p: Planning, stories: map<int, Story>, project: int, current: int)
    requires Calendar(p.schedule) && current >= 1
    ensures var r, n := Expected(p, stories, project, current), LookedAt(p.window, current);
            && r.window == p.window && r.estimated == (n == 0)
            && (n == 0 ==> r.velocity == 10 && r.average == 10.0)
            && Covers(r, stories, project, p.schedule, current, n)
  {
    ExpectedIs(p, stories, project, current);
    if LookedAt(p.window, current) > 0 {
      MeasureCovers(p, stories, project, current, LookedAt(p.window, current));
    }
  }

  lemma MeasureCovers(p: Planning, stories: map<int, Story>, project: int, current: int, n: nat)
    requires Calendar(p.schedule) && n > 0
    ensures Covers(Measure(p, stories, project, current - n, current), stories, project, p.schedule, current, n)
  {
    var r := Measure(p, stories, project, current - n, current);
    MeasuredAverage(p, stories, project, current, n);
    forall i | 0 <= i < n
      ensures r.iterations[i] == IterationPoints(current - n + i, Sum(stories, Earned(stories, project, Number(p.schedule, current - n + i))))
    {
      EarnedIs(stories, project, p.schedule, current - n + i);
    }
  }

  lemma ExpectedIs(p: Planning, stories: map<int, Story>, project: int, current: int)
    requires Calendar(p.schedule) && current >= 1
    ensures var n := LookedAt(p.window, current);
            Expected(p, stories, project, current) ==
              if n == 0 then Report(10, 10.0, p.window, true, []) else Measure(p, stories, project, current - n, current)
  {
  }

  lemma MeasuredAverage(p: Planning, stories: map<int, Story>, project: int, current: int, n: nat)
    requires Calendar(p.schedule) && n > 0
    ensures var r := Measure(p, stories, project, current - n, current);
            |r.iterations| == n && r.average == HistoryOf(r.iterations) as real / n as real
  {
    PointsAddUp(PointsFrom(stories, project, p.schedule, current - n, n), stories, project, p.schedule, current - n);
    Conserved(stories, project, p.schedule, current - n, current);
  }

  lemma EarnedIs(stories: map<int, Story>, project: int, s: Schedule, n: int)
    requires 0 <= s.startWeekday <= 6
    ensures InIteration(stories, project, s, n) == Earned(stories, project, Number(s, n))
  {
    forall id ensures id in InIteration(stories, project, s, n) <==> id in Earned(stories, project, Number(s, n)) {
    }
  }

  /** The live stories of the project accepted in the iteration. */
  function Earned(stories: map<int, Story>, project: int, it: Span): (ids: set<int>)
    ensures ids <= stories.Keys
  {
    set id | id in stories && stories[id].project == project && stories[id].deletedAt.None? &&
             stories[id].acceptedAt.Some? && Contains(it, stories[id].acceptedAt.value)
  }

  function HistoryOf(points: seq<IterationPoints>): int {
    if points == [] then 0 else HistoryOf(points[..|points| - 1]) + points[|points| - 1].points
  }

  lemma {:induction false} PointsAddUp(
    points: seq<IterationPoints>, stories: map<int, Story>, project: int, s: Schedule, first: int)
    requires 0 <= s.startWeekday <= 6
    requires forall i | 0 <= i < |points| :: points[i].points == BucketAt(stories, project, s, first + i).points
    ensures HistoryOf(points) == PointsOver(stories, project, s, first, first + |points|)
  {
    if points != [] {
      PointsAddUp(points[..|points| - 1], stories, project, s, first);
    }
  }

  /** Each entry of the history counts the live stories accepted in its iteration, and their points. */
  lemma HistoryIs(stories: map<int, Story>, project: int, s: Schedule, current: nat, i: nat)
    requires Calendar(s) && i < current
    ensures var it := Number(s, i + 1);
            History(stories, project, s, current)[i] ==
              Summary(it, i + 1 == current, Sum(stories, Earned(stories, project, it)), |Earned(stories, project, it)|)
  {
    EarnedIs(stories, project, s, i + 1);
  }

  lemma {:induction false} SumNonnegative(stories: map<int, Story>, ids: set<int>)
    requires ids <= stories.Keys && forall id | id in ids :: Points(stories[id]) >= 0
    ensures Sum(stories, ids) >= 0
    decreases ids
  {
    if exists id :: id in ids {
      var id :| id in ids && Sum(stories, ids) == Points(stories[id]) + Sum(stories, ids - {id});
      SumNonnegative(stories, ids - {id});
    }
  }

  lemma Dividing(a: real, b: real, n: real)
    requires n > 0.0
    ensures a * n <= b <==> a <= b / n
  {
    assert b / n * n == b;
    assert (b / n - a) * n == b - a * n;
  }

  lemma FloorOf(total: int, q: int, n: int)
    requires n > 0 && q * n <= total < (q + 1) * n
    ensures q as real <= total as real / n as real < (q + 1) as real
  {
    Dividing(q as real, total as real, n as real);
    Dividing((q + 1) as real, total as real, n as real);
    assert (q * n) as real == q as real * n as real && ((q + 1) * n) as real == (q + 1) as real * n as real;
  }

  /** No estimate being negative, the velocity is the mean rounded down. */
  lemma VelocityIsFloor(p: Planning, stories: map<int, Story>, project: int, first: int, current: int)
    requires Calendar(p.schedule) && first < current && forall id | id in stories :: Points(stories[id]) >= 0
    ensures var r := Measure(p, stories, project, first, current);
            r.velocity as real <= r.average < (r.velocity + 1) as real
  {
    var ids := Accepted(stories, project, Number(p.schedule, first).start, Number(p.schedule, current).start);
    SumNonnegative(stories, ids);
    FloorOf(Sum(stories, ids), Truncated(Sum(stories, ids), current - first), current - first);
  }

  /** And in a reachable store none is. */
  lemma ReachableVelocityIsFloor(run: seq<Db>, i: nat, p: Planning, project: int, first: int, current: int)
    requires Run(run) && i < |run| && Calendar(p.schedule) && first < current
    ensures var r := Measure(p, run[i].stories, project, first, current);
            r.velocity as real <= r.average < (r.velocity + 1) as real
  {
    RunKeepsInvariants(run, i);
    var db := run[i];
    forall id | id in db.stories ensures Points(db.stories[id]) >= 0 {
      assert RowOk(db.projects, db.stories[id]);
    }
    VelocityIsFloor(p, db.stories, project, first, current);
  }

  /** The average of the last completed iterations, rounded down; a default when there are none. */
  method Velocity(projects: map<int, Planning>, stories: map<int, Story>, project: int, now: int) returns (r: Result<Report>)
    requires project in projects ==> Calendar(projects[project].schedule)
    ensures r == if project in projects
                 then Ok(Expected(projects[project], stories, project, NumberAt(projects[project].schedule, now)))
                 else Err(NotFound)
  {
    if project !in projects {
      return Err(NotFound);
    }
    var p := projects[project];
    var current, _ := At(p.schedule, now);
    var first := First(current.number, p.window);
    var completed := Range(p.schedule, first, current.number - 1);
    if |completed| == 0 {
      return Ok(Report(DEFAULT_VELOCITY, DEFAULT_VELOCITY as real, p.window, true, []));
    }
    var report := Measured(p, stories, project, first, current.number, completed);
    return Ok(report);
  }

  method Measured(
      p: Planning, stories: map<int, Story>, project: int, ghost first: int, current: int, completed: seq<Span>)
    returns (r: Report)
    requires Calendar(p.schedule) && 1 <= first < current && |completed| == current - first
    requires forall i | 0 <= i < |completed| :: completed[i] == Number(p.schedule, first + i)
    ensures r == Measure(p, stories, project, first, current)
  {
    var buckets := Buckets(stories, project, p.schedule, completed[0].number, current);
    var total, points := Tally(stories, project, p.schedule, buckets, first, completed);
    Conserved(stories, project, p.schedule, first, current);
    r := Report(Truncated(total, |completed|), total as real / |completed| as real, p.window, false, points);
  }

  /** Adds up the completed iterations. */
  method Tally(
      ghost stories: map<int, Story>, ghost project: int, ghost s: Schedule, buckets: map<int, Bucket>, ghost first: int, completed: seq<Span>)
    returns (total: int, points: seq<IterationPoints>)
    requires 0 <= s.startWeekday <= 6
    requires forall i | 0 <= i < |completed| :: completed[i] == Number(s, first + i)
    requires forall n | first <= n < first + |completed| :: Get(buckets, n) == BucketAt(stories, project, s, n)
    ensures total == PointsOver(stories, project, s, first, first + |completed|)
    ensures points == PointsFrom(stories, project, s, first, |completed|)
  {
    total, points := 0, [];
    ghost var all := PointsFrom(stories, project, s, first, |completed|);
    var i := 0;
    while i < |completed|
      invariant 0 <= i <= |completed| && points == all[..i]
      invariant total == PointsOver(stories, project, s, first, first + i)
    {
      var b := Get(buckets, completed[i].number);
      total := total + b.points;
      points := points + [IterationPoints(completed[i].number, b.points)];
      assert all[..i + 1] == all[..i] + [all[i]];
      i := i + 1;
    }
    assert all[..i] == all;
  }
}
