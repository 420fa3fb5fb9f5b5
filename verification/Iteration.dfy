/**
  Iterations derived from a project's calendar (internal/iteration/iteration.go).
  Days are numbered so that day 0 is a Sunday; instants are seconds.
 */
module Iteration {

  const DAY: int := 24 * 60 * 60

  /** `midnight(d)` is the instant at which local day `d` begins. */
  datatype Schedule = Schedule(lengthDays: int, startWeekday: int, anchorDay: int, anchor: int, midnight: int -> int)

  predicate Rises(s: Schedule, a: int, b: int) { a < b ==> s.midnight(a) < s.midnight(b) }

  /** Later days begin later, whatever the clock changes; the anchor lies in its day. */
  ghost predicate Calendar(s: Schedule) {
    && (forall a, b :: Rises(s, a, b))
    && 0 <= s.startWeekday <= 6
    && s.midnight(s.anchorDay) <= s.anchor < s.midnight(s.anchorDay + 1)
  }

  datatype Span = Span(number: int, start: int, end: int)

  predicate Contains(it: Span, t: int) { it.start <= t < it.end }

  function Length(s: Schedule): (days: int)
    ensures days >= 1
  {
    if s.lengthDays < 1 then 7 else s.lengthDays
  }

  function Back(s: Schedule): (days: int)
    requires 0 <= s.startWeekday <= 6
    ensures 0 <= days <= 6
  {
    (s.anchorDay % 7 - s.startWeekday + 7) % 7
  }

  /** The first day of iteration 1. */
  function Origin(s: Schedule): int
    requires 0 <= s.startWeekday <= 6
  {
    s.anchorDay - Back(s)
  }

  function Number(s: Schedule, n: int): Span
    requires 0 <= s.startWeekday <= 6
  {
    Span(n, s.midnight(Origin(s) + (n - 1) * Length(s)), s.midnight(Origin(s) + n * Length(s)))
  }

  // ----- iterations tile time -----

  /** The origin is the closest start weekday on or before the anchor's day. */
  lemma OriginIsClosest(s: Schedule, d: int)
    requires 0 <= s.startWeekday <= 6
    ensures Origin(s) % 7 == s.startWeekday && Origin(s) <= s.anchorDay
    ensures d % 7 == s.startWeekday && d <= s.anchorDay ==> d <= Origin(s)
  {
    var a := s.anchorDay;
    assert a == 7 * (a / 7) + a % 7;
    if a % 7 >= s.startWeekday {
      assert Origin(s) == 7 * (a / 7) + s.startWeekday;
    } else {
      assert Origin(s) == 7 * (a / 7 - 1) + s.startWeekday;
    }
  }

  /** Whole iterations between two boundaries. */
  lemma Spaced(n: int, m: int, len: int)
    requires n <= m && len >= 1
    ensures n * len + (m - n) <= m * len
  {
    assert m * len == n * len + (m - n) * len;
    assert (m - n) * (len - 1) >= 0;
  }

  lemma NumbersAscend(s: Schedule, n: int, m: int)
    requires Calendar(s) && n < m
    ensures Number(s, n).start < Number(s, n).end <= Number(s, m).start < Number(s, m).end
  {
    var len := Length(s);
    var o := Origin(s);
    Spaced(n - 1, n, len);
    Spaced(n, m - 1, len);
    Spaced(m - 1, m, len);
    assert Rises(s, o + (n - 1) * len, o + n * len) && Rises(s, o + n * len, o + (m - 1) * len);
    assert Rises(s, o + (m - 1) * len, o + m * len);
  }

  /** Each iteration ends exactly where the next one starts, and is not empty. */
  lemma NumbersTile(s: Schedule, n: int)
    requires Calendar(s)
    ensures Number(s, n).start < Number(s, n).end == Number(s, n + 1).start
  {
    NumbersAscend(s, n, n + 1);
  }

  lemma OnlyOne(s: Schedule, n: int, m: int, t: int)
    requires Calendar(s) && Contains(Number(s, n), t) && Contains(Number(s, m), t)
    ensures n == m
  {
    if n < m {
      NumbersAscend(s, n, m);
    } else if m < n {
      NumbersAscend(s, m, n);
    }
  }

  /** Some iteration from the first on contains `t`. */
  lemma Covering(s: Schedule, t: int) returns (n: int)
    requires Calendar(s) && t >= Number(s, 1).start
    ensures n >= 1 && Contains(Number(s, n), t)
  {
    n := 1;
    while t >= Number(s, n).end
      invariant n >= 1 && Number(s, n).start <= t
      decreases t - Number(s, n).end
    {
      NumbersTile(s, n);
      NumbersTile(s, n + 1);
      n := n + 1;
    }
  }

  /** The number of the iteration containing `t`; instants before iteration 1 count as its. */
  ghost function NumberAt(s: Schedule, t: int): (n: int)
    requires Calendar(s)
    ensures n >= 1
    ensures t >= Number(s, 1).start ==> Contains(Number(s, n), t)
    ensures t < Number(s, 1).start ==> n == 1
  {
    if t < Number(s, 1).start then 1
    else
      assert exists n :: n >= 1 && Contains(Number(s, n), t) by { var n := Covering(s, t); }
      var n :| n >= 1 && Contains(Number(s, n), t);
      n
  }

  /** Between the boundaries of two iterations lie exactly the numbers between them. */
  lemma NumberAtWithin(s: Schedule, t: int, from: int, to: int)
    requires Calendar(s) && 1 <= from
    ensures Number(s, from).start <= t < Number(s, to).start <==> t >= Number(s, 1).start && from <= NumberAt(s, t) < to
  {
    var n := NumberAt(s, t);
    if n < from {
      NumbersAscend(s, n, from);
    } else if from < n {
      NumbersAscend(s, from, n);
    }
    if n < to {
      NumbersAscend(s, n, to);
    } else if to < n {
      NumbersAscend(s, to, n);
    }
    if 1 < from {
      NumbersAscend(s, 1, from);
    }
  }

  /** How many days an iteration is meant to have: what the project says, or a week. */
  function DaysSet(s: Schedule): int { if s.lengthDays >= 1 then s.lengthDays else 7 }

  /** Every iteration spans exactly the days set, from the local midnight of its first day. */
  lemma SpansItsDays(s: Schedule, n: int)
    requires 0 <= s.startWeekday <= 6
    ensures var first := Origin(s) + (n - 1) * DaysSet(s);
            Number(s, n) == Span(n, s.midnight(first), s.midnight(first + DaysSet(s)))
  {
    assert (n - 1) * DaysSet(s) + DaysSet(s) == n * DaysSet(s);
  }

  /** Which iteration a local day is in, by counting days from the origin. */
  lemma DayIteration(s: Schedule, day: int, t: int)
    requires Calendar(s) && day >= Origin(s) && s.midnight(day) <= t < s.midnight(day + 1)
    ensures NumberAt(s, t) == (day - Origin(s)) / DaysSet(s) + 1
  {
    var len, days := DaysSet(s), day - Origin(s);
    assert days == (days / len) * len + days % len;
    DayWithin(s, day, t, days / len);
  }

  lemma DayWithin(s: Schedule, day: int, t: int, n: int)
    requires Calendar(s) && s.midnight(day) <= t < s.midnight(day + 1)
    requires 0 <= n && n * DaysSet(s) <= day - Origin(s) < n * DaysSet(s) + DaysSet(s)
    ensures NumberAt(s, t) == n + 1
  {
    var o, first := Origin(s), Origin(s) + n * DaysSet(s);
    SpansItsDays(s, n + 1);
    assert n * DaysSet(s) >= 0;
    assert Rises(s, o, day) && Rises(s, first, day) && Rises(s, day + 1, first + DaysSet(s));
    OnlyOne(s, n + 1, NumberAt(s, t), t);
  }

  /** The anchor is inside iteration 1 exactly when the iteration is long enough to
      reach it from the start weekday, as every length a project may have is. */
  lemma AnchorInFirst(s: Schedule)
    requires Calendar(s)
    ensures Contains(Number(s, 1), s.anchor) <==> Back(s) < Length(s)
    ensures s.lengthDays >= 7 || s.lengthDays < 1 ==> Contains(Number(s, 1), s.anchor)
  {
    var last := Origin(s) + Length(s);
    assert Rises(s, Origin(s), s.anchorDay) && Rises(s, s.anchorDay + 1, last);
    assert Rises(s, last, s.anchorDay);
  }

  /** One-day iterations from Mondays, and an anchor on a Sunday: iteration 1 is over by then. */
  lemma AnchorAfterFirst() returns (s: Schedule)
    ensures Calendar(s) && s.lengthDays == 1 && s.startWeekday == 1 && s.anchorDay == 0
    ensures Number(s, 1).end <= s.anchor
  {
    s := Schedule(1, 1, 0, 0, d => d * DAY);
  }

  // ----- finding an iteration -----

  /** The guess that takes every day to have 24 hours. */
  function Estimate(s: Schedule, t: int): int
    requires 0 <= s.startWeekday <= 6
  {
    (t - s.midnight(Origin(s))) / (Length(s) * DAY) + 1
  }

  function Distance(a: int, b: int): nat { if a < b then b - a else a - b }

  /** How far the end of iteration `n` is from where 24-hour days would put it. */
  function Drift(s: Schedule, n: nat): nat
    requires 0 <= s.startWeekday <= 6
  {
    Distance(s.midnight(Origin(s) + n * Length(s)) - s.midnight(Origin(s)), DAY * (n * Length(s)))
  }

  /** Clock changes never add up to a whole iteration. */
  ghost predicate SmallDrift(s: Schedule)
    requires 0 <= s.startWeekday <= 6
  {
    forall n: nat :: Drift(s, n) < DAY * Length(s)
  }

  lemma Ordered(unit: int, a: int, b: int)
    requires unit >= 0 && a <= b
    ensures unit * a <= unit * b
  {
    assert unit * (b - a) >= 0;
  }

  lemma Quotient(x: int, n: int, unit: int)
    requires unit > 0 && unit * (n - 2) <= x < unit * (n + 1)
    ensures n - 2 <= x / unit <= n
  {
    var q := x / unit;
    assert unit * q <= x < unit * (q + 1);
    if q < n - 2 {
      Ordered(unit, q + 1, n - 2);
    } else if q > n {
      Ordered(unit, n + 1, q);
    }
  }

  lemma Boundaries(n: int, len: int)
    ensures (len * DAY) * (n - 2) == DAY * ((n - 1) * len) - DAY * len
    ensures (len * DAY) * (n + 1) == DAY * (n * len) + DAY * len
  {
    var p := n * len;
    assert (n - 1) * len == p - len;
    assert len * (n - 2) == p - 2 * len;
    assert len * (n + 1) == p + len;
    assert (len * DAY) * (n - 2) == DAY * (len * (n - 2));
    assert (len * DAY) * (n + 1) == DAY * (len * (n + 1));
  }

  /** The guess for an instant in an iteration whose boundaries drifted little. */
  lemma Guess(o: int, t: int, it: Span, len: int)
    requires len >= 1 && Contains(it, t)
    requires Distance(it.start - o, DAY * ((it.number - 1) * len)) < DAY * len
    requires Distance(it.end - o, DAY * (it.number * len)) < DAY * len
    ensures Distance((t - o) / (len * DAY) + 1, it.number) <= 1
  {
    Boundaries(it.number, len);
    Quotient(t - o, it.number, len * DAY);
  }

  /** With little drift the guess is off by at most one. */
  lemma EstimateWithinOne(s: Schedule, t: int)
    requires Calendar(s) && SmallDrift(s) && t >= Number(s, 1).start
    ensures Distance(Estimate(s, t), NumberAt(s, t)) <= 1
  {
    var n := NumberAt(s, t);
    assert Drift(s, n - 1) < DAY * Length(s) && Drift(s, n) < DAY * Length(s);
    Guess(s.midnight(Origin(s)), t, Number(s, n), Length(s));
  }

  /** A candidate above the right number starts too late, one below ends too early. */
  lemma Side(s: Schedule, n: int, t: int)
    requires Calendar(s) && t >= Number(s, 1).start
    ensures t < Number(s, n).start <==> n > NumberAt(s, t)
    ensures t >= Number(s, n).end <==> n < NumberAt(s, t)
  {
    var m := NumberAt(s, t);
    if n < m {
      NumbersAscend(s, n, m);
    } else if m < n {
      NumbersAscend(s, m, n);
    }
  }

  /** The iteration containing `t`; `steps` is how often the guess had to be corrected. */
  method At(s: Schedule, t: int) returns (it: Span, ghost steps: nat)
    requires Calendar(s)
    ensures it == Number(s, NumberAt(s, t))
    ensures t >= Number(s, 1).start ==> Contains(it, t) && steps == Distance(Estimate(s, t), NumberAt(s, t))
  {
    steps := 0;
    var o := s.midnight(Origin(s));
    assert Number(s, 1).start == o;
    if t < o {
      return Number(s, 1), 0;
    }
    var n := (t - o) / (Length(s) * DAY) + 1;
    it := Number(s, n);
    while t < it.start || t >= it.end
      invariant it == Number(s, n)
      invariant steps + Distance(n, NumberAt(s, t)) == Distance(Estimate(s, t), NumberAt(s, t))
      decreases Distance(n, NumberAt(s, t))
    {
      Side(s, n, t);
      if t < it.start {
        n := n - 1;
      } else {
        n := n + 1;
      }
      steps := steps + 1;
      it := Number(s, n);
    }
    Side(s, n, t);
  }

  /** Iterations `from` to `to`, none before the first. */
  method Range(s: Schedule, from: int, to: int) returns (out: seq<Span>)
    requires 0 <= s.startWeekday <= 6
    ensures var first := if from < 1 then 1 else from;
            && |out| == (if to < first then 0 else to - first + 1)
            && forall i | 0 <= i < |out| :: out[i] == Number(s, first + i)
  {
    var n := if from < 1 then 1 else from;
    var first := n;
    out := [];
    while n <= to
      invariant n == first + |out| && (n <= to + 1 || out == [])
      invariant forall i | 0 <= i < |out| :: out[i] == Number(s, first + i)
    {
      out := out + [Number(s, n)];
      n := n + 1;
    }
  }
}
