/** The fixed-window attempt counter (internal/auth/limiter.go). */
module Limiter {

  datatype Entry = Entry(count: int, reset: int)

  /** One attempt and the clock it saw. */
  datatype Call = Call(key: string, at: int)

  datatype Policy = Policy(max: int, window: int)

  datatype Outcome = Outcome(entries: map<string, Entry>, allowed: bool)

  const CROWDED: nat := 10000

  function Unexpired(entries: map<string, Entry>, now: int): map<string, Entry> {
    map k | k in entries && now <= entries[k].reset :: entries[k]
  }

  function Purged(entries: map<string, Entry>, now: int): map<string, Entry> {
    if |entries| > CROWDED then Unexpired(entries, now) else entries
  }

  function Attempt(p: Policy, entries: map<string, Entry>, c: Call): Outcome {
    if c.key !in entries || c.at > entries[c.key].reset then
      Outcome(entries[c.key := Entry(1, c.at + p.window)], true)
    else
      var e := entries[c.key];
      Outcome(entries[c.key := e.(count := e.count + 1)], e.count + 1 <= p.max)
  }

  /** The attempts in order, with or without purging. */
  function After(p: Policy, calls: seq<Call>, n: nat, purging: bool): map<string, Entry>
    requires n <= |calls|
    decreases n, 0
  {
    if n == 0 then map[] else Nth(p, calls, n - 1, purging).entries
  }

  function Nth(p: Policy, calls: seq<Call>, i: nat, purging: bool): Outcome
    requires i < |calls|
    decreases i, 1
  {
    var before := After(p, calls, i, purging);
    Attempt(p, if purging then Purged(before, calls[i].at) else before, calls[i])
  }

  ghost predicate Ordered(calls: seq<Call>) {
    forall i, j | 0 <= i < j < |calls| :: calls[i].at <= calls[j].at
  }

  // ----- purging is invisible -----

  /** What was purged had expired by `now`; the rest is the same. */
  ghost predicate Trimmed(entries: map<string, Entry>, full: map<string, Entry>, now: int) {
    forall k | k in full :: if k in entries then entries[k] == full[k] else full[k].reset < now
  }

  lemma AttemptTrimmed(p: Policy, entries: map<string, Entry>, full: map<string, Entry>, c: Call)
    requires entries.Keys <= full.Keys && Trimmed(entries, full, c.at)
    ensures var e, f := Attempt(p, Purged(entries, c.at), c), Attempt(p, full, c);
            e.allowed == f.allowed && e.entries.Keys <= f.entries.Keys && Trimmed(e.entries, f.entries, c.at)
  {
  }

  lemma {:induction false} StatesAgree(p: Policy, calls: seq<Call>, n: nat)
    requires Ordered(calls) && n <= |calls|
    ensures var e, f := After(p, calls, n, true), After(p, calls, n, false);
            e.Keys <= f.Keys && (n > 0 ==> Trimmed(e, f, calls[n - 1].at))
    ensures n > 0 ==> Nth(p, calls, n - 1, true).allowed == Nth(p, calls, n - 1, false).allowed
  {
    if n > 0 {
      StatesAgree(p, calls, n - 1);
      AttemptTrimmed(p, After(p, calls, n - 1, true), After(p, calls, n - 1, false), calls[n - 1]);
    }
  }

  /** With a clock that does not run backwards, purging never changes an answer. */
  lemma PurgeIsInvisible(p: Policy, calls: seq<Call>, i: nat)
    requires Ordered(calls) && i < |calls|
    ensures Nth(p, calls, i, true).allowed == Nth(p, calls, i, false).allowed
  {
    StatesAgree(p, calls, i + 1);
  }

  // ----- how much gets through -----

  /** The attempts for `key` among the first `n` that were allowed at a time in [a, b]. */
  function Granted(p: Policy, calls: seq<Call>, n: nat, key: string, a: int, b: int): nat
    requires n <= |calls|
  {
    if n == 0 then 0
    else
      var c := calls[n - 1];
      Granted(p, calls, n - 1, key, a, b) +
      if c.key == key && a <= c.at <= b && Nth(p, calls, n - 1, true).allowed then 1 else 0
  }

  /** The first attempt of a window always gets through. */
  function Cap(p: Policy): nat { if p.max < 1 then 1 else p.max }

  function Least(a: int, b: int): int { if a < b then a else b }

  /** What the entry of `key` says about the grants between `a` and a window later:
      windows start more than a window apart, so at most two contribute, and the
      earlier of two without the attempt that opened it. */
  ghost predicate Accounted(p: Policy, entries: map<string, Entry>, granted: nat, key: string, a: int) {
    if key !in entries then granted == 0
    else
      var e := entries[key];
      var start := e.reset - p.window;
      && e.count >= 1
      && (e.reset < a ==> granted == 0)
      && (if start < a then granted <= Least(e.count, Cap(p)) - 1
          else if start == a then granted <= Least(e.count, Cap(p))
          else if start <= a + p.window then granted <= Cap(p) - 1 + Least(e.count, Cap(p))
          else granted <= 2 * Cap(p) - 1)
  }

  lemma AttemptAccounted(p: Policy, entries: map<string, Entry>, granted: nat, c: Call, key: string, a: int)
    requires p.window >= 0 && Accounted(p, entries, granted, key, a)
    requires key in entries ==> c.at >= entries[key].reset - p.window
    ensures var r := Attempt(p, entries, c);
            Accounted(p, r.entries, granted + (if c.key == key && a <= c.at <= a + p.window && r.allowed then 1 else 0), key, a)
  {
  }

  /** Windows opened so far began no later than the last attempt. */
  lemma {:induction false} StartedBefore(p: Policy, calls: seq<Call>, n: nat, key: string)
    requires Ordered(calls) && n <= |calls| && key in After(p, calls, n, false)
    ensures n > 0 && After(p, calls, n, false)[key].reset - p.window <= calls[n - 1].at
  {
    if n > 0 && key in After(p, calls, n - 1, false) {
      StartedBefore(p, calls, n - 1, key);
    }
  }

  lemma {:induction false} RunAccounted(p: Policy, calls: seq<Call>, n: nat, key: string, a: int)
    requires p.window >= 0 && Ordered(calls) && n <= |calls|
    ensures Accounted(p, After(p, calls, n, false), Granted(p, calls, n, key, a, a + p.window), key, a)
  {
    if n > 0 {
      RunAccounted(p, calls, n - 1, key, a);
      PurgeIsInvisible(p, calls, n - 1);
      if key in After(p, calls, n - 1, false) {
        StartedBefore(p, calls, n - 1, key);
      }
      AttemptAccounted(p, After(p, calls, n - 1, false), Granted(p, calls, n - 1, key, a, a + p.window), calls[n - 1], key, a);
    }
  }

  /** In any closed interval as long as the window, fewer than twice `max` attempts get through. */
  lemma FewerThanTwice(p: Policy, calls: seq<Call>, key: string, a: int)
    requires p.window >= 0 && Ordered(calls)
    ensures Granted(p, calls, |calls|, key, a, a + p.window) <= 2 * Cap(p) - 1
  {
    RunAccounted(p, calls, |calls|, key, a);
  }

  /** Attempt `i` opens a window for its key. */
  predicate Opens(p: Policy, calls: seq<Call>, i: nat)
    requires i < |calls|
  {
    var before := After(p, calls, i, false);
    calls[i].key !in before || calls[i].at > before[calls[i].key].reset
  }

  lemma {:induction false} WindowAccounted(p: Policy, calls: seq<Call>, i: nat, n: nat)
    requires p.window >= 0 && Ordered(calls) && i < n <= |calls| && Opens(p, calls, i)
    ensures var key, a, entries := calls[i].key, calls[i].at, After(p, calls, n, false);
            var granted := Granted(p, calls, n, key, a, a + p.window);
            && key in entries && entries[key].count >= 1
            && (if entries[key].reset == a + p.window then granted <= Least(entries[key].count, Cap(p))
                else entries[key].reset > a + 2 * p.window && granted <= Cap(p))
    decreases n
  {
    var key, a := calls[i].key, calls[i].at;
    PurgeIsInvisible(p, calls, n - 1);
    if n == i + 1 {
      RunAccounted(p, calls, i, key, a);
    } else {
      WindowAccounted(p, calls, i, n - 1);
      StartedBefore(p, calls, n - 1, key);
    }
  }

  /** From the attempt that opens a window until it resets, at most `max` get through. */
  lemma AtMostMaxPerWindow(p: Policy, calls: seq<Call>, i: nat)
    requires p.window >= 0 && Ordered(calls) && i < |calls| && Opens(p, calls, i)
    ensures Granted(p, calls, |calls|, calls[i].key, calls[i].at, calls[i].at + p.window) <= Cap(p)
  {
    WindowAccounted(p, calls, i, |calls|);
  }

  function Attempts(calls: seq<Call>, lo: nat, hi: nat, key: string): nat
    requires lo <= hi <= |calls|
    decreases hi - lo
  {
    if lo == hi then 0 else Attempts(calls, lo, hi - 1, key) + if calls[hi - 1].key == key then 1 else 0
  }

  /** A key's entry counts its attempts since the one that opened its window. */
  lemma {:induction false} EntryCounts(p: Policy, calls: seq<Call>, n: nat, key: string) returns (o: nat)
    requires n <= |calls| && key in After(p, calls, n, false)
    ensures o < n && calls[o].key == key && Opens(p, calls, o)
    ensures After(p, calls, n, false)[key] == Entry(Attempts(calls, o, n, key), calls[o].at + p.window)
  {
    if calls[n - 1].key == key && Opens(p, calls, n - 1) {
      o := n - 1;
      assert Attempts(calls, o, o, key) == 0;
    } else {
      o := EntryCounts(p, calls, n - 1, key);
    }
  }

  /** An attempt gets through exactly when it opens a window, or is among the first
      `max` since the one that did. */
  lemma AllowedExactly(p: Policy, calls: seq<Call>, i: nat) returns (o: nat)
    requires Ordered(calls) && i < |calls|
    ensures o <= i && calls[o].key == calls[i].key && Opens(p, calls, o) && (Opens(p, calls, i) ==> o == i)
    ensures calls[i].at <= calls[o].at + p.window || o == i
    ensures Nth(p, calls, i, true).allowed <==> o == i || Attempts(calls, o, i + 1, calls[i].key) <= p.max
  {
    PurgeIsInvisible(p, calls, i);
    if Opens(p, calls, i) {
      o := i;
    } else {
      o := EntryCounts(p, calls, i, calls[i].key);
    }
  }

  /** One attempt at 0, the rest of the window's as it ends, then all of the next one's. */
  function Burst(p: Policy): seq<Call>
    requires p.max >= 1
  {
    seq(2 * p.max, i requires 0 <= i < 2 * p.max =>
      Call("k", if i == 0 then 0 else if i < p.max then p.window else p.window + 1))
  }

  lemma {:induction false} BurstEntries(p: Policy, n: nat)
    requires p.max >= 1 && p.window >= 1 && n <= 2 * p.max
    ensures After(p, Burst(p), n, false) ==
              if n == 0 then map[]
              else map["k" := if n <= p.max then Entry(n, p.window) else Entry(n - p.max, 2 * p.window + 1)]
    ensures n > 0 ==> Nth(p, Burst(p), n - 1, false).allowed
  {
    if n > 0 {
      BurstEntries(p, n - 1);
    }
  }

  lemma {:induction false} BurstCounts(p: Policy, n: nat)
    requires p.max >= 1 && p.window >= 1 && n <= 2 * p.max
    ensures Granted(p, Burst(p), n, "k", 1, p.window + 1) == if n == 0 then 0 else n - 1
  {
    if n > 0 {
      BurstCounts(p, n - 1);
      BurstEntries(p, n);
      PurgeIsInvisible(p, Burst(p), n - 1);
    }
  }

  /** No smaller bound would do: every policy has a burst that reaches it. */
  lemma BoundIsReached(p: Policy)
    requires p.max >= 1 && p.window >= 1
    ensures Ordered(Burst(p)) && Granted(p, Burst(p), |Burst(p)|, "k", 1, p.window + 1) == 2 * p.max - 1
  {
    BurstCounts(p, 2 * p.max);
  }

  // ----- the limiter as the source runs it -----

  class Gate {
    const max: int
    const window: int
    var entries: map<string, Entry>

    constructor (max: int, window: int)
      ensures this.max == max && this.window == window && entries == map[]
    {
      this.max, this.window, entries := max, window, map[];
    }

    method Purge(now: int)
      modifies this
      ensures entries == Unexpired(old(entries), now)
    {
      var todo := entries.Keys;
      while exists k :: k in todo
        invariant todo <= old(entries).Keys
        invariant entries == map k | k in old(entries) && (k in todo || now <= old(entries)[k].reset) :: old(entries)[k]
        decreases todo
      {
        var k :| k in todo;
        if now > entries[k].reset {
          entries := entries - {k};
        }
        todo := todo - {k};
      }
      assert todo == {};
    }

    /** One attempt: counted, and let through or not. */
    method Allow(key: string, now: int) returns (allowed: bool)
      modifies this
      ensures Outcome(entries, allowed) == Attempt(Policy(max, window), Purged(old(entries), now), Call(key, now))
    {
      if |entries| > CROWDED {
        Purge(now);
      }
      if key !in entries || now > entries[key].reset {
        entries := entries[key := Entry(1, now + window)];
        return true;
      }
      var e := entries[key];
      e := e.(count := e.count + 1);
      entries := entries[key := e];
      return e.count <= max;
    }
  }
}
