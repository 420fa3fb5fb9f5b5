/** Sparse integer positions (internal/story/position.go). */
module Position {
  import opened Sequences

  const GAP: int := 65536
  const INT64_MAX: int := 0x7FFF_FFFF_FFFF_FFFF

  /** A position strictly between two neighbours; no neighbour is `None`. */
  function Between(prev: Option<int>, next: Option<int>): (pos: Option<int>)
    ensures pos.None? <==> prev.Some? && next.Some? && next.value - prev.value < 2
    ensures pos.Some? && prev.Some? ==> prev.value < pos.value
    ensures pos.Some? && next.Some? ==> pos.value < next.value
  {
    if prev.None? && next.None? then Some(GAP)
    else if prev.None? then Some(next.value - GAP)
    else if next.None? then Some(prev.value + GAP)
    else if next.value - prev.value < 2 then None
    else Some(prev.value + (next.value - prev.value) / 2)
  }

  function Spaced(i: nat): int { (i + 1) * GAP }

  /** Fresh positions for a section of n stories, one gap apart. */
  method Normalize(n: nat) returns (out: array<int>)
    ensures fresh(out) && out.Length == n
    ensures forall i | 0 <= i < n :: out[i] == Spaced(i)
  {
    out := new int[n];
    for i := 0 to n
      invariant forall j | 0 <= j < i :: out[j] == Spaced(j)
    {
      out[i] := (i + 1) * GAP;
    }
  }

  /** The midpoint leaves at least half of the room, rounded down, on each side. */
  lemma BetweenHalves(prev: Option<int>, next: Option<int>)
    requires Between(prev, next).Some?
    ensures var pos := Between(prev, next).value;
            && (prev.Some? ==> pos - prev.value >= if next.Some? then (next.value - prev.value) / 2 else GAP)
            && (next.Some? ==> next.value - pos >= if prev.Some? then (next.value - prev.value) / 2 else GAP)
  {
  }

  predicate Within(x: int, n: nat) { -(n * GAP) <= x <= n * GAP }

  /** With every position within n gaps of zero, fewer than 2^46 placements keep
      each number `Between` computes, intermediate ones included, inside int64. */
  lemma BetweenFits(prev: Option<int>, next: Option<int>, n: nat)
    requires n < 0x4000_0000_0000
    requires prev.Some? ==> Within(prev.value, n)
    requires next.Some? ==> Within(next.value, n)
    requires prev.Some? && next.Some? ==> prev.value <= next.value
    ensures Between(prev, next).Some? ==> Within(Between(prev, next).value, n + 1)
    ensures Between(prev, next).Some? ==> -INT64_MAX <= Between(prev, next).value <= INT64_MAX
    ensures prev.Some? && next.Some? ==> 0 <= next.value - prev.value <= INT64_MAX
    ensures forall i | 0 <= i < n :: Within(Spaced(i), n) && Spaced(i) <= INT64_MAX
  {
    assert (n + 1) * GAP == n * GAP + GAP;
    assert n * GAP + GAP <= 0x4000_0000_0000 * GAP;
  }
}
