/**
  The order of one panel of the board, independent of how positions are
  assigned. A panel holds stories with a position each; it is displayed by
  position, ties broken by id (`ORDER BY position, id`).
 */
module Ordering {
  import opened Sequences

  /** The positions of the stories of one panel. Reals, because the browser's
      optimistic copy takes exact midpoints; the server's are integers. */
  type Scope = map<int, real>

  predicate Before(m: Scope, a: int, b: int) {
    a in m && b in m && (m[a] < m[b] || (m[a] == m[b] && a < b))
  }

  ghost predicate Sorted(m: Scope, s: seq<int>) {
    forall i, j | 0 <= i < j < |s| :: Before(m, s[i], s[j])
  }

  /** `s` is what the panel shows: every story once, in order. */
  ghost predicate Displays(m: Scope, s: seq<int>) {
    (forall x :: x in s <==> x in m) && Sorted(m, s)
  }

  lemma {:induction false} DisplayUnique(m: Scope, s: seq<int>, t: seq<int>)
    requires Displays(m, s) && Displays(m, t)
    ensures s == t
    decreases |s|
  {
    if |s| == 0 {
      DisplayEmpty(m, s, t);
    } else {
      if |t| == 0 { DisplayEmpty(m, t, s); }
      var x, y := s[|s| - 1], t[|t| - 1];
      assert x in t && y in s;
      var i :| 0 <= i < |t| && t[i] == x;
      var j :| 0 <= j < |s| && s[j] == y;
      assert i < |t| - 1 ==> Before(m, x, y);
      assert j < |s| - 1 ==> Before(m, y, x);
      assert x == y;
      DropLast(m, s);
      DropLast(m, t);
      DisplayUnique(m - {x}, s[..|s| - 1], t[..|t| - 1]);
      assert s == s[..|s| - 1] + [x] && t == t[..|t| - 1] + [x];
    }
  }

  lemma DisplayEmpty(m: Scope, s: seq<int>, t: seq<int>)
    requires Displays(m, s) && Displays(m, t) && |s| == 0
    ensures |t| == 0
  {
    if |t| > 0 {
      DisplayMember(m, t, 0);
      Displayed(m, s, t[0]);
    }
  }

  lemma Displayed(m: Scope, s: seq<int>, x: int)
    requires Displays(m, s)
    ensures x in s <==> x in m
  {
  }

  lemma DropLast(m: Scope, s: seq<int>)
    requires Displays(m, s) && s != []
    ensures Displays(m - {s[|s| - 1]}, s[..|s| - 1])
  {
    var x, u := s[|s| - 1], s[..|s| - 1];
    assert s == u + [x];
    forall y ensures y in u <==> y in m - {x} {
      if y in u {
        var i :| 0 <= i < |u| && u[i] == y;
        assert Before(m, s[i], s[|s| - 1]);
      }
    }
    forall i, j | 0 <= i < j < |u| ensures Before(m - {x}, u[i], u[j]) {
      assert Before(m, s[i], s[j]);
      assert u[i] in u && u[j] in u;
    }
  }

  lemma {:induction false} SortedMinus(m: Scope, s: seq<int>, gone: set<int>)
    requires Sorted(m, s)
    ensures Sorted(m, Minus(s, gone))
  {
    if s != [] {
      var u, x := s[..|s| - 1], s[|s| - 1];
      SortedMinus(m, u, gone);
      MinusMembers(u, gone);
      var v := Minus(u, gone);
      forall i | 0 <= i < |v| ensures Before(m, v[i], x) {
        assert v[i] in v;
        var k :| 0 <= k < |u| && u[k] == v[i];
        assert Before(m, s[k], s[|s| - 1]);
      }
    }
  }

  /** Taking stories out of a panel leaves the others in their order. */
  lemma DisplayMinus(m: Scope, s: seq<int>, gone: set<int>)
    requires Displays(m, s)
    ensures Displays(m - gone, Minus(s, gone))
  {
    MinusMembers(s, gone);
    SortedMinus(m, s, gone);
    var t := Minus(s, gone);
    forall i, j | 0 <= i < j < |t| ensures Before(m - gone, t[i], t[j]) {
      assert Before(m, t[i], t[j]);
      assert t[i] in t && t[j] in t;
    }
  }

  /** Putting a story at index k of a panel, given how it compares with every other. */
  lemma DisplayWith(m: Scope, s: seq<int>, k: nat, x: int, v: real)
    requires Displays(m, s) && x !in m && k <= |s|
    requires forall i | 0 <= i < k :: Before(m[x := v], s[i], x)
    requires forall j | k <= j < |s| :: Before(m[x := v], x, s[j])
    ensures Displays(m[x := v], InsertAt(s, k, x))
  {
    var m', t := m[x := v], InsertAt(s, k, x);
    assert forall y :: y in t <==> y in s || y == x;
    forall i, j | 0 <= i < j < |t| ensures Before(m', t[i], t[j]) {
      InsertPair(m, s, k, x, v, i, j);
    }
  }

  lemma InsertPair(m: Scope, s: seq<int>, k: nat, x: int, v: real, i: nat, j: nat)
    requires Sorted(m, s) && x !in m && k <= |s| && i < j <= |s|
    requires forall i | 0 <= i < k :: Before(m[x := v], s[i], x)
    requires forall j | k <= j < |s| :: Before(m[x := v], x, s[j])
    ensures Before(m[x := v], InsertAt(s, k, x)[i], InsertAt(s, k, x)[j])
  {
    var t := InsertAt(s, k, x);
    if j < k {
      assert t[i] == s[i] && t[j] == s[j] && Before(m, s[i], s[j]);
    } else if j == k {
      assert t[i] == s[i] && t[j] == x;
    } else if i < k {
      assert t[i] == s[i] && t[j] == s[j - 1] && Before(m, s[i], s[j - 1]);
    } else if i == k {
      assert t[i] == x && t[j] == s[j - 1];
    } else {
      assert t[i] == s[i - 1] && t[j] == s[j - 1] && Before(m, s[i - 1], s[j - 1]);
    }
  }

  /** A position strictly between its neighbours' puts a story exactly there. */
  lemma DisplayInsert(m: Scope, s: seq<int>, k: nat, x: int, v: real)
    requires Displays(m, s) && x !in m && k <= |s|
    requires k > 0 ==> s[k - 1] in m && m[s[k - 1]] < v
    requires k < |s| ==> s[k] in m && v < m[s[k]]
    ensures Displays(m[x := v], InsertAt(s, k, x))
  {
    forall i | 0 <= i < k ensures Before(m[x := v], s[i], x) {
      assert s[i] in s;
      if i < k - 1 { assert Before(m, s[i], s[k - 1]); }
    }
    forall j | k <= j < |s| ensures Before(m[x := v], x, s[j]) {
      assert s[j] in s;
      if k < j { assert Before(m, s[k], s[j]); }
    }
    DisplayWith(m, s, k, x, v);
  }

  /** Every panel has a displayed order. */
  lemma {:induction false} DisplayExists(m: Scope) returns (s: seq<int>)
    ensures Displays(m, s)
    decreases |m.Keys|
  {
    s := [];
    if exists x :: x in m {
      var x :| x in m;
      var rest := m - {x};
      assert rest.Keys == m.Keys - {x};
      var u := DisplayExists(rest);
      DisplayAdded(rest, u, x, m[x]);
      s := InsertAt(u, |Earlier(rest, x, m[x])|, x);
      assert m == rest[x := m[x]];
    }
  }

  /** Any story has a place in the order. */
  lemma SortIndex(m: Scope, s: seq<int>, x: int, v: real) returns (k: nat)
    requires Displays(m, s) && x !in m
    ensures k <= |s|
    ensures forall i | 0 <= i < k :: Before(m[x := v], s[i], x)
    ensures forall j | k <= j < |s| :: Before(m[x := v], x, s[j])
  {
    var m' := m[x := v];
    forall i | 0 <= i < |s| ensures s[i] in m { assert s[i] in s; }
    k := |s|;
    while k > 0 && Before(m', x, s[k - 1])
      invariant 0 <= k <= |s|
      invariant forall j | k <= j < |s| :: Before(m', x, s[j])
    {
      k := k - 1;
    }
    forall i | 0 <= i < k ensures Before(m', s[i], x) {
      assert i < k - 1 ==> Before(m, s[i], s[k - 1]);
    }
  }

  /** The stories that a new one is displayed behind. */
  ghost function Earlier(m: Scope, x: int, v: real): set<int> {
    set y | y in m && Before(m[x := v], y, x)
  }

  /** A new story is displayed right behind those it is ordered after, however many they are. */
  lemma DisplayAdded(m: Scope, s: seq<int>, x: int, v: real)
    requires Displays(m, s) && x !in m
    ensures |Earlier(m, x, v)| <= |s| && Displays(m[x := v], InsertAt(s, |Earlier(m, x, v)|, x))
  {
    var k := SortIndex(m, s, x, v);
    DisplayWith(m, s, k, x, v);
    DisplayNoDup(m, s);
    NoDupSize(s[..k]);
    forall y ensures y in Earlier(m, x, v) <==> y in s[..k] {
      if y in m {
        assert y in s;
        var i :| 0 <= i < |s| && s[i] == y;
        assert i < k ==> s[..k][i] == y;
      }
    }
    assert Earlier(m, x, v) == set y | y in s[..k];
  }

  /** The displayed order of a panel. */
  ghost function Order(m: Scope): (s: seq<int>)
    ensures Displays(m, s)
  {
    assert exists s :: Displays(m, s) by { var s := DisplayExists(m); }
    var s :| Displays(m, s);
    s
  }

  lemma OrderIs(m: Scope, s: seq<int>)
    requires Displays(m, s)
    ensures Order(m) == s
  {
    DisplayUnique(m, Order(m), s);
  }

  lemma DisplayMember(m: Scope, s: seq<int>, i: nat)
    requires Displays(m, s) && i < |s|
    ensures s[i] in m
  {
    assert s[i] in s;
  }

  lemma DisplayNoDup(m: Scope, s: seq<int>)
    requires Sorted(m, s)
    ensures NoDup(s)
  {
    forall i, j | 0 <= i < j < |s| ensures s[i] != s[j] {
      assert Before(m, s[i], s[j]);
    }
  }
}
