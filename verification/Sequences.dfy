/** Options, results and the list operations every ordering statement is made of. */
module Sequences {

  datatype Option<+T> = None | Some(value: T)

  /** The kinds of refusal the services answer with (internal/apperr). */
  datatype Error = Invalid | NotFound | Forbidden

  datatype Result<+T> = Ok(value: T) | Err(error: Error) {
    predicate IsFailure() { Err? }

    function PropagateFailure<U>(): Result<U>
      requires Err?
    {
      Err(error)
    }

    function Extract(): T
      requires Ok?
    {
      value
    }
  }

  function InsertAt<T>(s: seq<T>, k: nat, x: T): seq<T>
    requires k <= |s|
  {
    s[..k] + [x] + s[k..]
  }

  /** `s` without the elements of `gone`, in the old order. */
  function Minus<T(==)>(s: seq<T>, gone: set<T>): seq<T> {
    if s == [] then []
    else
      var rest := Minus(s[..|s| - 1], gone);
      if s[|s| - 1] in gone then rest else rest + [s[|s| - 1]]
  }

  /** The first position of `x`, or -1. */
  function IndexOf<T(==)>(s: seq<T>, x: T): (i: int)
    ensures -1 <= i < |s|
    ensures i >= 0 ==> s[i] == x
    ensures i >= 0 <==> x in s
    ensures forall k | 0 <= k < |s| && (i < 0 || k < i) :: s[k] != x
  {
    if s == [] then -1
    else if s[0] == x then 0
    else
      var j := IndexOf(s[1..], x);
      assert s == [s[0]] + s[1..];
      if j < 0 then -1 else j + 1
  }

  /** The first occurrences of `s`, in order. */
  function Distinct<T(==)>(s: seq<T>): seq<T> {
    if s == [] then []
    else
      var rest := Distinct(s[..|s| - 1]);
      if s[|s| - 1] in rest then rest else rest + [s[|s| - 1]]
  }

  ghost predicate NoDup<T>(s: seq<T>) {
    forall i, j | 0 <= i < j < |s| :: s[i] != s[j]
  }

  lemma {:induction false} MinusMembers<T>(s: seq<T>, gone: set<T>)
    ensures forall x :: x in Minus(s, gone) <==> x in s && x !in gone
  {
    if s != [] {
      MinusMembers(s[..|s| - 1], gone);
      assert s == s[..|s| - 1] + [s[|s| - 1]];
    }
  }

  lemma {:induction false} MinusAppend<T>(s: seq<T>, t: seq<T>, gone: set<T>)
    ensures Minus(s + t, gone) == Minus(s, gone) + Minus(t, gone)
  {
    if t == [] {
      assert s + t == s;
    } else {
      var u := t[..|t| - 1];
      assert (s + t)[..|s + t| - 1] == s + u;
      MinusAppend(s, u, gone);
    }
  }

  lemma {:induction false} MinusTwice<T>(s: seq<T>, a: set<T>, b: set<T>)
    ensures Minus(Minus(s, a), b) == Minus(s, a + b)
  {
    if s != [] {
      var u, last := s[..|s| - 1], [s[|s| - 1]];
      MinusTwice(u, a, b);
      MinusAppend(Minus(u, a), last, b);
    }
  }

  lemma {:induction false} MinusNothing<T>(s: seq<T>, gone: set<T>)
    requires forall x | x in s :: x !in gone
    ensures Minus(s, gone) == s
  {
    if s != [] {
      assert forall x | x in s[..|s| - 1] :: x in s;
      MinusNothing(s[..|s| - 1], gone);
      assert s[|s| - 1] in s;
    }
  }

  lemma {:induction false} DistinctMembers<T>(s: seq<T>)
    ensures forall x :: x in Distinct(s) <==> x in s
    ensures NoDup(Distinct(s))
  {
    if s != [] {
      DistinctMembers(s[..|s| - 1]);
      assert s == s[..|s| - 1] + [s[|s| - 1]];
    }
  }

  lemma {:induction false} NoDupSize<T>(s: seq<T>)
    requires NoDup(s)
    ensures |set x | x in s| == |s|
  {
    if s != [] {
      var u, x := s[..|s| - 1], s[|s| - 1];
      NoDupSize(u);
      assert (set y | y in s) == (set y | y in u) + {x};
    }
  }
}
