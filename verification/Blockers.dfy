/** The "blocked by" graph and its depth-bounded search (internal/story/tasks.go). */
module Blockers {
  import opened StoryModel

  type Graph = map<int, seq<int>>

  /** A chain of exactly `n` blocked-by links. */
  ghost predicate Chain(g: Graph, from: int, to: int, n: nat)
    decreases n
  {
    if n == 0 then from == to
    else exists b | b in BlockersOf(g, from) :: Chain(g, b, to, n - 1)
  }

  ghost predicate Reachable(g: Graph, from: int, to: int) {
    exists n: nat :: n >= 1 && Chain(g, from, to, n)
  }

  /** Some chain of `n` links leaves `from`. */
  ghost predicate Deep(g: Graph, from: int, n: nat)
    decreases n
  {
    n == 0 || exists b | b in BlockersOf(g, from) :: Deep(g, b, n - 1)
  }

  ghost predicate Acyclic(g: Graph) {
    forall x :: !Reachable(g, x, x)
  }

  /** The search answers yes exactly when the target is reachable or some chain
      runs past the depth bound. */
  lemma {:induction false} ReachesExactly(g: Graph, from: int, target: int, depth: nat)
    requires depth <= MAX_DEPTH + 1
    ensures Reaches(g, from, target, depth) <==> Reachable(g, from, target) || Deep(g, from, MAX_DEPTH + 1 - depth)
    decreases MAX_DEPTH + 1 - depth
  {
    if depth <= MAX_DEPTH {
      forall b | b in BlockersOf(g, from)
        ensures Reaches(g, b, target, depth + 1) <==> Reachable(g, b, target) || Deep(g, b, MAX_DEPTH - depth)
      {
        ReachesExactly(g, b, target, depth + 1);
      }
      ReachableByFirst(g, from, target);
    }
  }

  lemma ReachableByFirst(g: Graph, from: int, target: int)
    ensures Reachable(g, from, target) <==>
            exists b | b in BlockersOf(g, from) :: b == target || Reachable(g, b, target)
  {
    if Reachable(g, from, target) {
      var n: nat :| n >= 1 && Chain(g, from, target, n);
      var b :| b in BlockersOf(g, from) && Chain(g, b, target, n - 1);
      assert n >= 2 ==> Reachable(g, b, target);
    }
    forall b | b in BlockersOf(g, from) && (b == target || Reachable(g, b, target))
      ensures Reachable(g, from, target)
    {
      if b == target {
        assert Chain(g, b, target, 0);
        assert Chain(g, from, target, 1);
      } else {
        var n: nat :| n >= 1 && Chain(g, b, target, n);
        assert Chain(g, from, target, n + 1);
      }
    }
  }

  /** "Not blocked by" is never wrong, and the answer is reachability itself as
      long as no chain from the start is longer than the bound. */
  lemma ReachesSound(g: Graph, from: int, target: int)
    ensures !Reaches(g, from, target, 0) ==> !Reachable(g, from, target)
    ensures !Deep(g, from, MAX_DEPTH + 1) ==> (Reaches(g, from, target, 0) <==> Reachable(g, from, target))
  {
    ReachesExactly(g, from, target, 0);
  }

  lemma {:induction false} ChainJoin(g: Graph, a: int, b: int, c: int, m: nat, n: nat)
    requires Chain(g, a, b, m) && Chain(g, b, c, n)
    ensures Chain(g, a, c, m + n)
    decreases m
  {
    if m > 0 {
      var x :| x in BlockersOf(g, a) && Chain(g, x, b, m - 1);
      ChainJoin(g, x, b, c, m - 1, n);
    }
  }

  /** A chain over the new links either never leaves through `id`, or gets to
      `id` over the old ones first. */
  lemma {:induction false} ChainSplit(g: Graph, id: int, list: seq<int>, a: int, b: int, n: nat) returns (i: nat)
    requires Chain(g[id := list], a, b, n)
    ensures i <= n
    ensures i == n ==> Chain(g, a, b, n)
    ensures i < n ==> Chain(g, a, id, i) && Chain(g[id := list], a, id, i) && Chain(g[id := list], id, b, n - i)
    decreases n
  {
    var g' := g[id := list];
    if n == 0 {
      i := 0;
    } else if a == id {
      i := 0;
    } else {
      assert BlockersOf(g', a) == BlockersOf(g, a);
      var x :| x in BlockersOf(g', a) && Chain(g', x, b, n - 1);
      var j := ChainSplit(g, id, list, x, b, n - 1);
      i := j + 1;
    }
  }

  /** Replacing a story's blockers by stories it does not already block keeps the graph acyclic. */
  lemma ReplaceKeepsAcyclic(g: Graph, id: int, list: seq<int>)
    requires Acyclic(g)
    requires forall b | b in list :: b != id && !Reachable(g, b, id)
    ensures Acyclic(g[id := list])
  {
    var g' := g[id := list];
    forall x, n: nat | n >= 1 && Chain(g', x, x, n) ensures false {
      var i := ChainSplit(g, id, list, x, x, n);
      if i == n {
        assert Reachable(g, x, x);
      } else {
        ChainJoin(g', id, x, id, n - i, i);
        NoChainBack(g, id, list, n);
      }
    }
  }

  lemma NoChainBack(g: Graph, id: int, list: seq<int>, n: nat)
    requires n >= 1 && forall b | b in list :: b != id && !Reachable(g, b, id)
    ensures !Chain(g[id := list], id, id, n)
  {
    var g' := g[id := list];
    if Chain(g', id, id, n) {
      var c :| c in BlockersOf(g', id) && Chain(g', c, id, n - 1);
      var i := ChainSplit(g, id, list, c, id, n - 1);
    }
  }

  lemma {:induction false} SubgraphChain(g: Graph, h: Graph, a: int, b: int, n: nat)
    requires forall x, y | y in BlockersOf(h, x) :: y in BlockersOf(g, x)
    requires Chain(h, a, b, n)
    ensures Chain(g, a, b, n)
    decreases n
  {
    if n > 0 {
      var x :| x in BlockersOf(h, a) && Chain(h, x, b, n - 1);
      SubgraphChain(g, h, x, b, n - 1);
    }
  }

  /** Removing stories and links keeps the graph acyclic. */
  lemma SubgraphAcyclic(g: Graph, h: Graph)
    requires Acyclic(g) && forall x, y | y in BlockersOf(h, x) :: y in BlockersOf(g, x)
    ensures Acyclic(h)
  {
    forall x, n: nat | n >= 1 && Chain(h, x, x, n) ensures false {
      SubgraphChain(g, h, x, x, n);
      assert Reachable(g, x, x);
    }
  }
}
