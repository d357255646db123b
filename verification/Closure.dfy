/** Reachability over a finite relation, as the recursive queries of the store
    database compute it: seeds, then a round of successors, until a round adds
    nothing. */
module Closure {

  /** The relation: each node with the nodes one step away. */
  type Edges<T> = map<T, set<T>>

  function Succ<T>(edges: Edges<T>, x: T): set<T> {
    if x in edges then edges[x] else {}
  }

  function Next<T>(edges: Edges<T>, s: set<T>): set<T> {
    set x, y | x in s && x in edges && y in edges[x] :: y
  }

  ghost predicate Closed<T(!new)>(edges: Edges<T>, s: set<T>) {
    forall x, y :: x in s && y in Succ(edges, x) ==> y in s
  }

  /** The least set that holds the seeds and is closed under the relation.
      `CloseLeast` and `ReachedByWalk` give its two characterisations. */
  function Close<T(!new)>(edges: Edges<T>, seeds: set<T>): (r: set<T>)
    ensures seeds <= r
    ensures Closed(edges, r)
    decreases |Next(edges, edges.Keys) - seeds|
  {
    var next := Next(edges, seeds);
    if next <= seeds then seeds else
      RoundShrinks(edges, seeds);
      Close(edges, seeds + next)
  }

  /** A round that adds a node leaves fewer nodes to add. */
  lemma RoundShrinks<T(!new)>(edges: Edges<T>, seeds: set<T>)
    requires !(Next(edges, seeds) <= seeds)
    ensures |Next(edges, edges.Keys) - (seeds + Next(edges, seeds))| < |Next(edges, edges.Keys) - seeds|
  {
    var y :| y in Next(edges, seeds) && y !in seeds;
    assert y in Next(edges, edges.Keys) - seeds;
    SubsetSize(Next(edges, edges.Keys) - (seeds + Next(edges, seeds)), Next(edges, edges.Keys) - seeds);
  }

  lemma SubsetSize<T>(a: set<T>, b: set<T>)
    requires a < b
    ensures |a| < |b|
  {
    var x :| x in b && x !in a;
    assert a <= b - {x};
    SubsetSizeLe(a, b - {x});
  }

  lemma {:induction false} SubsetSizeLe<T>(a: set<T>, b: set<T>)
    requires a <= b
    ensures |a| <= |b|
  {
    if a != {} {
      var x :| x in a;
      SubsetSizeLe(a - {x}, b - {x});
    }
  }

  /** `Close` is inside every closed set that holds the seeds. */
  lemma {:induction false} CloseLeast<T(!new)>(edges: Edges<T>, seeds: set<T>, s: set<T>)
    requires seeds <= s && Closed(edges, s)
    ensures Close(edges, seeds) <= s
    decreases |Next(edges, edges.Keys) - seeds|
  {
    var next := Next(edges, seeds);
    forall y | y in next
      ensures y in s
    {
      var x :| x in seeds && x in edges && y in edges[x];
      assert y in Succ(edges, x);
    }
    if !(next <= seeds) {
      RoundShrinks(edges, seeds);
      CloseLeast(edges, seeds + next, s);
    }
  }

  /** Fewer edges reach fewer nodes. */
  lemma CloseEdgesMonotone<T(!new)>(small: Edges<T>, large: Edges<T>, a: set<T>, b: set<T>)
    requires a <= b
    requires forall x :: x in small ==> small[x] <= Succ(large, x)
    ensures Close(small, a) <= Close(large, b)
  {
    CloseLeast(small, a, Close(large, b));
  }

  /** A walk along the relation that starts at a seed. */
  ghost predicate Walk<T(!new)>(edges: Edges<T>, seeds: set<T>, w: seq<T>) {
    && |w| > 0
    && w[0] in seeds
    && forall i :: 0 < i < |w| ==> w[i] in Succ(edges, w[i - 1])
  }

  ghost predicate Reaches<T(!new)>(edges: Edges<T>, seeds: set<T>, x: T) {
    exists w :: Walk(edges, seeds, w) && w[|w| - 1] == x
  }

  lemma {:induction false} WalkStays<T(!new)>(edges: Edges<T>, seeds: set<T>, s: set<T>, w: seq<T>)
    requires seeds <= s && Closed(edges, s) && Walk(edges, seeds, w)
    ensures w[|w| - 1] in s
  {
    if |w| > 1 {
      WalkStays(edges, seeds, s, w[..|w| - 1]);
    }
  }

  lemma {:induction false} CloseReached<T(!new)>(edges: Edges<T>, seeds: set<T>, base: set<T>, x: T)
    requires forall y :: y in seeds ==> Reaches(edges, base, y)
    requires x in Close(edges, seeds)
    ensures Reaches(edges, base, x)
    decreases |Next(edges, edges.Keys) - seeds|
  {
    var next := Next(edges, seeds);
    if !(next <= seeds) {
      forall y | y in next
        ensures Reaches(edges, base, y)
      {
        var p :| p in seeds && p in edges && y in edges[p];
        var w :| Walk(edges, base, w) && w[|w| - 1] == p;
        assert Walk(edges, base, w + [y]);
        assert (w + [y])[|w + [y]| - 1] == y;
      }
      RoundShrinks(edges, seeds);
      CloseReached(edges, seeds + next, base, x);
    }
  }

  /** The closure is exactly what a walk from a seed can reach. */
  lemma ReachedByWalk<T(!new)>(edges: Edges<T>, seeds: set<T>, x: T)
    ensures x in Close(edges, seeds) <==> Reaches(edges, seeds, x)
  {
    if x in Close(edges, seeds) {
      forall y | y in seeds
        ensures Reaches(edges, seeds, y)
      {
        assert Walk(edges, seeds, [y]) && [y][|[y]| - 1] == y;
      }
      CloseReached(edges, seeds, seeds, x);
    }
    if Reaches(edges, seeds, x) {
      var w :| Walk(edges, seeds, w) && w[|w| - 1] == x;
      WalkStays(edges, seeds, Close(edges, seeds), w);
    }
  }
}
