/** The delete order of a collection pass: referrers before what they
    reference, weight order breaking ties (`_referrer_first`). */
module ReferrerFirst {
  import opened Ordering
  import Closure

  type Path = string

  /** `dict.fromkeys`: each path once, at its first place. */
  function FirstOccurrences(s: seq<Path>): (r: seq<Path>)
    ensures NoDuplicates(r)
    ensures Elements(r) == Elements(s)
    ensures NoDuplicates(s) ==> r == s
  {
    if |s| == 0 then [] else
      var front, last := s[..|s| - 1], s[|s| - 1];
      var r := FirstOccurrences(front);
      assert s == front + [last];
      ElementsConcat(front, [last]);
      ElementsConcat(r, [last]);
      assert last in front <==> last in r by {
        assert last in front <==> last in Elements(front);
        assert last in r <==> last in Elements(r);
      }
      if last in front then
        assert Elements(front) + Elements([last]) == Elements(front);
        r
      else
        r + [last]
  }

  lemma {:induction false} PlaceInFront(front: seq<Path>, last: Path, p: Path)
    requires p in front + [last]
    ensures IndexOf(front + [last], p) == if p in front then IndexOf(front, p) else |front|
    decreases |front|
  {
    if |front| > 0 && front[0] != p {
      assert (front + [last])[1..] == front[1..] + [last];
      PlaceInFront(front[1..], last, p);
    }
  }

  /** Dropping later occurrences keeps the order of the first ones. */
  lemma {:induction false} FirstOccurrencesKeepOrder(s: seq<Path>, a: Path, b: Path)
    requires a in s && b in s
    ensures a in FirstOccurrences(s) && b in FirstOccurrences(s)
    ensures IndexOf(FirstOccurrences(s), a) < IndexOf(FirstOccurrences(s), b) <==> IndexOf(s, a) < IndexOf(s, b)
    decreases |s|
  {
    var front, last := s[..|s| - 1], s[|s| - 1];
    var r, f := FirstOccurrences(s), FirstOccurrences(front);
    assert s == front + [last];
    assert forall x :: x in r <==> x in Elements(r);
    assert forall x :: x in f <==> x in Elements(f);
    assert forall x :: x in front <==> x in Elements(front);
    assert a in Elements(s) && b in Elements(s);
    PlaceInFront(front, last, a);
    PlaceInFront(front, last, b);
    if a in front && b in front { FirstOccurrencesKeepOrder(front, a, b); }
    if last !in front {
      PlaceInFront(f, last, a);
      PlaceInFront(f, last, b);
    }
  }

  /** Who references whom inside the batch, self-references dropped. */
  type Batch = map<Path, set<Path>>

  function BatchGraph(paths: seq<Path>, references: map<Path, set<Path>>): (children: Batch)
    ensures children.Keys == Elements(paths)
    ensures forall q :: q in children ==> children[q] <= Elements(paths) - {q}
    ensures forall p, q :: q in paths && p in paths && p != q ==> (p in children[q] <==> q in references && p in references[q])
  {
    map q | q in Elements(paths) ::
      (if q in references then references[q] else {}) * (Elements(paths) - {q})
  }

  /** The referrers of `p` among `within`. */
  function Referrers(children: Batch, p: Path, within: set<Path>): set<Path> {
    set q | q in within && q in children && p in children[q]
  }

  /** Nothing in the batch that references `p` is still to come. */
  ghost predicate Ready(children: Batch, emitted: set<Path>, p: Path) {
    && p in children
    && p !in emitted
    && Referrers(children, p, children.Keys - emitted) == {}
  }

  /** What the order promises: every step emits the best-ranked path that is
      ready, and the order ends only when no path is ready. */
  ghost predicate GreedyOrder(paths: seq<Path>, children: Batch, result: seq<Path>) {
    && (forall k :: 0 <= k < |result| ==> GreedyStep(paths, children, result, k))
    && forall p :: !Ready(children, Elements(result), p)
  }

  ghost predicate GreedyStep(paths: seq<Path>, children: Batch, result: seq<Path>, k: nat)
    requires k < |result|
  {
    && Ready(children, Elements(result[..k]), result[k])
    && forall i, j ::
         0 <= i < |paths| && 0 <= j < |paths| && paths[i] == result[k] && Ready(children, Elements(result[..k]), paths[j])
         ==> i <= j
  }

  /** A chain of in-batch referrers upwards from `p`. */
  ghost predicate ReferrerChain(children: Batch, p: Path, w: seq<Path>) {
    && |w| > 0
    && w[0] == p
    && forall i :: 0 < i < |w| ==> w[i] in children && w[i - 1] in children[w[i]]
  }

  /** A cycle among `p` and its transitive in-batch referrers. */
  ghost predicate CycleAbove(children: Batch, p: Path) {
    exists w :: ReferrerChain(children, p, w) && !NoDuplicates(w)
  }

  // ---- what the greedy order means ----

  /** Every in-batch referrer of an emitted path comes before it. */
  lemma ReferrersComeFirst(paths: seq<Path>, children: Batch, result: seq<Path>, k: nat, q: Path)
    requires GreedyOrder(paths, children, result)
    requires k < |result| && q in children && result[k] in children[q]
    ensures exists i :: 0 <= i < k && result[i] == q
  {
    assert GreedyStep(paths, children, result, k);
    var p, later := result[k], children.Keys - Elements(result[..k]);
    assert q in later ==> q in Referrers(children, p, later);
    assert q in result[..k];
  }

  lemma GreedyNoDuplicates(paths: seq<Path>, children: Batch, result: seq<Path>)
    requires GreedyOrder(paths, children, result)
    ensures NoDuplicates(result)
  {
    forall i, j | 0 <= i < j < |result|
      ensures result[i] != result[j]
    {
      assert GreedyStep(paths, children, result, j);
      assert result[..j][i] in Elements(result[..j]);
    }
  }

  /** Along a chain of referrers the places in the order strictly fall. */
  lemma {:induction false} ChainDescends(
      paths: seq<Path>, children: Batch, result: seq<Path>, w: seq<Path>, k: nat) returns (places: seq<nat>)
    requires GreedyOrder(paths, children, result)
    requires k < |result| && ReferrerChain(children, result[k], w)
    ensures |places| == |w|
    ensures forall i :: 0 <= i < |w| ==> places[i] < |result| && result[places[i]] == w[i]
    ensures forall i, j :: 0 <= i < j < |w| ==> places[j] < places[i]
    decreases |w|
  {
    if |w| == 1 {
      places := [k];
    } else {
      var front := w[..|w| - 1];
      places := ChainDescends(paths, children, result, front, k);
      var low := places[|front| - 1];
      ReferrersComeFirst(paths, children, result, low, w[|w| - 1]);
      var i :| 0 <= i < low && result[i] == w[|w| - 1];
      places := places + [i];
    }
  }

  lemma EmittedHasNoCycle(paths: seq<Path>, children: Batch, result: seq<Path>, p: Path)
    requires GreedyOrder(paths, children, result)
    requires p in result
    ensures !CycleAbove(children, p)
  {
    var k :| 0 <= k < |result| && result[k] == p;
    forall w | ReferrerChain(children, p, w)
      ensures NoDuplicates(w)
    {
      var places := ChainDescends(paths, children, result, w, k);
      GreedyNoDuplicates(paths, children, result);
    }
  }

  /** A path that is never emitted has referrer chains of every length among
      the paths that are never emitted. */
  lemma {:induction false} BlockedChain(paths: seq<Path>, children: Batch, result: seq<Path>, p: Path, n: nat)
      returns (w: seq<Path>)
    requires GreedyOrder(paths, children, result)
    requires p in children && p !in result
    ensures |w| == n + 1 && ReferrerChain(children, p, w)
    ensures forall i :: 0 <= i < |w| ==> w[i] in children.Keys - Elements(result)
  {
    if n == 0 {
      w := [p];
    } else {
      w := BlockedChain(paths, children, result, p, n - 1);
      var top := w[n - 1];
      assert !Ready(children, Elements(result), top);
      var q :| q in Referrers(children, top, children.Keys - Elements(result));
      w := w + [q];
    }
  }

  lemma BlockedHasCycle(paths: seq<Path>, children: Batch, result: seq<Path>, p: Path)
    requires GreedyOrder(paths, children, result)
    requires p in children && p !in result
    ensures CycleAbove(children, p)
  {
    var blocked := children.Keys - Elements(result);
    var w := BlockedChain(paths, children, result, p, |blocked|);
    if NoDuplicates(w) {
      ElementsSize(w);
      Closure.SubsetSizeLe(Elements(w), blocked);
    }
  }

  /** The order holds exactly the paths with no cycle above them. */
  lemma EmittedIffAcyclic(paths: seq<Path>, children: Batch, result: seq<Path>, p: Path)
    requires GreedyOrder(paths, children, result)
    ensures p in result <==> p in children && !CycleAbove(children, p)
  {
    if p in result {
      EmittedHasNoCycle(paths, children, result, p);
      var k :| 0 <= k < |result| && result[k] == p;
      assert GreedyStep(paths, children, result, k);
    } else if p in children {
      BlockedHasCycle(paths, children, result, p);
    }
  }

  /** The promise fixes the order: no two results meet it. */
  lemma {:induction false} GreedyUnique(paths: seq<Path>, children: Batch, a: seq<Path>, b: seq<Path>, k: nat)
    requires children.Keys <= Elements(paths)
    requires GreedyOrder(paths, children, a) && GreedyOrder(paths, children, b)
    requires k <= |a|
    ensures k <= |b| && a[..k] == b[..k]
  {
    if k > 0 {
      GreedyUnique(paths, children, a, b, k - 1);
      var same := a[..k - 1];
      assert GreedyStep(paths, children, a, k - 1);
      assert |b| == k - 1 ==> b == same;
      assert !Ready(children, Elements(b), a[k - 1]) && |b| > k - 1;
      assert GreedyStep(paths, children, b, k - 1);
      assert a[k - 1] in Elements(paths) && b[k - 1] in Elements(paths);
      var i :| 0 <= i < |paths| && paths[i] == a[k - 1];
      var j :| 0 <= j < |paths| && paths[j] == b[k - 1];
      assert i <= j && j <= i;
      assert a[..k] == same + [a[k - 1]] && b[..k] == same + [b[k - 1]];
    }
  }

  // ---- the counters and the heap ----

  /** Counts, for each path, its referrers inside the batch. */
  method CountReferrers(paths: seq<Path>, children: Batch) returns (waiting: map<Path, nat>)
    requires NoDuplicates(paths) && children.Keys == Elements(paths)
    requires forall q :: q in children ==> children[q] <= Elements(paths) - {q}
    ensures waiting.Keys == children.Keys
    ensures forall p :: p in waiting ==> waiting[p] == |Referrers(children, p, children.Keys)|
  {
    waiting := map p | p in Elements(paths) :: 0;
    for i := 0 to |paths|
      invariant waiting.Keys == children.Keys
      invariant forall p :: p in waiting ==> waiting[p] == |Referrers(children, p, Elements(paths[..i]))|
    {
      var seen := Elements(paths[..i]);
      assert Elements(paths[..i + 1]) == seen + {paths[i]} by {
        assert paths[..i + 1] == paths[..i] + [paths[i]];
        ElementsConcat(paths[..i], [paths[i]]);
      }
      assert paths[i] in Elements(paths) && paths[i] !in seen;
      waiting := Credit(children, paths[i], seen, waiting);
    }
    assert paths[..|paths|] == paths;
  }

  method Credit(children: Batch, path: Path, ghost seen: set<Path>, before: map<Path, nat>) returns (waiting: map<Path, nat>)
    requires path in children && path !in seen && children[path] <= children.Keys
    requires before.Keys == children.Keys
    requires forall p :: p in before ==> before[p] == |Referrers(children, p, seen)|
    ensures waiting.Keys == children.Keys
    ensures forall p :: p in waiting ==> waiting[p] == |Referrers(children, p, seen + {path})|
  {
    waiting := before;
    var todo := children[path];
    while todo != {}
      invariant todo <= children[path]
      invariant waiting.Keys == children.Keys
      invariant forall p :: p in waiting ==>
                  waiting[p] == before[p] + (if p in children[path] - todo then 1 else 0)
      decreases |todo|
    {
      var ref :| ref in todo;
      waiting := waiting[ref := waiting[ref] + 1];
      todo := todo - {ref};
    }
    forall p | p in waiting
      ensures waiting[p] == |Referrers(children, p, seen + {path})|
    { ReferrersStep(children, p, seen, path); }
  }

  lemma ReferrersStep(children: Batch, p: Path, seen: set<Path>, path: Path)
    requires path in children && path !in seen
    ensures |Referrers(children, p, seen + {path})|
         == |Referrers(children, p, seen)| + (if p in children[path] then 1 else 0)
  {
    if p in children[path] {
      assert Referrers(children, p, seen + {path}) == Referrers(children, p, seen) + {path};
    } else {
      assert Referrers(children, p, seen + {path}) == Referrers(children, p, seen);
    }
  }

  /** After `path` is emitted: each reference waits for one path fewer, and one
      that now waits for nobody joins the heap. */
  method Release(paths: seq<Path>, rank: map<Path, nat>, refs: set<Path>, waiting0: map<Path, nat>, ready0: set<nat>)
      returns (waiting: map<Path, nat>, ready: set<nat>)
    requires refs <= rank.Keys <= waiting0.Keys
    requires NoDuplicates(paths)
    requires forall p :: p in rank ==> rank[p] < |paths| && paths[rank[p]] == p
    requires forall p :: p in refs ==> waiting0[p] > 0
    ensures waiting.Keys == waiting0.Keys
    ensures forall p :: p in waiting ==> waiting[p] == waiting0[p] - (if p in refs then 1 else 0)
    ensures forall k: nat :: k < |paths| ==>
              (k in ready <==> k in ready0 || (paths[k] in refs && waiting[paths[k]] == 0))
    ensures forall k :: k in ready ==> k in ready0 || k < |paths|
  {
    waiting, ready := waiting0, ready0;
    var todo := refs;
    while todo != {}
      invariant todo <= refs
      invariant waiting.Keys == waiting0.Keys
      invariant forall p :: p in waiting ==> waiting[p] == waiting0[p] - (if p in refs - todo then 1 else 0)
      invariant forall k: nat :: k < |paths| ==>
                  (k in ready <==> k in ready0 || (paths[k] in refs - todo && waiting[paths[k]] == 0))
      invariant forall k :: k in ready ==> k in ready0 || k < |paths|
      decreases |todo|
    {
      var ref :| ref in todo;
      waiting := waiting[ref := waiting[ref] - 1];
      todo := todo - {ref};
      if waiting[ref] == 0 {
        ready := ready + {rank[ref]};
      }
    }
  }

  /** The counters count the referrers still to come, and an emitted path has
      none of those. */
  ghost predicate Counted(children: Batch, emitted: set<Path>, waiting: map<Path, nat>) {
    && emitted <= children.Keys == waiting.Keys
    && (forall p :: p in children ==> waiting[p] == |Referrers(children, p, children.Keys - emitted)|)
    && (forall p :: p in emitted ==> Referrers(children, p, children.Keys - emitted) == {})
  }

  /** The heap holds the ranks of the ready paths. */
  ghost predicate HeapHolds(paths: seq<Path>, children: Batch, emitted: set<Path>, ready: set<nat>) {
    && (forall k :: k in ready ==> k < |paths|)
    && (forall k :: 0 <= k < |paths| ==> (k in ready <==> Ready(children, emitted, paths[k])))
  }

  lemma CountedStep(children: Batch, emitted: set<Path>, path: Path, before: map<Path, nat>, waiting: map<Path, nat>)
    requires Counted(children, emitted, before) && Ready(children, emitted, path)
    requires waiting.Keys == before.Keys
    requires forall p :: p in waiting ==> waiting[p] + (if p in children[path] then 1 else 0) == before[p]
    ensures Counted(children, emitted + {path}, waiting)
  {
    var after := children.Keys - (emitted + {path});
    assert after + {path} == children.Keys - emitted;
    forall p | p in children
      ensures waiting[p] == |Referrers(children, p, after)|
    { ReferrersStep(children, p, after, path); }
    forall p | p in emitted + {path}
      ensures Referrers(children, p, after) == {}
    { assert Referrers(children, p, after) <= Referrers(children, p, children.Keys - emitted); }
  }

  lemma HeapStep(paths: seq<Path>, children: Batch, emitted: set<Path>, top: nat,
                 before: set<nat>, waiting: map<Path, nat>, ready: set<nat>)
    requires NoDuplicates(paths) && children.Keys == Elements(paths) && top in before
    requires HeapHolds(paths, children, emitted, before)
    requires forall e :: e in emitted ==> Referrers(children, e, children.Keys - emitted) == {}
    requires Counted(children, emitted + {paths[top]}, waiting)
    requires forall k :: k in ready ==> k in before || k < |paths|
    requires forall k: nat :: k < |paths| ==>
               (k in ready <==> k in before - {top} || (paths[k] in children[paths[top]] && waiting[paths[k]] == 0))
    requires paths[top] !in children[paths[top]]
    ensures HeapHolds(paths, children, emitted + {paths[top]}, ready)
  {
    var path := paths[top];
    forall k | 0 <= k < |paths|
      ensures k in ready <==> Ready(children, emitted + {path}, paths[k])
    {
      assert paths[k] in Elements(paths);
      assert paths[k] == path <==> k == top;
      ReadyStep(children, emitted, path, paths[k]);
    }
  }

  /** Emitting `path` makes ready exactly the references that wait for it alone. */
  lemma ReadyStep(children: Batch, emitted: set<Path>, path: Path, p: Path)
    requires path in children && path !in emitted && p in children
    requires forall e :: e in emitted + {path} ==> Referrers(children, e, children.Keys - emitted) == {}
    ensures Ready(children, emitted + {path}, p)
       <==> p != path && (Ready(children, emitted, p)
                          || (p in children[path] && |Referrers(children, p, children.Keys - (emitted + {path}))| == 0))
  {
    var now := Referrers(children, p, children.Keys - (emitted + {path}));
    var was := Referrers(children, p, children.Keys - emitted);
    assert was == now + (if p in children[path] then {path} else {});
    assert p in emitted + {path} ==> was == {};
  }

  ghost predicate Ranked(paths: seq<Path>, children: Batch, rank: map<Path, nat>) {
    && NoDuplicates(paths)
    && children.Keys == Elements(paths) == rank.Keys
    && (forall p :: p in rank ==> rank[p] < |paths| && paths[rank[p]] == p)
    && (forall q :: q in children ==> children[q] <= children.Keys - {q})
  }

  /** One turn of the loop: pop the best rank, emit its path, release what it
      references. */
  method EmitBest(paths: seq<Path>, children: Batch, rank: map<Path, nat>, result0: seq<Path>,
                  waiting0: map<Path, nat>, ready0: set<nat>)
      returns (result: seq<Path>, waiting: map<Path, nat>, ready: set<nat>)
    requires Ranked(paths, children, rank) && ready0 != {}
    requires Counted(children, Elements(result0), waiting0)
    requires HeapHolds(paths, children, Elements(result0), ready0)
    ensures Counted(children, Elements(result), waiting)
    ensures HeapHolds(paths, children, Elements(result), ready)
    ensures |result| == |result0| + 1 && result[..|result0|] == result0
    ensures GreedyStep(paths, children, result, |result0|)
  {
    var top := Smallest(ready0);
    var path := paths[top];
    ghost var emitted := Elements(result0);
    forall p | p in children[path]
      ensures waiting0[p] > 0
    { assert path in Referrers(children, p, children.Keys - emitted); }
    waiting, ready := Release(paths, rank, children[path], waiting0, ready0 - {top});
    result := result0 + [path];
    BestStep(paths, children, result0, top, ready0);
    CountedStep(children, emitted, path, waiting0, waiting);
    HeapStep(paths, children, emitted, top, ready0, waiting, ready);
  }

  lemma BestStep(paths: seq<Path>, children: Batch, result: seq<Path>, top: nat, ready: set<nat>)
    requires NoDuplicates(paths) && HeapHolds(paths, children, Elements(result), ready)
    requires top in ready && forall k :: k in ready ==> top <= k
    ensures Elements(result + [paths[top]]) == Elements(result) + {paths[top]}
    ensures GreedyStep(paths, children, result + [paths[top]], |result|)
  {
    ElementsConcat(result, [paths[top]]);
    assert (result + [paths[top]])[..|result|] == result;
  }

  method EmitAll(paths: seq<Path>, children: Batch, rank: map<Path, nat>, waiting0: map<Path, nat>, ready0: set<nat>)
      returns (result: seq<Path>)
    requires Ranked(paths, children, rank)
    requires Counted(children, Elements<Path>([]), waiting0)
    requires HeapHolds(paths, children, Elements<Path>([]), ready0)
    ensures GreedyOrder(paths, children, result)
  {
    var waiting, ready := waiting0, ready0;
    result := [];
    while ready != {}
      invariant Counted(children, Elements(result), waiting)
      invariant HeapHolds(paths, children, Elements(result), ready)
      invariant forall k :: 0 <= k < |result| ==> GreedyStep(paths, children, result, k)
      invariant |result| <= |children|
      decreases |children| - |result|
    {
      ghost var before := result;
      result, waiting, ready := EmitBest(paths, children, rank, result, waiting, ready);
      StepsKept(paths, children, before, result);
    }
    NothingReady(paths, children, Elements(result));
  }

  /** Order referrers before references, weight order breaking ties. */
  method Order(ordered: seq<Path>, references: map<Path, set<Path>>) returns (result: seq<Path>)
    ensures GreedyOrder(FirstOccurrences(ordered), BatchGraph(ordered, references), result)
    ensures NoDuplicates(result)
    ensures forall p :: p in result <==> p in ordered && !CycleAbove(BatchGraph(ordered, references), p)
  {
    var paths := FirstOccurrences(ordered);
    var children := BatchGraph(ordered, references);
    var rank := map p | p in Elements(paths) :: IndexOf(paths, p);
    var waiting := CountReferrers(paths, children);
    var ready: set<nat> := set k: nat | k < |paths| && waiting[paths[k]] == 0;
    StartsReady(paths, children, waiting, ready);
    result := EmitAll(paths, children, rank, waiting, ready);
    Exactness(ordered, paths, children, result);
  }

  lemma StartsReady(paths: seq<Path>, children: Batch, waiting: map<Path, nat>, ready: set<nat>)
    requires NoDuplicates(paths) && children.Keys == Elements(paths) == waiting.Keys
    requires forall p :: p in waiting ==> waiting[p] == |Referrers(children, p, children.Keys)|
    requires forall k :: k in ready <==> 0 <= k < |paths| && waiting[paths[k]] == 0
    ensures Counted(children, Elements<Path>([]), waiting)
    ensures HeapHolds(paths, children, Elements<Path>([]), ready)
  {
    assert children.Keys - Elements<Path>([]) == children.Keys;
    assert forall k :: 0 <= k < |paths| ==> paths[k] in Elements(paths);
  }

  /** The steps taken so far stay greedy steps of the longer order. */
  lemma StepsKept(paths: seq<Path>, children: Batch, before: seq<Path>, result: seq<Path>)
    requires |result| == |before| + 1 && result[..|before|] == before
    requires forall k :: 0 <= k < |before| ==> GreedyStep(paths, children, before, k)
    requires GreedyStep(paths, children, result, |before|)
    ensures forall k :: 0 <= k < |result| ==> GreedyStep(paths, children, result, k)
    ensures |result| <= |children|
  {
    forall k | 0 <= k < |result|
      ensures GreedyStep(paths, children, result, k)
    {
      if k < |before| {
        assert GreedyStep(paths, children, before, k);
        assert result[..k] == before[..k];
      }
    }
    forall i, j | 0 <= i < j < |result|
      ensures result[i] != result[j]
    {
      assert GreedyStep(paths, children, result, j);
      assert result[..j][i] in Elements(result[..j]);
    }
    forall p | p in Elements(result)
      ensures p in children
    {
      var k :| 0 <= k < |result| && result[k] == p;
      assert GreedyStep(paths, children, result, k);
    }
    ElementsSize(result);
    Closure.SubsetSizeLe(Elements(result), children.Keys);
  }

  lemma NothingReady(paths: seq<Path>, children: Batch, emitted: set<Path>)
    requires children.Keys == Elements(paths)
    requires HeapHolds(paths, children, emitted, {})
    ensures forall p :: !Ready(children, emitted, p)
  {
    forall p | p in children
      ensures !Ready(children, emitted, p)
    {
      assert p in paths;
    }
  }

  lemma Exactness(ordered: seq<Path>, paths: seq<Path>, children: Batch, result: seq<Path>)
    requires GreedyOrder(paths, children, result) && children.Keys == Elements(ordered)
    ensures NoDuplicates(result)
    ensures forall p :: p in result <==> p in ordered && !CycleAbove(children, p)
  {
    GreedyNoDuplicates(paths, children, result);
    forall p
      ensures p in result <==> p in ordered && !CycleAbove(children, p)
    {
      EmittedIffAcyclic(paths, children, result, p);
      assert p in ordered <==> p in Elements(ordered);
    }
  }

  function IndexOf(s: seq<Path>, p: Path): (k: nat)
    requires p in s
    ensures k < |s| && s[k] == p
  {
    if s[0] == p then 0 else 1 + IndexOf(s[1..], p)
  }
}
