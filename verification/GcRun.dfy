/** A collection pass from the plan to the delete order (`Collector.run`):
    weight order, pressure bound, limit, and the batch handed to the delete
    loop. */
module GcRun {
  import opened Wrappers
  import opened Ordering
  import opened StoreDb
  import GcPlan
  import ReferrerFirst

  /** `(nar_size, age_seconds)` */
  datatype Weight = Weight(size: nat, age: nat)

  type Weights = map<Path, Weight>

  function Biggest(w: Weights, of: Weight -> nat): (m: nat)
    ensures forall p :: p in w ==> of(w[p]) <= m
    ensures w == map[] ==> m == 0
    ensures w != map[] ==> exists p :: p in w && of(w[p]) == m
  {
    if w == map[] then 0 else
      var p := Least(w.Keys);
      var rest := w - {p};
      var m := Biggest(rest, of);
      assert forall q :: q in w ==> q == p || (q in rest && rest[q] == w[q]);
      if of(w[p]) >= m then of(w[p]) else m
  }

  function Share(part: nat, whole: nat): real {
    if whole == 0 then 0.0 else part as real / whole as real
  }

  /** Size matters more the fuller the disk is. */
  function Score(w: Weights, pressure: real, p: Path): real
    requires p in w
  {
    pressure * Share(w[p].size, Biggest(w, (x: Weight) => x.size))
    + (1.0 - pressure) * Share(w[p].age, Biggest(w, (x: Weight) => x.age))
  }

  /** Descending score, the path breaking ties. */
  predicate WeightLe(w: Weights, pressure: real, a: Path, b: Path) {
    if a !in w then b !in w && Le(a, b)
    else b !in w || Score(w, pressure, a) > Score(w, pressure, b)
         || (Score(w, pressure, a) == Score(w, pressure, b) && Le(a, b))
  }

  lemma WeightLePreorder(w: Weights, pressure: real)
    ensures Preorder((a, b) => WeightLe(w, pressure, a, b))
  {
    var le := (a, b) => WeightLe(w, pressure, a, b);
    forall a, b
      ensures le(a, b) || le(b, a)
    { LeTotal(a, b); }
    forall a, b, c | le(a, b) && le(b, c)
      ensures le(a, c)
    { if Le(a, b) && Le(b, c) { LeTransitive(a, b, c); } }
  }

  function ByWeight(w: Weights, pressure: real): (r: seq<Path>)
    ensures Elements(r) == w.Keys && NoDuplicates(r)
  {
    var r := SortBy((a, b) => WeightLe(w, pressure, a, b), Sorted(w.Keys));
    SameElements(r, Sorted(w.Keys));
    PermutationNoDuplicates(Sorted(w.Keys), r);
    r
  }

  lemma ByWeightDescends(w: Weights, pressure: real, i: nat, j: nat)
    requires i < j < |ByWeight(w, pressure)|
    ensures var r := ByWeight(w, pressure);
            && r[i] in w && r[j] in w
            && Score(w, pressure, r[i]) >= Score(w, pressure, r[j])
            && (Score(w, pressure, r[i]) == Score(w, pressure, r[j]) ==> Le(r[i], r[j]))
  {
    var r := ByWeight(w, pressure);
    WeightLePreorder(w, pressure);
    SortByInOrder((a, b) => WeightLe(w, pressure, a, b), Sorted(w.Keys));
    assert r[i] in Elements(r) && r[j] in Elements(r);
  }

  lemma ShareMonotone(a: nat, b: nat, whole: nat)
    requires a <= whole && b <= whole
    ensures Share(a, whole) >= Share(b, whole) ==> a >= b
  {
    if whole > 0 {
      assert Share(a, whole) - Share(b, whole) == (a as real - b as real) / whole as real;
    }
  }

  /** An empty disk collects oldest first, a full disk biggest first. */
  lemma PressureExtremes(w: Weights, i: nat, j: nat)
    requires i < j
    ensures j < |ByWeight(w, 0.0)| ==>
              var r := ByWeight(w, 0.0); r[i] in w && r[j] in w && w[r[i]].age >= w[r[j]].age
    ensures j < |ByWeight(w, 1.0)| ==>
              var r := ByWeight(w, 1.0); r[i] in w && r[j] in w && w[r[i]].size >= w[r[j]].size
  {
    if j < |ByWeight(w, 0.0)| {
      ByWeightDescends(w, 0.0, i, j);
      var r := ByWeight(w, 0.0);
      ShareMonotone(w[r[i]].age, w[r[j]].age, Biggest(w, (x: Weight) => x.age));
    }
    if j < |ByWeight(w, 1.0)| {
      ByWeightDescends(w, 1.0, i, j);
      var r := ByWeight(w, 1.0);
      ShareMonotone(w[r[i]].size, w[r[j]].size, Biggest(w, (x: Weight) => x.size));
    }
  }

  /** Every pressure in between blends the two extremes in proportion; these are
      the size against the biggest candidate and the age against the oldest. */
  lemma ScoreInterpolates(w: Weights, pressure: real, p: Path, biggest: Path, oldest: Path)
    requires p in w && biggest in w && oldest in w
    requires forall q :: q in w ==> w[q].size <= w[biggest].size && w[q].age <= w[oldest].age
    ensures Score(w, pressure, p) == pressure * Score(w, 1.0, p) + (1.0 - pressure) * Score(w, 0.0, p)
    ensures w[biggest].size > 0 ==> Score(w, 1.0, p) == w[p].size as real / w[biggest].size as real
    ensures w[biggest].size == 0 ==> Score(w, 1.0, p) == 0.0
    ensures w[oldest].age > 0 ==> Score(w, 0.0, p) == w[p].age as real / w[oldest].age as real
    ensures w[oldest].age == 0 ==> Score(w, 0.0, p) == 0.0
  {
    assert Biggest(w, (x: Weight) => x.size) == w[biggest].size;
    assert Biggest(w, (x: Weight) => x.age) == w[oldest].age;
    Blend(pressure, Share(w[p].size, w[biggest].size), Share(w[p].age, w[oldest].age));
  }

  lemma Blend(t: real, a: real, b: real)
    ensures t * (1.0 * a + (1.0 - 1.0) * b) + (1.0 - t) * (0.0 * a + (1.0 - 0.0) * b) == t * a + (1.0 - t) * b
  {
  }

  // ---- the bounds ----

  function Freed(w: Weights, paths: seq<Path>): nat
    requires forall p :: p in paths ==> p in w
  {
    if |paths| == 0 then 0 else Freed(w, paths[..|paths| - 1]) + w[paths[|paths| - 1]].size
  }

  ghost predicate MeetsTarget(w: Weights, paths: seq<Path>, used: nat, total: nat, target: real)
    requires total > 0 && forall p :: p in paths ==> p in w
  {
    (used as real - Freed(w, paths) as real) / total as real <= target
  }

  /** The shortest prefix whose removal projects usage to or under `target`,
      the whole order when no prefix does. A division by a zero total is the
      error the source raises. */
  method TakeUntilBelowTarget(w: Weights, ordered: seq<Path>, used: nat, total: nat, target: real)
      returns (taken: Option<seq<Path>>)
    requires forall p :: p in ordered ==> p in w
    ensures taken.None? <==> total == 0 && |ordered| > 0
    ensures taken.Some? ==> |taken.value| <= |ordered| && taken.value == ordered[..|taken.value|]
    ensures taken.Some? && total > 0 ==>
              forall n :: 0 <= n < |taken.value| ==> !MeetsTarget(w, ordered[..n], used, total, target)
    ensures taken.Some? && total > 0 && |taken.value| < |ordered| ==> MeetsTarget(w, taken.value, used, total, target)
  {
    if total == 0 && |ordered| > 0 {
      return None;
    }
    var batch: seq<Path> := [];
    var freed := 0;
    for k := 0 to |ordered|
      invariant |batch| == k && batch == ordered[..k]
      invariant forall p :: p in batch ==> p in w
      invariant freed == Freed(w, batch)
      invariant forall n :: 0 <= n < k ==> !MeetsTarget(w, ordered[..n], used, total, target)
    {
      if (used as real - freed as real) / total as real <= target {
        return Some(batch);
      }
      assert (batch + [ordered[k]])[..k] == batch;
      batch := batch + [ordered[k]];
      freed := freed + w[ordered[k]].size;
    }
    return Some(batch);
  }

  /** A pressure bound: `(used, total)` and the fraction to reach. */
  datatype Bound = Bound(used: nat, total: nat, target: real)

  // ---- which batch ----

  /** The candidates: planned, not vetoed, with a path info. */
  function Candidates(planned: set<Path>, vetoed: set<Path>, infos: Weights): Weights {
    map p | p in infos && p in planned && p !in vetoed :: infos[p]
  }

  ghost predicate Descending(w: Weights, pressure: real, r: seq<Path>) {
    && NoDuplicates(r) && (forall p :: p in r <==> p in w)
    && forall i, j :: 0 <= i < j < |r| ==>
         Score(w, pressure, r[i]) > Score(w, pressure, r[j])
         || (Score(w, pressure, r[i]) == Score(w, pressure, r[j]) && Le(r[i], r[j]))
  }

  /** Where a pass stops in the order: at its end, at the limit, or once the
      paths before it bring the usage to the target. */
  ghost predicate StopsAt(w: Weights, ordered: seq<Path>, bound: Option<Bound>, limit: Option<nat>, n: nat)
    requires n <= |ordered| && forall p :: p in ordered ==> p in w
  {
    || n == |ordered|
    || limit == Some(n)
    || (bound.Some? && bound.value.total > 0 && MeetsTarget(w, ordered[..n], bound.value.used, bound.value.total, bound.value.target))
  }

  /** The slice is what stands before the first such place. */
  ghost predicate Sliced(w: Weights, pressure: real, bound: Option<Bound>, limit: Option<nat>, ordered: seq<Path>, slice: seq<Path>) {
    && Descending(w, pressure, ordered)
    && |slice| <= |ordered| && slice == ordered[..|slice|]
    && StopsAt(w, ordered, bound, limit, |slice|)
    && forall n :: 0 <= n < |slice| ==> !StopsAt(w, ordered, bound, limit, n)
  }

  /** The slice closed again: each seed with everything that references it, when
      all of that is planned; the seeds that stay in slice order, then the rest
      by path. Nothing when a query does not answer. */
  ghost predicate ClosedAs(db: Db, answers: nat -> bool, planned: set<Path>, slice: seq<Path>, batch: seq<Path>) {
    if exists k :: 0 <= k < |slice| && !answers(k) then batch == [] else
      && NoDuplicates(batch)
      && (forall p :: p in batch <==>
            exists k :: 0 <= k < |slice| && p in QueryReferrerClosure(db, {slice[k]}) && QueryReferrerClosure(db, {slice[k]}) <= planned)
      && (forall i, j, k, l :: 0 <= i < |batch| && 0 <= j < |batch| && 0 <= k < l < |slice| && batch[i] == slice[k] && batch[j] == slice[l]
            ==> i < j)
      && (forall i, j :: 0 <= i < j < |batch| && batch[i] !in slice ==> batch[j] !in slice && Le(batch[i], batch[j]))
  }

  /** The batch of a pass. */
  ghost predicate Selected(db: Db, planned: set<Path>, vetoed: set<Path>, infos: Weights, pressure: real, bound: Option<Bound>,
                           limit: Option<nat>, answers: nat -> bool, ordered: seq<Path>, slice: seq<Path>, batch: seq<Path>)
  {
    && (forall p :: p in Candidates(planned, vetoed, infos) <==> p in infos && p in planned && p !in vetoed)
    && (forall p :: p in Candidates(planned, vetoed, infos) ==> Candidates(planned, vetoed, infos)[p] == infos[p])
    && Sliced(Candidates(planned, vetoed, infos), pressure, bound, limit, ordered, slice)
    && if Elements(slice) == planned then batch == slice else ClosedAs(db, answers, planned, slice, batch)
  }

  lemma ByWeightIsDescending(w: Weights, pressure: real)
    ensures Descending(w, pressure, ByWeight(w, pressure))
  {
    var r := ByWeight(w, pressure);
    assert forall p :: p in r <==> p in Elements(r);
    forall i, j | 0 <= i < j < |r|
      ensures Score(w, pressure, r[i]) > Score(w, pressure, r[j])
              || (Score(w, pressure, r[i]) == Score(w, pressure, r[j]) && Le(r[i], r[j]))
    { ByWeightDescends(w, pressure, i, j); }
  }

  lemma LastIndexUnique(s: seq<Path>, k: nat)
    requires NoDuplicates(s) && k < |s|
    ensures s[k] in s && GcPlan.LastIndex(s, s[k]) == k
  {
  }

  lemma ClosedIsOrdered(slice: seq<Path>, batch: seq<Path>)
    requires NoDuplicates(slice) && NoDuplicates(batch) && InOrder((a, b) => GcPlan.BatchLe(slice, a, b), batch)
    ensures forall i, j, k, l :: 0 <= i < |batch| && 0 <= j < |batch| && 0 <= k < l < |slice| && batch[i] == slice[k] && batch[j] == slice[l]
              ==> i < j
    ensures forall i, j :: 0 <= i < j < |batch| && batch[i] !in slice ==> batch[j] !in slice && Le(batch[i], batch[j])
  {
    var le := (a, b) => GcPlan.BatchLe(slice, a, b);
    forall i, j | 0 <= i < j < |batch| && batch[i] !in slice
      ensures batch[j] !in slice && Le(batch[i], batch[j])
    { assert le(batch[i], batch[j]); }
    forall i, j, k, l | 0 <= i < |batch| && 0 <= j < |batch| && 0 <= k < l < |slice| && batch[i] == slice[k] && batch[j] == slice[l]
      ensures i < j
    {
      LastIndexUnique(slice, k);
      LastIndexUnique(slice, l);
      assert !le(batch[j], batch[i]) && i != j;
    }
  }

  lemma ClosedElements(db: Db, slice: seq<Path>, planned: set<Path>, batch: seq<Path>)
    requires Elements(batch) == GcPlan.Kept(db, slice, planned)
    ensures forall p :: p in batch <==>
              exists k :: 0 <= k < |slice| && p in QueryReferrerClosure(db, {slice[k]}) && QueryReferrerClosure(db, {slice[k]}) <= planned
  {
    forall p
      ensures p in batch <==>
                exists k :: 0 <= k < |slice| && p in QueryReferrerClosure(db, {slice[k]}) && QueryReferrerClosure(db, {slice[k]}) <= planned
    {
      GcPlan.KeptMeans(db, slice, planned, p);
      assert p in batch <==> p in Elements(batch);
      if p in batch {
        var s :| s in slice && GcPlan.ReferrerClosureOf(db, s) <= planned && p in GcPlan.ReferrerClosureOf(db, s);
        var k :| 0 <= k < |slice| && slice[k] == s;
        assert p in QueryReferrerClosure(db, {slice[k]}) && QueryReferrerClosure(db, {slice[k]}) <= planned;
      } else {
        forall k | 0 <= k < |slice| && QueryReferrerClosure(db, {slice[k]}) <= planned
          ensures p !in QueryReferrerClosure(db, {slice[k]})
        { assert slice[k] in slice && GcPlan.ReferrerClosureOf(db, slice[k]) <= planned; }
      }
    }
  }

  // ---- there is one such batch ----

  ghost predicate Arranged(before: (Path, Path) -> bool, s: seq<Path>) {
    forall i, j :: 0 <= i < j < |s| ==> before(s[i], s[j])
  }

  ghost predicate Asymmetric(before: (Path, Path) -> bool) {
    forall a, b :: before(a, b) && before(b, a) ==> a == b
  }

  lemma {:induction false} ArrangedPrefix(before: (Path, Path) -> bool, a: seq<Path>, b: seq<Path>, n: nat)
    requires Asymmetric(before) && Arranged(before, a) && Arranged(before, b) && NoDuplicates(a) && NoDuplicates(b)
    requires (forall p :: p in a <==> p in b) && n <= |a| && n <= |b|
    ensures a[..n] == b[..n]
    decreases n
  {
    if n > 0 {
      ArrangedPrefix(before, a, b, n - 1);
      var i := n - 1;
      assert a[i] in b && b[i] in a;
      var j :| 0 <= j < |b| && b[j] == a[i];
      var k :| 0 <= k < |a| && a[k] == b[i];
      assert forall m :: 0 <= m < i ==> a[..i][m] == a[m] && b[..i][m] == b[m];
    }
  }

  lemma ArrangedOnce(before: (Path, Path) -> bool, a: seq<Path>, b: seq<Path>)
    requires Asymmetric(before) && Arranged(before, a) && Arranged(before, b) && NoDuplicates(a) && NoDuplicates(b)
    requires forall p :: p in a <==> p in b
    ensures a == b
  {
    ElementsSize(a);
    ElementsSize(b);
    assert Elements(a) == Elements(b);
    ArrangedPrefix(before, a, b, |a|);
    assert a[..|a|] == a && b[..|b|] == b;
  }

  lemma DescendingOnce(w: Weights, pressure: real, a: seq<Path>, b: seq<Path>)
    requires Descending(w, pressure, a) && Descending(w, pressure, b)
    ensures a == b
  {
    var before := (x, y) => WeightLe(w, pressure, x, y);
    forall x, y | before(x, y) && before(y, x)
      ensures x == y
    { LeAntisymmetric(x, y); }
    assert forall i :: 0 <= i < |a| ==> a[i] in a;
    assert forall i :: 0 <= i < |b| ==> b[i] in b;
    ArrangedOnce(before, a, b);
  }

  lemma SlicedOnce(w: Weights, pressure: real, bound: Option<Bound>, limit: Option<nat>,
                   ordered: seq<Path>, slice: seq<Path>, ordered': seq<Path>, slice': seq<Path>)
    requires Sliced(w, pressure, bound, limit, ordered, slice) && Sliced(w, pressure, bound, limit, ordered', slice')
    ensures ordered == ordered' && slice == slice'
  {
    DescendingOnce(w, pressure, ordered, ordered');
  }

  lemma SeedPair(slice: seq<Path>, batch: seq<Path>, i: nat, j: nat)
    requires NoDuplicates(slice) && i < j < |batch| && NoDuplicates(batch)
    requires forall i, j, k, l :: 0 <= i < |batch| && 0 <= j < |batch| && 0 <= k < l < |slice| && batch[i] == slice[k] && batch[j] == slice[l]
               ==> i < j
    requires forall i, j :: 0 <= i < j < |batch| && batch[i] !in slice ==> batch[j] !in slice && Le(batch[i], batch[j])
    ensures GcPlan.BatchLe(slice, batch[i], batch[j])
  {
    if batch[i] in slice && batch[j] in slice {
      var k, l := GcPlan.LastIndex(slice, batch[i]), GcPlan.LastIndex(slice, batch[j]);
      assert l < k ==> j < i;
    }
  }

  lemma ClosedOnce(db: Db, answers: nat -> bool, planned: set<Path>, slice: seq<Path>, a: seq<Path>, b: seq<Path>)
    requires NoDuplicates(slice) && ClosedAs(db, answers, planned, slice, a) && ClosedAs(db, answers, planned, slice, b)
    ensures a == b
  {
    if forall k :: 0 <= k < |slice| ==> answers(k) {
      var before := (x, y) => GcPlan.BatchLe(slice, x, y);
      forall x, y | before(x, y) && before(y, x)
        ensures x == y
      { if x !in slice { LeAntisymmetric(x, y); } }
      forall i, j | 0 <= i < j < |a|
        ensures before(a[i], a[j])
      { SeedPair(slice, a, i, j); }
      forall i, j | 0 <= i < j < |b|
        ensures before(b[i], b[j])
      { SeedPair(slice, b, i, j); }
      ArrangedOnce(before, a, b);
    }
  }

  /** What a pass selects is determined by what it was given. */
  lemma SelectedOnce(db: Db, planned: set<Path>, vetoed: set<Path>, infos: Weights, pressure: real, bound: Option<Bound>,
                     limit: Option<nat>, answers: nat -> bool, ordered: seq<Path>, slice: seq<Path>, batch: seq<Path>,
                     ordered': seq<Path>, slice': seq<Path>, batch': seq<Path>)
    requires Selected(db, planned, vetoed, infos, pressure, bound, limit, answers, ordered, slice, batch)
    requires Selected(db, planned, vetoed, infos, pressure, bound, limit, answers, ordered', slice', batch')
    ensures batch == batch'
  {
    var w := Candidates(planned, vetoed, infos);
    SlicedOnce(w, pressure, bound, limit, ordered, slice, ordered', slice');
    SliceFacts(w, pressure, bound, limit, ordered, slice);
    if Elements(slice) != planned { ClosedOnce(db, answers, planned, slice, batch, batch'); }
  }

  /** A target that is already met takes nothing. */
  lemma MetTargetTakesNothing(db: Db, planned: set<Path>, vetoed: set<Path>, infos: Weights, pressure: real, bound: Bound,
                              limit: Option<nat>, answers: nat -> bool, ordered: seq<Path>, slice: seq<Path>, batch: seq<Path>)
    requires Selected(db, planned, vetoed, infos, pressure, Some(bound), limit, answers, ordered, slice, batch)
    requires bound.total > 0 && bound.used as real / bound.total as real <= bound.target
    ensures batch == []
  {
    var w := Candidates(planned, vetoed, infos);
    assert ordered[..0] == [];
    assert Freed(w, ordered[..0]) == 0;
    assert StopsAt(w, ordered, Some(bound), limit, 0);
    assert slice == [];
    NoMembersLeft(batch);
  }

  lemma NoMembersLeft(s: seq<Path>)
    ensures s == [] || exists p :: p in s
  {
    assert |s| > 0 ==> s[0] in s;
  }

  /** `_bound_batch`: the leading paths to delete. */
  method BoundBatch(w: Weights, ordered: seq<Path>, bound: Option<Bound>, ghost pressure: real) returns (taken: Option<seq<Path>>)
    requires Descending(w, pressure, ordered)
    ensures taken.None? <==> bound.Some? && bound.value.total == 0 && |ordered| > 0
    ensures taken.Some? ==> Sliced(w, pressure, bound, None, ordered, taken.value)
  {
    if bound.None? {
      return Some(ordered);
    }
    taken := TakeUntilBelowTarget(w, ordered, bound.value.used, bound.value.total, bound.value.target);
  }

  lemma LimitCuts(w: Weights, pressure: real, bound: Option<Bound>, limit: nat, ordered: seq<Path>, taken: seq<Path>)
    requires Sliced(w, pressure, bound, None, ordered, taken)
    ensures var cut := if limit < |taken| then taken[..limit] else taken; Sliced(w, pressure, bound, Some(limit), ordered, cut)
  {
    if limit < |taken| { assert taken[..limit] == ordered[..limit]; }
    var cut := if limit < |taken| then taken[..limit] else taken;
    forall n | 0 <= n < |cut|
      ensures !StopsAt(w, ordered, bound, Some(limit), n)
    { assert !StopsAt(w, ordered, bound, None, n); }
  }

  lemma NothingToOrder(w: Weights, pressure: real, ordered: seq<Path>)
    requires Descending(w, pressure, ordered)
    ensures w == map[] <==> |ordered| == 0
  {
    if |ordered| > 0 { assert ordered[0] in ordered; }
  }

  method TakeSlice(w: Weights, pressure: real, bound: Option<Bound>, limit: Option<nat>)
      returns (slice: Option<seq<Path>>, ghost ordered: seq<Path>)
    ensures slice.None? <==> bound.Some? && bound.value.total == 0 && w != map[]
    ensures slice.Some? ==> Sliced(w, pressure, bound, limit, ordered, slice.value)
  {
    var byWeight := ByWeight(w, pressure);
    ordered := byWeight;
    ByWeightIsDescending(w, pressure);
    NothingToOrder(w, pressure, ordered);
    slice := BoundBatch(w, byWeight, bound, pressure);
    if slice.Some? && limit.Some? {
      LimitCuts(w, pressure, bound, limit.value, ordered, slice.value);
      if limit.value < |slice.value| {
        slice := Some(slice.value[..limit.value]);
      }
    }
  }

  lemma SliceFacts(w: Weights, pressure: real, bound: Option<Bound>, limit: Option<nat>, ordered: seq<Path>, slice: seq<Path>)
    requires Sliced(w, pressure, bound, limit, ordered, slice)
    ensures NoDuplicates(slice) && Elements(slice) <= w.Keys
  {
    PrefixFacts(ordered, |slice|);
    assert forall p :: p in Elements(ordered) ==> p in ordered;
  }

  method CloseSlice(db: Db, answers: nat -> bool, planned: set<Path>, slice: seq<Path>) returns (batch: seq<Path>)
    requires NoDuplicates(slice)
    ensures ClosedAs(db, answers, planned, slice, batch)
    ensures batch == [] || (NoDuplicates(batch) && Elements(batch) == GcPlan.Kept(db, slice, planned))
  {
    batch := GcPlan.CloseBatch(db, answers, slice, planned);
    if forall k :: 0 <= k < |slice| ==> answers(k) {
      ClosedIsOrdered(slice, batch);
      ClosedElements(db, slice, planned, batch);
    }
  }

  /** The batch a pass ends with, before it is ordered: exactly which, and that it
      is safe. `infos` are the path infos that answered, `answers` the referrer
      queries; a division by a zero total is the error. */
  method SelectBatch(db: Db, ghost live: set<Path>, planned: set<Path>, vetoed: set<Path>, infos: Weights, pressure: real,
                     execute: bool, bound: Option<Bound>, limit: Option<nat>, answers: nat -> bool)
      returns (batch: Option<seq<Path>>, ghost ordered: seq<Path>, ghost slice: seq<Path>)
    requires WellFormed(db) && GcPlan.SafePlan(db, live, planned)
    ensures batch.None? <==> execute && bound.Some? && bound.value.total == 0
                             && exists p :: p in infos && p in planned && p !in vetoed
    ensures batch.Some? ==>
              Selected(db, planned, vetoed, infos, pressure, if execute then bound else None, limit, answers, ordered, slice, batch.value)
    ensures batch.Some? ==> GcPlan.SafePlan(db, live, Elements(batch.value)) && NoDuplicates(batch.value)
    ensures batch.Some? ==> Elements(batch.value) <= planned
    ensures batch.Some? && GcPlan.VetoSpreads(db, planned, vetoed) ==> Elements(batch.value) !! vetoed
  {
    var weights := Candidates(planned, vetoed, infos);
    CandidatesLeft(planned, vetoed, infos);
    slice := [];
    if weights == map[] {
      NothingSelected(db, planned, vetoed, infos, pressure, if execute then bound else None, limit, answers);
      return Some([]), [], [];
    }
    var sliced;
    sliced, ordered := TakeSlice(weights, pressure, if execute then bound else None, limit);
    if sliced.None? {
      return None, ordered, [];
    }
    slice := sliced.value;
    SliceFacts(weights, pressure, if execute then bound else None, limit, ordered, slice);
    if Elements(sliced.value) == planned {
      return Some(sliced.value), ordered, slice;
    }
    var closed := CloseSlice(db, answers, planned, sliced.value);
    assert Elements<Path>([]) == {};
    SliceSafe(db, live, planned, vetoed, sliced.value, Elements(closed));
    return Some(closed), ordered, slice;
  }

  lemma CandidatesLeft(planned: set<Path>, vetoed: set<Path>, infos: Weights)
    ensures Candidates(planned, vetoed, infos) != map[] <==> exists p :: p in infos && p in planned && p !in vetoed
    ensures Candidates(planned, vetoed, infos).Keys <= planned - vetoed
  {
    var w := Candidates(planned, vetoed, infos);
    assert forall p :: p in w <==> p in infos && p in planned && p !in vetoed;
    if w != map[] {
      assert w.Keys != {};
      var p :| p in w;
      assert p in infos;
    }
  }

  lemma NothingSelected(db: Db, planned: set<Path>, vetoed: set<Path>, infos: Weights, pressure: real, bound: Option<Bound>,
                        limit: Option<nat>, answers: nat -> bool)
    requires Candidates(planned, vetoed, infos) == map[]
    ensures Elements<Path>([]) == {} && NoDuplicates<Path>([])
    ensures Selected(db, planned, vetoed, infos, pressure, bound, limit, answers, [], [], [])
  {
  }

  lemma PrefixFacts(s: seq<Path>, n: nat)
    requires NoDuplicates(s) && n <= |s|
    ensures NoDuplicates(s[..n]) && Elements(s[..n]) <= Elements(s)
  {
    assert forall x :: x in s[..n] ==> x in s;
  }

  lemma SliceSafe(db: Db, live: set<Path>, planned: set<Path>, vetoed: set<Path>, sliced: seq<Path>, closed: set<Path>)
    requires WellFormed(db) && GcPlan.SafePlan(db, live, planned)
    requires Elements(sliced) <= planned - vetoed
    requires closed == GcPlan.Kept(db, sliced, planned) || closed == {}
    ensures GcPlan.SafePlan(db, live, closed) && closed <= planned
    ensures GcPlan.VetoSpreads(db, planned, vetoed) ==> closed !! vetoed
  {
    GcPlan.KeptClosed(db, sliced, planned);
    if GcPlan.VetoSpreads(db, planned, vetoed) {
      GcPlan.SpreadingVetoHolds(db, planned, vetoed, sliced);
    }
  }

  // ---- the delete order ----

  /** The references of the batch, as the path infos give them. */
  ghost predicate ReferencesOf(db: Db, batch: seq<Path>, references: map<Path, set<Path>>) {
    forall p, q :: p in batch ==> (References(db, p, q) <==> p in references && q in references[p])
  }

  /** Ordering leaves out cycles and what they reference, and what it emits is
      still closed under referrers: Nix accepts the whole order. */
  lemma OrderKeepsClosure(db: Db, batch: seq<Path>, references: map<Path, set<Path>>, result: seq<Path>)
    requires ReferencesOf(db, batch, references)
    requires ClosedUnderReferrers(db, Elements(batch))
    requires ReferrerFirst.GreedyOrder(ReferrerFirst.FirstOccurrences(batch), ReferrerFirst.BatchGraph(batch, references), result)
    ensures Elements(result) <= Elements(batch)
    ensures ClosedUnderReferrers(db, Elements(result))
  {
    var paths, children := ReferrerFirst.FirstOccurrences(batch), ReferrerFirst.BatchGraph(batch, references);
    forall p | p in result
      ensures p in batch
    { ReferrerFirst.EmittedIffAcyclic(paths, children, result, p); }
    forall p, q | References(db, p, q) && q in Elements(result)
      ensures p in Elements(result)
    {
      assert q in Elements(batch) && p in Elements(batch) && p in batch;
      if p != q {
        assert q in children[p];
        var k :| 0 <= k < |result| && result[k] == q;
        ReferrerFirst.ReferrersComeFirst(paths, children, result, k, p);
      }
    }
  }
}
