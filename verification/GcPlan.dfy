/** What a collection pass may delete: the two planners, the volatile veto, and
    the batch closed again after slicing. */
module GcPlan {
  import opened Wrappers
  import opened Ordering
  import opened StoreDb
  import Closure

  // ---- the planners ----

  /** What the `gc_defer` stores confirm; a store that cannot answer confirms
      nothing. */
  function Held(answers: seq<Option<set<Path>>>): set<Path> {
    if |answers| == 0 then {}
    else (match answers[0] case Some(paths) => paths case None => {}) + Held(answers[1..])
  }

  lemma {:induction false} HeldByStore(answers: seq<Option<set<Path>>>, p: Path)
    ensures p in Held(answers) <==> exists k :: 0 <= k < |answers| && answers[k].Some? && p in answers[k].value
  {
    if |answers| > 0 {
      HeldByStore(answers[1..], p);
      forall k | 0 <= k < |answers[1..]|
        ensures answers[1..][k] == answers[k + 1]
      {}
      if exists k :: 0 <= k < |answers| && answers[k].Some? && p in answers[k].value {
        var k :| 0 <= k < |answers| && answers[k].Some? && p in answers[k].value;
        assert k > 0 ==> answers[1..][k - 1] == answers[k];
      }
      if p in Held(answers[1..]) {
        var k :| 0 <= k < |answers[1..]| && answers[1..][k].Some? && p in answers[1..][k].value;
        assert answers[k + 1] == answers[1..][k];
      }
    }
  }

  /** The paths that may leave the store because a substituter holds them.
      `carries` says whether the local daemon carries the closure query; one
      that does not answers the empty set. */
  function PlanDeferred(db: Db, answers: seq<Option<set<Path>>>, carries: bool, live: set<Path>): set<Path> {
    if |answers| == 0 || AllPaths(db) == {} then {}
    else
      var unheld := AllPaths(db) - Held(answers);
      var keep := if carries then QueryClosure(db, unheld) else {};
      if !(unheld <= keep) then {} else AllPaths(db) - keep - live
  }

  /** The dead paths nothing referenced since `max_age`, with their referrers. */
  function PlanLru(db: Db, stale: Option<set<Path>>, answers: bool, live: set<Path>): set<Path> {
    var dead := AllPaths(db) - live;
    if stale.None? || !answers then {}
    else QueryReferrerClosure(db, dead * stale.value) * dead
  }

  /** What both planners promise about a snapshot. */
  ghost predicate SafePlan(db: Db, live: set<Path>, plan: set<Path>) {
    && plan <= AllPaths(db)
    && plan !! live
    && ClosedUnderReferrers(db, plan)
  }

  lemma KeptSetLeavesSafePlan(db: Db, live: set<Path>, keep: set<Path>)
    requires ClosedUnderReferences(db, live) && ClosedUnderReferences(db, keep)
    ensures SafePlan(db, live, AllPaths(db) - keep - live)
  {
    var plan := AllPaths(db) - keep - live;
    forall p, q | References(db, p, q) && q in plan
      ensures p in plan
    {}
  }

  lemma DeferredPlanSafe(db: Db, answers: seq<Option<set<Path>>>, carries: bool, live: set<Path>)
    requires WellFormed(db) && ClosedUnderReferences(db, live)
    ensures SafePlan(db, live, PlanDeferred(db, answers, carries, live))
  {
    var unheld := AllPaths(db) - Held(answers);
    ClosureClosed(db, unheld);
    KeptSetLeavesSafePlan(db, live, QueryClosure(db, unheld));
    KeptSetLeavesSafePlan(db, live, {});
  }

  /** The deferred planner drops a path exactly when a `gc_defer` store
      confirms it, nothing unconfirmed reaches it, and it is not alive. Without the
      closure query it drops nothing, unless every valid path is confirmed. */
  lemma DeferredPlanExact(db: Db, answers: seq<Option<set<Path>>>, carries: bool, live: set<Path>, i: Id)
    requires WellFormed(db) && i in db
    ensures db[i].path in PlanDeferred(db, answers, carries, live)
       <==> && db[i].path !in live
            && (exists k :: 0 <= k < |answers| && answers[k].Some? && db[i].path in answers[k].value)
            && (if carries then !Closure.Reaches(ReferenceEdges(db), IdsOf(db, AllPaths(db) - Held(answers)), i)
                else AllPaths(db) <= Held(answers))
  {
    var unheld := AllPaths(db) - Held(answers);
    ClosureContainsSeeds(db, unheld);
    assert db[i].path in AllPaths(db);
    assert unheld <= QueryClosure(db, unheld);
    HeldByStore(answers, db[i].path);
    Closure.ReachedByWalk(ReferenceEdges(db), IdsOf(db, unheld), i);
    PathIn(db, Closure.Close(ReferenceEdges(db), IdsOf(db, unheld)), i);
    assert db[i].path in unheld ==> i in IdsOf(db, unheld);
  }

  lemma LruPlanSafe(db: Db, stale: Option<set<Path>>, answers: bool, live: set<Path>)
    requires WellFormed(db) && ClosedUnderReferences(db, live)
    ensures SafePlan(db, live, PlanLru(db, stale, answers, live))
  {
    if stale.Some? && answers {
      var seeds := (AllPaths(db) - live) * stale.value;
      ReferrersOfDeadAreDead(db, seeds, live);
      ReferrerClosureClosed(db, seeds);
      ClosureContainsSeeds(db, seeds);
      assert PlanLru(db, stale, answers, live) == QueryReferrerClosure(db, seeds);
    }
  }

  /** A failed query plans nothing. */
  lemma LruPlanNeedsAnswers(db: Db, stale: Option<set<Path>>, answers: bool, live: set<Path>)
    requires WellFormed(db) && PlanLru(db, stale, answers, live) != {}
    ensures stale.Some? && answers
    ensures exists p :: p in stale.value && p in AllPaths(db) && p !in live
  {
    var seeds := (AllPaths(db) - live) * stale.value;
    if seeds == {} {
      assert ClosedUnderReferrers(db, {});
      ReferrerClosureLeast(db, seeds, {});
    }
    assert seeds != {};
    var p :| p in seeds;
  }

  /** The age plan is the least safe plan that takes every stale dead path. */
  lemma LruPlanLeast(db: Db, stale: set<Path>, live: set<Path>, plan: set<Path>)
    requires WellFormed(db) && ClosedUnderReferences(db, live)
    requires SafePlan(db, live, plan) && (AllPaths(db) - live) * stale <= plan
    ensures (AllPaths(db) - live) * stale <= PlanLru(db, Some(stale), true, live) <= plan
  {
    var seeds := (AllPaths(db) - live) * stale;
    ClosureContainsSeeds(db, seeds);
    ReferrerClosureLeast(db, seeds, plan);
  }

  // ---- the veto ----

  /** The living roots with what they reference; the seeds alone when the
      daemon does not answer for every one of them. */
  function VetoClosure(db: Db, volatile: set<Path>, answers: bool): set<Path> {
    if volatile == {} || !answers || !(volatile <= QueryClosure(db, volatile)) then volatile
    else QueryClosure(db, volatile)
  }

  /** The veto is the least reference-closed set over its seeds when each seed is
      a valid path; a seed that is not one costs it the references of all the
      others. */
  lemma VetoIsClosedWhenSeedsAreValid(db: Db, volatile: set<Path>, answers: bool)
    requires WellFormed(db)
    ensures volatile <= VetoClosure(db, volatile, answers)
    ensures answers && volatile <= AllPaths(db) ==> ClosedUnderReferences(db, VetoClosure(db, volatile, answers))
    ensures forall s :: volatile <= s && ClosedUnderReferences(db, s) ==> VetoClosure(db, volatile, answers) <= s
    ensures !answers || !(volatile <= AllPaths(db)) ==> VetoClosure(db, volatile, answers) == volatile
  {
    ClosureContainsSeeds(db, volatile);
    ClosureClosed(db, volatile);
    forall s | volatile <= s && ClosedUnderReferences(db, s)
      ensures VetoClosure(db, volatile, answers) <= s
    { ClosureLeast(db, volatile, s); }
  }

  // ---- closing a slice of the plan ----

  function ReferrerClosureOf(db: Db, seed: Path): set<Path> {
    QueryReferrerClosure(db, {seed})
  }

  /** The referrer closures that stay inside the plan. */
  function Kept(db: Db, batch: seq<Path>, planned: set<Path>): set<Path> {
    if |batch| == 0 then {} else
      var closed := ReferrerClosureOf(db, batch[|batch| - 1]);
      Kept(db, batch[..|batch| - 1], planned) + (if closed <= planned then closed else {})
  }

  lemma {:induction false} KeptMeans(db: Db, batch: seq<Path>, planned: set<Path>, p: Path)
    ensures p in Kept(db, batch, planned)
       <==> exists s :: s in batch && ReferrerClosureOf(db, s) <= planned && p in ReferrerClosureOf(db, s)
  {
    if |batch| > 0 {
      var front, last := batch[..|batch| - 1], batch[|batch| - 1];
      KeptMeans(db, front, planned, p);
      assert forall s :: s in batch <==> s in front || s == last;
    }
  }

  /** The batch closed again: inside the plan and closed under referrers. */
  lemma KeptClosed(db: Db, batch: seq<Path>, planned: set<Path>)
    requires WellFormed(db)
    ensures Kept(db, batch, planned) <= planned
    ensures ClosedUnderReferrers(db, Kept(db, batch, planned))
  {
    forall p | p in Kept(db, batch, planned)
      ensures p in planned
    { KeptMeans(db, batch, planned, p); }
    forall p, q | References(db, p, q) && q in Kept(db, batch, planned)
      ensures p in Kept(db, batch, planned)
    {
      KeptMeans(db, batch, planned, q);
      KeptMeans(db, batch, planned, p);
      var s :| s in batch && ReferrerClosureOf(db, s) <= planned && q in ReferrerClosureOf(db, s);
      ReferrerClosureClosed(db, {s});
    }
  }

  /** A seed stays exactly when its referrer closure lies inside the plan, so a
      dropped seed does not come back as a referrer of another one. */
  lemma SeedKeptIff(db: Db, batch: seq<Path>, planned: set<Path>, seed: Path)
    requires WellFormed(db) && seed in batch && seed in AllPaths(db)
    ensures seed in Kept(db, batch, planned) <==> ReferrerClosureOf(db, seed) <= planned
  {
    KeptMeans(db, batch, planned, seed);
    ClosureContainsSeeds(db, {seed});
    if seed in Kept(db, batch, planned) {
      var s :| s in batch && ReferrerClosureOf(db, s) <= planned && seed in ReferrerClosureOf(db, s);
      ReferrerClosureClosed(db, {s});
      ReferrerClosureLeast(db, {seed}, ReferrerClosureOf(db, s));
    }
  }

  /** What a slice keeps is the union of what each of its seeds keeps: it is
      the largest referrer-closed part of the plan the seeds generate. */
  lemma KeptLargest(db: Db, batch: seq<Path>, planned: set<Path>, s: set<Path>, seed: Path)
    requires WellFormed(db) && seed in batch && seed in AllPaths(db)
    requires s <= planned && ClosedUnderReferrers(db, s) && seed in s
    ensures seed in Kept(db, batch, planned)
  {
    ReferrerClosureLeast(db, {seed}, s);
    SeedKeptIff(db, batch, planned, seed);
  }

  ghost predicate VetoHolds(db: Db, planned: set<Path>, vetoed: set<Path>) {
    forall batch: seq<Path> :: Elements(batch) <= planned - vetoed ==> Kept(db, batch, planned) !! vetoed
  }

  /** Inside the plan, the veto takes what its paths reference. */
  ghost predicate VetoSpreads(db: Db, planned: set<Path>, vetoed: set<Path>) {
    forall p, q :: References(db, p, q) && p in planned && q in planned && p in vetoed ==> q in vetoed
  }

  /** For a plan closed under referrers, no slice brings a vetoed path back
      exactly when the veto is closed under references inside the plan. */
  lemma VetoHoldsIff(db: Db, planned: set<Path>, vetoed: set<Path>)
    requires WellFormed(db) && planned <= AllPaths(db) && ClosedUnderReferrers(db, planned)
    ensures VetoHolds(db, planned, vetoed) <==> VetoSpreads(db, planned, vetoed)
  {
    if VetoSpreads(db, planned, vetoed) {
      forall batch: seq<Path> | Elements(batch) <= planned - vetoed
        ensures Kept(db, batch, planned) !! vetoed
      { SpreadingVetoHolds(db, planned, vetoed, batch); }
    }
    if VetoHolds(db, planned, vetoed) {
      forall p, q | References(db, p, q) && p in planned && q in planned && p in vetoed
        ensures q in vetoed
      {
        if q !in vetoed {
          assert Elements([q]) == {q};
          assert Kept(db, [q], planned) !! vetoed;
          ReferrerClosureLeast(db, {q}, planned);
          SeedKeptIff(db, [q], planned, q);
          KeptClosed(db, [q], planned);
          assert false;
        }
      }
    }
  }

  lemma SpreadingVetoHolds(db: Db, planned: set<Path>, vetoed: set<Path>, batch: seq<Path>)
    requires WellFormed(db) && planned <= AllPaths(db) && ClosedUnderReferrers(db, planned)
    requires VetoSpreads(db, planned, vetoed)
    requires Elements(batch) <= planned - vetoed
    ensures Kept(db, batch, planned) !! vetoed
  {
    var free := planned - vetoed;
    assert ClosedUnderReferrers(db, free) by {
      forall p, q | References(db, p, q) && q in free
        ensures p in free
      {}
    }
    forall p | p in Kept(db, batch, planned)
      ensures p !in vetoed
    {
      KeptMeans(db, batch, planned, p);
      var s :| s in batch && ReferrerClosureOf(db, s) <= planned && p in ReferrerClosureOf(db, s);
      assert s in Elements(batch);
      ReferrerClosureLeast(db, {s}, free);
    }
  }

  /** With the seeds alone as the veto, a vetoed path can come back: `app`
      references `lib`, only `app` is vetoed, and a slice holds `lib`. */
  lemma FallbackVetoCanFail()
    ensures var db: Db := map[1 := Row("app", {2}, None), 2 := Row("lib", {}, None)];
            && WellFormed(db)
            && ClosedUnderReferrers(db, {"app", "lib"})
            && VetoClosure(db, {"app"}, false) == {"app"}
            && "app" in Kept(db, ["lib"], {"app", "lib"})
  {
    var db: Db := map[1 := Row("app", {2}, None), 2 := Row("lib", {}, None)];
    assert db[1].path == "app" && db[2].path == "lib" && db[1].references == {2};
    assert AllPaths(db) == {"app", "lib"} by {
      assert 1 in db.Keys && 2 in db.Keys;
    }
    assert ClosedUnderReferrers(db, AllPaths(db));
    ReferrerClosureLeast(db, {"lib"}, AllPaths(db));
    SeedKeptIff(db, ["lib"], AllPaths(db), "lib");
    KeptClosed(db, ["lib"], AllPaths(db));
    assert References(db, "app", "lib");
  }

  // ---- the order of a closed batch ----

  /** `enumerate` into a dict: the last place of a path. */
  function LastIndex(batch: seq<Path>, p: Path): (k: nat)
    requires p in batch
    ensures k < |batch| && batch[k] == p
  {
    if batch[|batch| - 1] == p then |batch| - 1 else LastIndex(batch[..|batch| - 1], p)
  }

  /** Seeds in batch order, then the referrers that joined, by path. */
  predicate BatchLe(batch: seq<Path>, a: Path, b: Path) {
    if a in batch then b !in batch || LastIndex(batch, a) <= LastIndex(batch, b)
    else b !in batch && Le(a, b)
  }

  lemma BatchLePreorder(batch: seq<Path>)
    ensures Preorder((a, b) => BatchLe(batch, a, b))
  {
    var le := (a, b) => BatchLe(batch, a, b);
    forall a, b
      ensures le(a, b) || le(b, a)
    { LeTotal(a, b); }
    forall a, b, c | le(a, b) && le(b, c)
      ensures le(a, c)
    { if a !in batch { LeTransitive(a, b, c); } }
  }

  /** The batch closed under referrers again, against the plan. `answers(k)`
      says whether the database answers the query for the k-th seed. */
  method CloseBatch(db: Db, answers: nat -> bool, batch: seq<Path>, planned: set<Path>) returns (closed: seq<Path>)
    ensures (exists k :: 0 <= k < |batch| && !answers(k)) ==> closed == []
    ensures (forall k :: 0 <= k < |batch| ==> answers(k)) ==>
              && Elements(closed) == Kept(db, batch, planned)
              && NoDuplicates(closed)
              && InOrder((a, b) => BatchLe(batch, a, b), closed)
  {
    var kept: set<Path> := {};
    for k := 0 to |batch|
      invariant forall j :: 0 <= j < k ==> answers(j)
      invariant kept == Kept(db, batch[..k], planned)
    {
      if !answers(k) {
        return [];
      }
      var found := ReferrerClosureOf(db, batch[k]);
      assert batch[..k + 1][..k] == batch[..k];
      if found <= planned {
        kept := kept + found;
      }
    }
    assert batch[..|batch|] == batch;
    var le := (a, b) => BatchLe(batch, a, b);
    closed := SortBy(le, Sorted(kept));
    BatchLePreorder(batch);
    SortByInOrder(le, Sorted(kept));
    SameElements(closed, Sorted(kept));
    PermutationNoDuplicates(Sorted(kept), closed);
  }
}
