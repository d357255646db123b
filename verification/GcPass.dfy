/** A whole collection pass: plan, veto, slice, order and the two delete laps. */
module GcPass {
  import opened Wrappers
  import opened Ordering
  import opened StoreDb
  import GcPlan
  import GcRun
  import GcDelete
  import ReferrerFirst

  /** The delete order: nothing when a path info is missing, and otherwise the
      greedy one. */
  ghost predicate Orders(batch: seq<Path>, references: Option<map<Path, set<Path>>>, ordered: seq<Path>) {
    if references.Some? && forall p :: p in batch ==> p in references.value then
      ReferrerFirst.GreedyOrder(ReferrerFirst.FirstOccurrences(batch), ReferrerFirst.BatchGraph(batch, references.value), ordered)
    else ordered == []
  }

  /** `_order_batch`. */
  method OrderBatch(batch: seq<Path>, references: Option<map<Path, set<Path>>>) returns (ordered: seq<Path>)
    ensures Orders(batch, references, ordered)
  {
    assert forall p :: p in Elements(batch) <==> p in batch;
    if |batch| == 0 || references.None? || !(Elements(batch) <= references.value.Keys) {
      return [];
    }
    ordered := ReferrerFirst.Order(batch, references.value);
  }

  /** A delete request names only planned, dead and unvetoed paths, and every
      referrer of a named path is named with it or done with. */
  ghost predicate NamesSafely(db: Db, live: set<Path>, planned: set<Path>, vetoed: set<Path>, group: seq<Path>, done: set<Path>) {
    forall p :: p in group ==>
      && p in planned && p !in live
      && (GcPlan.VetoSpreads(db, planned, vetoed) ==> p !in vetoed)
      && forall q :: References(db, q, p) && q != p ==> q in group || q in done
  }

  /** What is done with before request `k` of a lap. */
  ghost function DoneBefore(earlier: set<Path>, lap: seq<GcDelete.Request>, k: nat): set<Path>
    requires k <= |lap|
  {
    earlier + GcDelete.SettledBy(lap[..k])
  }

  ghost function Outcomes(lap: seq<GcDelete.Request>): set<Path> {
    var l := GcDelete.Tally(GcDelete.EMPTY, lap);
    l.deleted + l.spared + l.uncertain
  }

  /** What the parts of a pass give each other. */
  ghost predicate Chained(db: Db, live: set<Path>, planned: set<Path>, vetoed: set<Path>, batch: seq<Path>,
                          references: map<Path, set<Path>>, ordered: seq<Path>)
  {
    && GcPlan.SafePlan(db, live, Elements(batch)) && Elements(batch) <= planned
    && (GcPlan.VetoSpreads(db, planned, vetoed) ==> Elements(batch) !! vetoed)
    && GcRun.ReferencesOf(db, batch, references)
    && ReferrerFirst.GreedyOrder(ReferrerFirst.FirstOccurrences(batch), ReferrerFirst.BatchGraph(batch, references), ordered)
  }

  lemma ReferrerIsInTheGraph(db: Db, live: set<Path>, planned: set<Path>, vetoed: set<Path>, batch: seq<Path>,
                             references: map<Path, set<Path>>, ordered: seq<Path>, p: Path, q: Path)
    requires Chained(db, live, planned, vetoed, batch, references, ordered) && p in ordered
    ensures p in Elements(batch)
    ensures References(db, q, p) && q != p ==>
              var children := ReferrerFirst.BatchGraph(batch, references); q in children && p in children[q]
  {
    GcRun.OrderKeepsClosure(db, batch, references, ordered);
    assert p in Elements(ordered);
    if References(db, q, p) && q != p { assert q in Elements(batch) && q in batch; }
  }

  lemma LapsAreSafe(db: Db, live: set<Path>, planned: set<Path>, vetoed: set<Path>, batch: seq<Path>,
                    references: map<Path, set<Path>>, ordered: seq<Path>,
                    first: seq<GcDelete.Request>, again: seq<Path>, second: seq<GcDelete.Request>, k: nat)
    requires Chained(db, live, planned, vetoed, batch, references, ordered)
    requires GcDelete.Laps(ordered, first, again, second)
    ensures k < |first| ==> NamesSafely(db, live, planned, vetoed, first[k].group, DoneBefore({}, first, k))
    ensures k < |second| ==> NamesSafely(db, live, planned, vetoed, second[k].group, DoneBefore(Outcomes(first), second, k))
  {
    var paths, children := ReferrerFirst.FirstOccurrences(batch), ReferrerFirst.BatchGraph(batch, references);
    ReferrerFirst.GreedyNoDuplicates(paths, children, ordered);
    if k < |first| {
      GcDelete.NeverNamedAgain(ordered, first, k);
      forall p | p in first[k].group
        ensures p in ordered
      { assert p in Elements(ordered); }
    }
    GcDelete.SecondLapPaths(ordered, first, again, second);
    if k < |second| {
      GcDelete.NeverNamedAgain(again, second, k);
      forall p | p in second[k].group
        ensures p in ordered
      { assert p in Elements(again) && p in Elements(ordered); }
    }
    forall p, q | p in ordered && References(db, q, p) && q != p
      ensures k < |first| && p in first[k].group ==> q in first[k].group || q in DoneBefore({}, first, k)
      ensures k < |second| && p in second[k].group ==> q in second[k].group || q in DoneBefore(Outcomes(first), second, k)
    {
      ReferrerIsInTheGraph(db, live, planned, vetoed, batch, references, ordered, p, q);
      GcDelete.ReferrersNamedFirst(paths, children, ordered, first, again, second, k, p, q);
    }
    forall p | p in ordered
      ensures p in Elements(batch)
    { ReferrerIsInTheGraph(db, live, planned, vetoed, batch, references, ordered, p, p); }
  }

  ghost predicate SafeOutcome(db: Db, live: set<Path>, planned: set<Path>, vetoed: set<Path>, o: GcDelete.Outcome) {
    && (forall k :: 0 <= k < |o.first| ==>
          NamesSafely(db, live, planned, vetoed, o.first[k].group, DoneBefore({}, o.first, k)))
    && (forall k :: 0 <= k < |o.second| ==>
          NamesSafely(db, live, planned, vetoed, o.second[k].group, DoneBefore(Outcomes(o.first), o.second, k)))
  }

  lemma OutcomeIsSafe(db: Db, live: set<Path>, planned: set<Path>, vetoed: set<Path>, batch: seq<Path>,
                      references: map<Path, set<Path>>, ordered: seq<Path>, o: GcDelete.Outcome)
    requires Chained(db, live, planned, vetoed, batch, references, ordered)
    requires GcDelete.Laps(ReferrerFirst.FirstOccurrences(ordered), o.first, o.again, o.second)
    ensures SafeOutcome(db, live, planned, vetoed, o)
  {
    ReferrerFirst.GreedyNoDuplicates(ReferrerFirst.FirstOccurrences(batch), ReferrerFirst.BatchGraph(batch, references), ordered);
    forall k: nat
      ensures k < |o.first| ==>
                NamesSafely(db, live, planned, vetoed, o.first[k].group, DoneBefore({}, o.first, k))
      ensures k < |o.second| ==>
                NamesSafely(db, live, planned, vetoed, o.second[k].group, DoneBefore(Outcomes(o.first), o.second, k))
    { LapsAreSafe(db, live, planned, vetoed, batch, references, ordered, o.first, o.again, o.second, k); }
  }

  lemma NothingAsked(o: GcDelete.Outcome)
    requires GcDelete.Laps([], o.first, o.again, o.second)
    ensures o.first == [] && o.second == []
  {
    GcDelete.LapInvariant([], o.first);
    GcDelete.SecondLapPaths([], o.first, o.again, o.second);
    GcDelete.LapInvariant(o.again, o.second);
  }

  /** The path infos answer for the same snapshot. */
  ghost predicate Truthful(db: Db, references: map<Path, set<Path>>) {
    forall p, q :: p in references ==> (References(db, p, q) <==> q in references[p])
  }

  lemma InfosGiveReferences(db: Db, batch: seq<Path>, references: map<Path, set<Path>>)
    requires Truthful(db, references) && forall p :: p in batch ==> p in references
    ensures GcRun.ReferencesOf(db, batch, references)
  {
  }

  /** What a pass went through: the candidates by weight, the slice of them, the
      batch and its delete order. */
  datatype Choice = Choice(byWeight: seq<Path>, slice: seq<Path>, batch: seq<Path>, order: seq<Path>)

  /** The requests name exactly the paths of the selected batch that the order
      emits, and in the second lap what the first left refused; the report says
      what was answered. */
  ghost predicate Carries(db: Db, planned: set<Path>, vetoed: set<Path>, infos: GcRun.Weights, pressure: real,
                          bound: Option<GcRun.Bound>, limit: Option<nat>, answers: nat -> bool,
                          references: Option<map<Path, set<Path>>>, confirm: GcDelete.Confirm, c: Choice, o: GcDelete.Outcome)
  {
    && GcRun.Selected(db, planned, vetoed, infos, pressure, bound, limit, answers, c.byWeight, c.slice, c.batch)
    && Orders(c.batch, references, c.order)
    && (forall p :: GcDelete.Named(o.first, p) <==> p in c.order)
    && (forall p :: GcDelete.Named(o.second, p) <==> p in o.again)
    && GcDelete.Reports(o, confirm)
  }

  lemma LapsNameTheOrder(batch: seq<Path>, references: Option<map<Path, set<Path>>>, order: seq<Path>, o: GcDelete.Outcome)
    requires Orders(batch, references, order)
    requires GcDelete.Laps(ReferrerFirst.FirstOccurrences(order), o.first, o.again, o.second)
    ensures forall p :: GcDelete.Named(o.first, p) <==> p in order
    ensures forall p :: GcDelete.Named(o.second, p) <==> p in o.again
  {
    var pending := ReferrerFirst.FirstOccurrences(order);
    GcDelete.SecondLapPaths(pending, o.first, o.again, o.second);
    forall p
      ensures GcDelete.Named(o.first, p) <==> p in order
      ensures GcDelete.Named(o.second, p) <==> p in o.again
    {
      GcDelete.LapNamesExactly(pending, o.first, p);
      GcDelete.LapNamesExactly(o.again, o.second, p);
      assert p in pending <==> p in Elements(pending);
      assert p in order <==> p in Elements(order);
    }
  }

  /** The steps of `run` from a plan to the delete laps: which paths are named,
      and what is reported. Whatever the daemon answers, every request names only
      planned, dead paths, no vetoed one when the veto is closed under references
      inside the plan, and none ahead of a referrer that is not done with. */
  method Collect(db: Db, ghost live: set<Path>, planned: set<Path>, vetoed: set<Path>, infos: GcRun.Weights, pressure: real,
                 bound: Option<GcRun.Bound>, limit: Option<nat>, answers: nat -> bool,
                 references: Option<map<Path, set<Path>>>, daemon: GcDelete.Daemon, confirm: GcDelete.Confirm)
    returns (o: Option<GcDelete.Outcome>, ghost c: Choice)
    requires WellFormed(db) && GcPlan.SafePlan(db, live, planned)
    requires references.Some? ==> Truthful(db, references.value)
    ensures o.None? <==> bound.Some? && bound.value.total == 0 && exists p :: p in infos && p in planned && p !in vetoed
    ensures o.Some? ==>
              && SafeOutcome(db, live, planned, vetoed, o.value)
              && Carries(db, planned, vetoed, infos, pressure, bound, limit, answers, references, confirm, c, o.value)
  {
    ghost var byWeight, slice;
    var batch;
    batch, byWeight, slice := GcRun.SelectBatch(db, live, planned, vetoed, infos, pressure, true, bound, limit, answers);
    c := Choice(byWeight, slice, [], []);
    if batch.None? { return None, c; }
    var ordered := OrderBatch(batch.value, references);
    c := Choice(byWeight, slice, batch.value, ordered);
    var outcome := GcDelete.Delete(ordered, daemon, confirm);
    LapsNameTheOrder(batch.value, references, ordered, outcome);
    if ordered == [] {
      NothingAsked(outcome);
      return Some(outcome), c;
    }
    InfosGiveReferences(db, batch.value, references.value);
    OutcomeIsSafe(db, live, planned, vetoed, batch.value, references.value, ordered, outcome);
    return Some(outcome), c;
  }

  // ---- from the roots to the delete requests ----

  /** The rule that `gc_max_age` picks. */
  datatype Rule =
    | Deferred(confirmed: seq<Option<set<Path>>>, carries: bool)
    | Aged(stale: Option<set<Path>>, answers: bool)

  function Plan(db: Db, rule: Rule, live: set<Path>): set<Path> {
    match rule
    case Deferred(confirmed, carries) => GcPlan.PlanDeferred(db, confirmed, carries, live)
    case Aged(stale, answers) => GcPlan.PlanLru(db, stale, answers, live)
  }

  lemma PlanIsSafe(db: Db, rule: Rule, roots: set<Path>, volatile: set<Path>)
    requires WellFormed(db)
    ensures var live := QueryLiveSet(db, roots, volatile); GcPlan.SafePlan(db, live, Plan(db, rule, live))
  {
    var live := QueryLiveSet(db, roots, volatile);
    LiveClosed(db, roots, volatile);
    match rule
    case Deferred(confirmed, carries) => GcPlan.DeferredPlanSafe(db, confirmed, carries, live);
    case Aged(stale, answers) => GcPlan.LruPlanSafe(db, stale, answers, live);
  }

  /** Neither alive nor in the veto, and no referrer is left behind. */
  ghost predicate NamesOnlyGarbage(db: Db, live: set<Path>, vetoed: set<Path>, group: seq<Path>, done: set<Path>) {
    forall p :: p in group ==>
      p in AllPaths(db) && p !in live && p !in vetoed && forall q :: References(db, q, p) && q != p ==> q in group || q in done
  }

  lemma SafeIsGarbage(db: Db, live: set<Path>, planned: set<Path>, vetoed: set<Path>, group: seq<Path>, done: set<Path>)
    requires NamesSafely(db, live, planned, vetoed, group, done) && planned <= AllPaths(db) && ClosedUnderReferences(db, vetoed)
    ensures NamesOnlyGarbage(db, live, vetoed, group, done)
  {
    assert GcPlan.VetoSpreads(db, planned, vetoed);
  }

  /** A whole pass over one snapshot, with either rule. When each fresh seed of
      the veto is a valid path and the daemon answers for them, every request,
      whatever is answered, names only valid paths that no root reaches and the
      veto does not hold, each with its referrers or after them. */
  method CollectFromRoots(db: Db, rule: Rule, roots: set<Path>, volatile: set<Path>, seeds: set<Path>, vetoAnswers: bool,
                          infos: GcRun.Weights, pressure: real, bound: Option<GcRun.Bound>, limit: Option<nat>,
                          answers: nat -> bool, references: Option<map<Path, set<Path>>>,
                          daemon: GcDelete.Daemon, confirm: GcDelete.Confirm)
    returns (o: Option<GcDelete.Outcome>, ghost c: Choice)
    requires WellFormed(db)
    requires references.Some? ==> Truthful(db, references.value)
    ensures var live, vetoed := QueryLiveSet(db, roots, volatile), GcPlan.VetoClosure(db, seeds, vetoAnswers);
            o.None? <==> bound.Some? && bound.value.total == 0
                         && exists p :: p in infos && p in Plan(db, rule, live) && p !in vetoed
    ensures var live, vetoed := QueryLiveSet(db, roots, volatile), GcPlan.VetoClosure(db, seeds, vetoAnswers);
            o.Some? ==> Carries(db, Plan(db, rule, live), vetoed, infos, pressure, bound, limit, answers, references, confirm, c, o.value)
    ensures var live, vetoed := QueryLiveSet(db, roots, volatile), GcPlan.VetoClosure(db, seeds, vetoAnswers);
            o.Some? ==>
              && SafeOutcome(db, live, Plan(db, rule, live), vetoed, o.value)
              && (vetoAnswers && seeds <= AllPaths(db) ==>
                    && (forall k :: 0 <= k < |o.value.first| ==>
                          NamesOnlyGarbage(db, live, vetoed, o.value.first[k].group, DoneBefore({}, o.value.first, k)))
                    && (forall k :: 0 <= k < |o.value.second| ==>
                          NamesOnlyGarbage(db, live, vetoed, o.value.second[k].group,
                                           DoneBefore(Outcomes(o.value.first), o.value.second, k))))
  {
    var live := QueryLiveSet(db, roots, volatile);
    var vetoed := GcPlan.VetoClosure(db, seeds, vetoAnswers);
    var planned := Plan(db, rule, live);
    PlanIsSafe(db, rule, roots, volatile);
    o, c := Collect(db, live, planned, vetoed, infos, pressure, bound, limit, answers, references, daemon, confirm);
    if o.Some? && vetoAnswers && seeds <= AllPaths(db) {
      GcPlan.VetoIsClosedWhenSeedsAreValid(db, seeds, vetoAnswers);
      RequestsAreGarbage(db, live, planned, vetoed, o.value);
    }
  }

  lemma RequestsAreGarbage(db: Db, live: set<Path>, planned: set<Path>, vetoed: set<Path>, o: GcDelete.Outcome)
    requires SafeOutcome(db, live, planned, vetoed, o) && planned <= AllPaths(db) && ClosedUnderReferences(db, vetoed)
    ensures forall k :: 0 <= k < |o.first| ==>
              NamesOnlyGarbage(db, live, vetoed, o.first[k].group, DoneBefore({}, o.first, k))
    ensures forall k :: 0 <= k < |o.second| ==>
              NamesOnlyGarbage(db, live, vetoed, o.second[k].group, DoneBefore(Outcomes(o.first), o.second, k))
  {
    forall k | 0 <= k < |o.first|
      ensures NamesOnlyGarbage(db, live, vetoed, o.first[k].group, DoneBefore({}, o.first, k))
    { SafeIsGarbage(db, live, planned, vetoed, o.first[k].group, DoneBefore({}, o.first, k)); }
    forall k | 0 <= k < |o.second|
      ensures NamesOnlyGarbage(db, live, vetoed, o.second[k].group, DoneBefore(Outcomes(o.first), o.second, k))
    { SafeIsGarbage(db, live, planned, vetoed, o.second[k].group, DoneBefore(Outcomes(o.first), o.second, k)); }
  }
}
