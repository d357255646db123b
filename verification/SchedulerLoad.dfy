/** How many builds a store runs, what a pass counts, and what a drain frees. */
module SchedulerLoad {
  import opened Wrappers
  import opened Ordering
  import opened BuildQueue
  import opened Scheduler
  import opened SchedulerRuns
  import opened SchedulerPasses
  import opened SchedulerDecisions
  import opened QueueEffects
  import Closure

  // ---- no store runs more than its limit ----

  /** The builds that ran on a store when the pass began, and those the pass
      started there, are at least those that run there. */
  ghost predicate LoadCounted(s: Sys) {
    s.pass.Some? ==>
      forall store :: |RunningOn(s.q, store)| <= Count(s.pass.value.running, store) + Count(s.pass.value.placed, store)
  }

  ghost predicate NoMoreRuns(q: Queue, q': Queue) {
    forall id :: id in q'.byId && id in q'.builds && q'.builds[id].Building() && !q'.builds[id].Done() ==>
      id in q.byId && id in q.builds && q.builds[id].Building() && !q.builds[id].Done() && q'.builds[id].store == q.builds[id].store
  }

  lemma FewerRun(s: Sys, s': Sys)
    requires LoadCounted(s) && NoMoreRuns(s.q, s'.q)
    requires s'.pass.Some? ==> s.pass.Some? && s'.pass.value.running == s.pass.value.running && s'.pass.value.placed == s.pass.value.placed
    ensures LoadCounted(s')
  {
    forall store
      ensures |RunningOn(s'.q, store)| <= |RunningOn(s.q, store)|
    {
      assert RunningOn(s'.q, store) <= RunningOn(s.q, store);
      Closure.SubsetSizeLe(RunningOn(s'.q, store), RunningOn(s.q, store));
    }
  }

  lemma KeptWorkRunsNoMore(q: Queue, q': Queue)
    requires KeepsWork(q.builds, q'.builds) && forall id :: id in q'.byId && id in q.builds ==> id in q.byId
    ensures NoMoreRuns(q, q')
  {
    forall id | id in q'.byId && id in q'.builds && q'.builds[id].Building() && !q'.builds[id].Done()
      ensures id in q.byId && id in q.builds && q.builds[id].Building() && !q.builds[id].Done() && q'.builds[id].store == q.builds[id].store
    {
      assert id in q.builds;
      assert SameWork(q.builds[id], q'.builds[id]);
    }
  }

  lemma OpKeepsIds(q: Queue, op: Op, id: BuildId)
    requires Inv(q) && id in ApplyOp(q, op).byId && id in q.builds
    ensures id in q.byId
  {
    if op.DoEnqueue? { EnqueueKeepsIds(q, op.ask, id); } else { OtherOpKeepsIds(q, op); }
  }

  lemma EnqueueKeepsIds(q: Queue, a: Ask, id: BuildId)
    requires Inv(q) && id in q.builds && (Refuses(a) || id in Enqueued(q, a).0.byId)
    ensures !Refuses(a) ==> id in q.byId
  {
    assert q.nextId !in q.builds;
  }

  lemma OtherOpKeepsIds(q: Queue, op: Op)
    requires !op.DoEnqueue?
    ensures ApplyOp(q, op).byId <= q.byId
  {
  }

  lemma QueuedCounts(s: Sys, op: Op)
    requires SysInv(s) && LoadCounted(s)
    ensures LoadCounted(Step(s, Queued(op)))
  {
    WorkersUnique(s);
    QuietOp(s.q, op);
    forall id | id in ApplyOp(s.q, op).byId && id in s.q.builds
      ensures id in s.q.byId
    { OpKeepsIds(s.q, op, id); }
    KeptWorkRunsNoMore(s.q, ApplyOp(s.q, op));
    FewerRun(s, Step(s, Queued(op)));
  }

  lemma FinishCounts(s: Sys, scope: ScopeId, response: Response)
    requires SysInv(s) && LoadCounted(s) && Enabled(s, Finish(scope, response))
    ensures LoadCounted(Step(s, Finish(scope, response)))
  {
    FinishFacts(s.q, s.tasks[scope].build, response);
    FinishKeepsIds(s.q, s.tasks[scope].build, response);
    KeptWorkRunsNoMore(s.q, Step(s, Finish(scope, response)).q);
    FewerRun(s, Step(s, Finish(scope, response)));
  }

  lemma FinishKeepsIds(q: Queue, id: BuildId, response: Response)
    ensures AfterFinish(q, id, response).byId == q.byId
  {
  }

  lemma BeginCounts(s: Sys, snapshot: seq<BuildId>)
    requires Enabled(s, BeginPass(snapshot))
    ensures LoadCounted(Step(s, BeginPass(snapshot)))
    ensures forall store :: Count(Step(s, BeginPass(snapshot)).pass.value.running, store) == |RunningOn(s.q, store)|
  {
    forall store
      ensures Count(RunningCounts(s.q), store) == |RunningOn(s.q, store)|
    { if store !in RunningCounts(s.q) { assert RunningOn(s.q, store) == {}; } }
  }

  lemma StartCounts(s: Sys, p: Pass, id: BuildId, store: StoreId, sponsor: RequestId)
    requires LoadCounted(s) && s.pass == Some(p) && id in s.q.builds
    ensures LoadCounted(Started(s, p, id, store, sponsor))
  {
    var s' := Started(s, p, id, store, sponsor);
    forall t
      ensures |RunningOn(s'.q, t)| <= Count(s'.pass.value.running, t) + Count(s'.pass.value.placed, t)
    { OneMoreRuns(s.q, id, store, s.nextScope, t); }
  }

  lemma OneMoreRuns(q: Queue, id: BuildId, store: StoreId, scope: ScopeId, t: StoreId)
    requires id in q.builds
    ensures |RunningOn(Assigned(q, id, store, scope), t)| <= |RunningOn(q, t)| + if t == store then 1 else 0
  {
    var q' := Assigned(q, id, store, scope);
    var more := if t == store then {id} else {};
    assert RunningOn(q', t) <= RunningOn(q, t) + more;
    Closure.SubsetSizeLe(RunningOn(q', t), RunningOn(q, t) + more);
  }

  lemma TurnCounts(s: Sys, env: Env, sponsor: RequestId)
    requires LoadCounted(s) && Enabled(s, Turn(env, sponsor))
    ensures LoadCounted(TakeTurn(s, env, sponsor))
  {
    TurnEffect(s, env, sponsor);
    var id, popped := s.pass.value.remaining[0], Popped(s);
    FewerRun(s, popped);
    var d := Decide(s.q, s.pass.value, env, s.q.builds[id]);
    if d.Start? {
      StartCounts(popped, popped.pass.value, id, d.store, sponsor);
    } else {
      FewerRun(s, TakeTurn(s, env, sponsor));
    }
  }

  lemma CarryOutCounts(s: Sys)
    requires SysInv(s) && LoadCounted(s) && Enabled(s, CarryOut)
    ensures LoadCounted(CarriedOut(s))
  {
    var id := s.pass.value.verdict.value.id;
    CarryOutEffect(s);
    WorkersUnique(s);
    QuietUnwanted(s.q, id);
    FailedFacts(s.q, id);
    EndingKeepsIds(s.q, id);
    KeptWorkRunsNoMore(s.q, CarriedOut(s).q);
    FewerRun(s, CarriedOut(s));
  }

  lemma EndingKeepsIds(q: Queue, id: BuildId)
    ensures CancelledUnwanted(q, id).byId == q.byId && Failed(q, id).byId == q.byId
  {
  }

  lemma WorkerEventRunsNoMore(s: Sys, e: Event)
    requires Enabled(s, e) && (e.Retry? || e.Exit? || e.Drain?)
    ensures NoMoreRuns(s.q, Step(s, e).q) && Step(s, e).pass == s.pass
  {
  }

  lemma StepCounts(s: Sys, e: Event)
    requires SysInv(s) && LoadCounted(s) && Enabled(s, e)
    ensures LoadCounted(Step(s, e))
  {
    match e {
      case Queued(op) => QueuedCounts(s, op);
      case BeginPass(snapshot) => BeginCounts(s, snapshot);
      case Turn(env, sponsor) => TurnCounts(s, env, sponsor);
      case CarryOut => CarryOutCounts(s);
      case EndPass =>
      case Finish(scope, response) => FinishCounts(s, scope, response);
      case _ =>
        WorkerEventRunsNoMore(s, e);
        FewerRun(s, Step(s, e));
    }
  }

  lemma {:induction false} RunCounts(s: Sys, es: seq<Event>)
    requires SysInv(s) && LoadCounted(s) && Possible(s, es)
    ensures SysInv(Run(s, es)) && LoadCounted(Run(s, es))
    decreases |es|
  {
    if |es| > 0 {
      StepInv(s, es[0]);
      StepCounts(s, es[0]);
      RunCounts(Step(s, es[0]), es[1..]);
    }
  }

  /** In every run, when a pass starts a build on a store, the store then runs at
      most as many unfinished builds as its limit was at that turn. */
  lemma RunRespectsLimits(es: seq<Event>, env: Env, sponsor: RequestId, k: nat)
    requires Possible(INITIAL, es) && Enabled(Run(INITIAL, es), Turn(env, sponsor))
    requires var s := Run(INITIAL, es);
             var b := s.q.builds[s.pass.value.remaining[0]];
             FirstRoom(s.pass.value, Places(env, b), k) && Decide(s.q, s.pass.value, env, b).Start?
    ensures var s := Run(INITIAL, es);
            var place := Places(env, s.q.builds[s.pass.value.remaining[0]])[k];
            |RunningOn(Step(s, Turn(env, sponsor)).q, place.id)| <= place.limit
  {
    InitialInv();
    RunCounts(INITIAL, es);
    var s := Run(INITIAL, es);
    var id := s.pass.value.remaining[0];
    var b := s.q.builds[id];
    var place := Places(env, b)[k];
    StartIff(s.q, s.pass.value, env, b, Decide(s.q, s.pass.value, env, b).store);
    FirstRoomyIs(s.pass.value, Places(env, b));
    PlacesAre(env, b);
    TurnEffect(s, env, sponsor);
    OneMoreRuns(s.q, id, place.id, s.nextScope, place.id);
  }

  // ---- what a pass counts ----

  predicate DecidesAt(s: Sys, e: Event, id: BuildId, d: Decision) {
    && e.Turn? && s.pass.Some? && |s.pass.value.remaining| > 0 && s.pass.value.remaining[0] == id && id in s.q.builds
    && Decide(s.q, s.pass.value, e.env, s.q.builds[id]) == d
  }

  /** The turns of a run that started a build on the store. */
  function StartsOn(s: Sys, es: seq<Event>, store: StoreId): nat
    requires Possible(s, es)
    decreases |es|
  {
    if |es| == 0 then 0 else
      (if es[0].Turn? && DecidesAt(s, es[0], s.pass.value.remaining[0], Start(store)) then 1 else 0)
      + StartsOn(Step(s, es[0]), es[1..], store)
  }

  ghost predicate EverHeld(s: Sys, es: seq<Event>, id: BuildId)
    requires Possible(s, es)
    decreases |es|
  {
    |es| > 0 && (DecidesAt(s, es[0], id, HeldByPressure) || EverHeld(Step(s, es[0]), es[1..], id))
  }

  lemma StepOfCounts(s: Sys, e: Event, store: StoreId, id: BuildId)
    requires Enabled(s, e) && s.pass.Some? && !e.BeginPass? && !e.EndPass? && Step(s, e).pass.Some?
    ensures var p, p' := s.pass.value, Step(s, e).pass.value;
            && p'.running == p.running
            && Count(p'.placed, store)
               == Count(p.placed, store) + (if e.Turn? && DecidesAt(s, e, p.remaining[0], Start(store)) then 1 else 0)
            && (id in p'.held <==> id in p.held || DecidesAt(s, e, id, HeldByPressure))
  {
    if e.Turn? {
      TurnOfCounts(s, e.env, e.sponsor, store, id);
    } else if e.CarryOut? {
      CarryOutEffect(s);
    } else {
      OtherEventKeepsPass(s, e);
    }
  }

  lemma OtherEventKeepsPass(s: Sys, e: Event)
    requires Enabled(s, e) && !e.BeginPass? && !e.EndPass? && !e.Turn? && !e.CarryOut?
    ensures Step(s, e).pass == s.pass
  {
  }

  lemma TurnOfCounts(s: Sys, env: Env, sponsor: RequestId, store: StoreId, id: BuildId)
    requires Enabled(s, Turn(env, sponsor))
    ensures var p, e, s' := s.pass.value, Turn(env, sponsor), TakeTurn(s, env, sponsor);
            && s'.pass.Some? && s'.pass.value.running == p.running
            && Count(s'.pass.value.placed, store)
               == Count(p.placed, store) + (if DecidesAt(s, e, p.remaining[0], Start(store)) then 1 else 0)
            && (id in s'.pass.value.held <==> id in p.held || DecidesAt(s, e, id, HeldByPressure))
  {
    TurnEffect(s, env, sponsor);
  }

  /** A pass counts exactly the builds it started on each store, and remembers
      exactly those it found no room for. */
  lemma {:induction false} PassCountsExactly(s: Sys, es: seq<Event>, store: StoreId, id: BuildId)
    requires Possible(s, es) && SamePass(es) && s.pass.Some? && Run(s, es).pass.Some?
    ensures var p, p' := s.pass.value, Run(s, es).pass.value;
            && p'.running == p.running
            && Count(p'.placed, store) == Count(p.placed, store) + StartsOn(s, es, store)
            && (id in p'.held <==> id in p.held || EverHeld(s, es, id))
    decreases |es|
  {
    if |es| > 0 {
      assert es[0] in es;
      assert forall e :: e in es[1..] ==> e in es;
      StepOfPass(s, es[0]);
      if Aborts(s, es[0]) {
        NoPassStaysSo(Step(s, es[0]), es[1..]);
      }
      StepOfCounts(s, es[0], store, id);
      PassCountsExactly(Step(s, es[0]), es[1..], store, id);
    }
  }

  // ---- draining ----

  /** The unfinished queued builds that were last given to the store. */
  predicate GivenTo(q: Queue, id: BuildId, store: StoreId) {
    id in q.byId && id in q.builds && q.builds[id].result.None? && q.builds[id].store == Some(store)
  }

  lemma DrainedBuild(q: Queue, store: StoreId, id: BuildId)
    requires id in q.builds
    ensures id in AfterDrain(q, store).builds
    ensures var b, b' := q.builds[id], AfterDrain(q, store).builds[id];
            if GivenTo(q, id, store) then
              && b'.worker.None? && b'.FailuresOn(store) == b.FailuresOn(store) + 1
              && b'.(worker := None, failures := map[], retries := 0) == b.(worker := None, failures := map[], retries := 0)
              && forall t :: t != store ==> b'.FailuresOn(t) == b.FailuresOn(t)
            else b' == b
  {
  }

  lemma DrainedScopes(q: Queue, store: StoreId, w: ScopeId)
    ensures w in AfterDrain(q, store).cancelled <==>
              w in q.cancelled || exists id :: GivenTo(q, id, store) && q.builds[id].worker == Some(w)
  {
    forall id | GivenTo(q, id, store) && q.builds[id].worker == Some(w)
      ensures w in AfterDrain(q, store).cancelled
    { assert Drained(q, id, store) && w in ScopeOf(q.builds[id]); }
    if w in AfterDrain(q, store).cancelled && w !in q.cancelled {
      var id :| id in q.builds && Drained(q, id, store) && w in ScopeOf(q.builds[id]);
      assert GivenTo(q, id, store);
    }
  }

  /** A drain frees the store: nothing unfinished runs there any more. Exactly the
      unfinished queued builds that were last given to it are charged a failure
      there and lose their worker, and exactly those workers are cancelled; no
      other build changes. */
  lemma DrainFrees(s: Sys, store: StoreId, id: BuildId, w: ScopeId)
    requires id in s.q.builds
    ensures RunningOn(Step(s, Drain(store)).q, store) == {}
    ensures id in Step(s, Drain(store)).q.builds
    ensures var b, b' := s.q.builds[id], Step(s, Drain(store)).q.builds[id];
            if GivenTo(s.q, id, store) then
              && b'.worker.None? && b'.FailuresOn(store) == b.FailuresOn(store) + 1
              && b'.(worker := None, failures := map[], retries := 0) == b.(worker := None, failures := map[], retries := 0)
              && forall t :: t != store ==> b'.FailuresOn(t) == b.FailuresOn(t)
            else b' == b
    ensures w in Step(s, Drain(store)).q.cancelled <==>
              w in s.q.cancelled || exists i :: GivenTo(s.q, i, store) && s.q.builds[i].worker == Some(w)
  {
    DrainedBuild(s.q, store, id);
    DrainedScopes(s.q, store, w);
    NothingRunsThere(s.q, store);
  }

  lemma NothingRunsThere(q: Queue, store: StoreId)
    ensures RunningOn(AfterDrain(q, store), store) == {}
  {
    var q' := AfterDrain(q, store);
    forall i | i in q'.builds
      ensures i !in RunningOn(q', store)
    { DrainedBuild(q, store, i); }
  }

  // ---- what a worker and a verdict leave ----

  /** A worker that completes its unfinished build gives it the daemon's answer,
      and a failure makes its holders give up unless its client keeps going. */
  lemma FinishGives(s: Sys, scope: ScopeId, response: Response)
    requires SysInv(s) && Enabled(s, Finish(scope, response)) && Unfinished(s.q, s.tasks[scope].build)
    ensures var id, s' := s.tasks[scope].build, Step(s, Finish(scope, response));
            && id in s'.q.builds && s'.q.builds[id].result == Some(response) && OthersKept(s.q, s'.q, id)
            && (forall r :: r in s'.q.givenUp <==>
                  r in s.q.givenUp || (r in s.q.builds[id].holders && !response.success
                                       && s.q.builds[id].options.Some? && !s.q.builds[id].options.value.keepGoing))
  {
    UnfinishedIsQueued(s.q, s.tasks[scope].build);
    CompleteChanges(s.q, s.tasks[scope].build, response);
  }

  /** A verdict that is carried out on an unfinished build makes it fail. For a
      hopeless one its holders give up as for any failure; for one that nobody
      wanted nobody does. */
  lemma VerdictGives(s: Sys)
    requires SysInv(s) && Enabled(s, CarryOut) && Unfinished(s.q, s.pass.value.verdict.value.id)
    ensures var id, s' := s.pass.value.verdict.value.id, Step(s, CarryOut);
            && id in s'.q.builds && s'.q.builds[id].result.Some? && !s'.q.builds[id].result.value.success
            && OthersKept(s.q, s'.q, id)
            && (forall r :: r in s'.q.givenUp <==>
                  r in s.q.givenUp || (s.pass.value.verdict.value.ToFail? && r in s.q.builds[id].holders
                                       && s.q.builds[id].options.Some? && !s.q.builds[id].options.value.keepGoing))
  {
    var id := s.pass.value.verdict.value.id;
    CarryOutEffect(s);
    UnfinishedIsQueued(s.q, id);
    CompleteChanges(s.q, id, Response(false, "no store"));
    CancelChanges(s.q, id);
  }
}
