/** Builds that nobody wants, and what a pass does to builds that changed under
    it. */
module SchedulerEnds {
  import opened Wrappers
  import opened Ordering
  import opened BuildQueue
  import opened Scheduler
  import opened SchedulerRuns
  import opened SchedulerAttempts
  import opened SchedulerSlots
  import opened SchedulerPasses

  // ---- a build nobody wants ends with the pass ----

  /** Finished, or still to be looked at by the pass with every holder given up. */
  ghost predicate Leaving(s: Sys, id: BuildId) {
    id in s.q.builds && (s.q.builds[id].Done() || (InPass(s, id) && NobodyWants(s.q, s.q.builds[id])))
  }

  /** The pass waits for the lock to cancel the build. */
  ghost predicate Sentenced(s: Sys, id: BuildId) {
    s.pass.Some? && s.pass.value.verdict == Some(ToCancel(id))
  }

  ghost predicate Ending(s: Sys, id: BuildId) {
    Sentenced(s, id) || Leaving(s, id)
  }

  /** A goal that has not given up joins the build. */
  predicate Joins(s: Sys, e: Event, id: BuildId) {
    && e.Queued? && e.op.DoEnqueue? && !Refuses(e.op.ask) && e.op.ask.fromGoal && e.op.ask.goal.Some?
    && Existing(s.q, e.op.ask.drv) == Some(id)
    && e.op.ask.goal.value !in s.q.givenUp
  }

  /** It joins while the pass has the build ahead. */
  ghost predicate JoinsAhead(s: Sys, e: Event, id: BuildId) {
    InPass(s, id) && Joins(s, e, id)
  }

  lemma StillUnwanted(s: Sys, s': Sys, id: BuildId)
    requires Leaving(s, id) && ResultsKept(s.q, s'.q) && id in s'.q.builds
    requires InPass(s, id) ==> InPass(s', id)
    requires s'.q.builds[id].holders == s.q.builds[id].holders && s.q.givenUp <= s'.q.givenUp
    ensures Leaving(s', id)
  {
  }

  /** Finished, or every holder given up, as far as the queue says. */
  ghost predicate Ended(q: Queue, id: BuildId) {
    id in q.builds && (q.builds[id].Done() || NobodyWants(q, q.builds[id]))
  }

  lemma ReleaseEnds(q: Queue, r: RequestId, id: BuildId)
    requires Inv(q) && Ended(q, id)
    ensures Ended(Released(q, r), id) && ResultsKept(q, Released(q, r))
  {
    ReleasedInv(q, r);
    ReleasedHolder(q, r, r, id);
    ReleaseEndsExactly(q, r, id);
  }

  lemma EnqueueStillUnwanted(q: Queue, a: Ask, id: BuildId)
    requires Inv(q) && id in q.builds && NobodyWants(q, q.builds[id]) && !Refuses(a)
    requires Existing(q, a.drv) == Some(id) && a.fromGoal && a.goal.Some? ==> a.goal.value in q.givenUp
    requires !q.builds[id].Done()
    ensures id in Enqueued(q, a).0.builds && NobodyWants(Enqueued(q, a).0, Enqueued(q, a).0.builds[id])
  {
    var (q', joined) := Enqueued(q, a);
    EnqueuedHolders(q, a);
    EnqueuedFrame(q, a);
    assert joined == id ==> Existing(q, a.drv) == Some(id) by {
      assert q.nextId !in q.builds;
    }
    assert q'.builds[id].holders <= q.builds[id].holders + q.givenUp;
  }

  lemma EnqueueEnds(q: Queue, a: Ask, id: BuildId)
    requires Inv(q) && Ended(q, id) && !Refuses(a)
    requires Existing(q, a.drv) == Some(id) && a.fromGoal && a.goal.Some? ==> a.goal.value in q.givenUp
    ensures Ended(Enqueued(q, a).0, id) && ResultsKept(q, Enqueued(q, a).0)
  {
    EnqueuedInv(q, a);
    if !q.builds[id].Done() { EnqueueStillUnwanted(q, a, id); }
  }

  lemma EnqueuedFrame(q: Queue, a: Ask)
    requires !Refuses(a)
    ensures var (q', joined) := Enqueued(q, a);
            q'.givenUp == q.givenUp && q.builds.Keys <= q'.builds.Keys
            && (Existing(q, a.drv).Some? ==> joined == Existing(q, a.drv).value)
            && (Existing(q, a.drv).None? ==> joined == q.nextId)
  {
  }

  lemma OpEnding(s: Sys, op: Op, id: BuildId)
    requires Inv(s.q) && Leaving(s, id) && !JoinsAhead(s, Queued(op), id)
    ensures Leaving(Step(s, Queued(op)), id)
  {
    if op.DoEnqueue? {
      if !Refuses(op.ask) {
        if s.q.builds[id].Done() { EnqueuedInv(s.q, op.ask); } else { EnqueueEnds(s.q, op.ask, id); }
      }
    } else if op.DoRelease? {
      ReleaseEnds(s.q, op.r, id);
    } else {
      OtherOpEnding(s, op, id);
    }
  }

  lemma OtherOpEnding(s: Sys, op: Op, id: BuildId)
    requires Inv(s.q) && Leaving(s, id) && !op.DoEnqueue? && !op.DoRelease?
    ensures Leaving(Step(s, Queued(op)), id)
  {
    OpInv(s.q, op);
    OtherOpHolders(s.q, op);
    StillUnwanted(s, Step(s, Queued(op)), id);
  }

  lemma FinishGivesUpMore(q: Queue, id: BuildId, response: Response)
    ensures q.givenUp <= AfterFinish(q, id, response).givenUp
  {
  }

  lemma FinishEnding(s: Sys, s': Sys, done: BuildId, response: Response, id: BuildId)
    requires Inv(s.q) && Leaving(s, id) && done in s.q.builds && s'.q == AfterFinish(s.q, done, response)
    requires InPass(s, id) ==> InPass(s', id)
    ensures Leaving(s', id)
  {
    FinishFacts(s.q, done, response);
    FinishHolders(s.q, done, response);
    FinishGivesUpMore(s.q, done, response);
    StillUnwanted(s, s', id);
  }

  lemma UnwantedEnding(s: Sys, s': Sys, other: BuildId, id: BuildId)
    requires Inv(s.q) && Leaving(s, id) && s'.q == CancelledUnwanted(s.q, other)
    requires InPass(s, id) ==> InPass(s', id)
    ensures Leaving(s', id)
  {
    CancelledUnwantedInv(s.q, other);
    StillUnwanted(s, s', id);
  }

  /** Its own turn decides to cancel it. */
  lemma OwnTurnSentences(s: Sys, env: Env, sponsor: RequestId)
    requires SysInv(s) && Enabled(s, Turn(env, sponsor)) && Leaving(s, s.pass.value.remaining[0])
    ensures Ending(TakeTurn(s, env, sponsor), s.pass.value.remaining[0])
  {
    PoppedInv(s);
    TurnInv(s, env, sponsor);
    TurnEffect(s, env, sponsor);
  }

  lemma TurnEnding(s: Sys, env: Env, sponsor: RequestId, id: BuildId)
    requires SysInv(s) && Enabled(s, Turn(env, sponsor)) && Leaving(s, id)
    ensures Ending(TakeTurn(s, env, sponsor), id)
  {
    var head, popped, s' := s.pass.value.remaining[0], Popped(s), TakeTurn(s, env, sponsor);
    if head == id {
      OwnTurnSentences(s, env, sponsor);
    } else {
      PoppedInv(s);
      RestKeeps(s.pass.value.remaining, id);
      TurnEffect(s, env, sponsor);
      StillUnwanted(s, popped, id);
      if Decide(s.q, s.pass.value, env, s.q.builds[head]).Start? {
        StartEnding(popped, head, Decide(s.q, s.pass.value, env, s.q.builds[head]).store, sponsor, id);
      } else {
        StillUnwanted(s, s', id);
      }
    }
  }

  lemma CarryOutEnding(s: Sys, id: BuildId)
    requires SysInv(s) && Enabled(s, CarryOut) && Ending(s, id) && !Aborts(s, CarryOut)
    ensures Leaving(CarriedOut(s), id)
  {
    CarryOutEffect(s);
    if Sentenced(s, id) {
      CancelEnds(s.q, id);
    } else {
      match s.pass.value.verdict.value {
        case ToCancel(other) => UnwantedEnding(s, CarriedOut(s), other, id);
        case ToFail(other) => FinishEnding(s, CarriedOut(s), other, Response(false, "no store"), id);
      }
    }
  }

  lemma CancelEnds(q: Queue, id: BuildId)
    requires Inv(q) && id in q.builds
    ensures id in CancelledUnwanted(q, id).builds && CancelledUnwanted(q, id).builds[id].Done()
  {
    if !q.builds[id].Done() { UnfinishedIsQueued(q, id); }
  }

  lemma StartEnding(s: Sys, head: BuildId, store: StoreId, sponsor: RequestId, id: BuildId)
    requires Inv(s.q) && s.pass.Some? && Leaving(s, id) && head in s.q.builds && head != id
    ensures Leaving(Started(s, s.pass.value, head, store, sponsor), id)
  {
    AssignedInv(s.q, head, store, s.nextScope);
    StillUnwanted(s, Started(s, s.pass.value, head, store, sponsor), id);
  }

  lemma RestKeeps<T>(s: seq<T>, x: T)
    requires |s| > 0
    ensures x in s && x != s[0] ==> x in s[1..]
  {
    assert s == [s[0]] + s[1..];
  }

  lemma WorkerEventEnding(s: Sys, e: Event, id: BuildId)
    requires SysInv(s) && Enabled(s, e) && Leaving(s, id) && (e.Retry? || e.Exit? || e.Drain?)
    ensures Leaving(Step(s, e), id)
  {
    StepInv(s, e);
    WorkerEventHolders(s, e, id);
    StillUnwanted(s, Step(s, e), id);
  }

  lemma WorkerEventHolders(s: Sys, e: Event, id: BuildId)
    requires Enabled(s, e) && (e.Retry? || e.Exit? || e.Drain?) && id in s.q.builds
    ensures var s' := Step(s, e);
            && id in s'.q.builds && s'.q.builds[id].holders == s.q.builds[id].holders
            && s'.q.givenUp == s.q.givenUp && s'.pass == s.pass
  {
  }

  lemma LeavingStep(s: Sys, e: Event, id: BuildId)
    requires SysInv(s) && Enabled(s, e) && Leaving(s, id) && !JoinsAhead(s, e, id) && !Aborts(s, e)
    ensures Ending(Step(s, e), id)
  {
    match e {
      case Queued(op) => OpEnding(s, op, id);
      case BeginPass(_) =>
      case Turn(env, sponsor) => TurnEnding(s, env, sponsor, id);
      case CarryOut => CarryOutEnding(s, id);
      case EndPass =>
      case Finish(scope, response) => FinishEnding(s, Step(s, e), s.tasks[scope].build, response, id);
      case Retry(_) => WorkerEventEnding(s, e, id);
      case Exit(_) => WorkerEventEnding(s, e, id);
      case Drain(_) => WorkerEventEnding(s, e, id);
    }
  }

  lemma StepEnding(s: Sys, e: Event, id: BuildId)
    requires SysInv(s) && Enabled(s, e) && Ending(s, id) && !JoinsAhead(s, e, id) && !Aborts(s, e)
    ensures Ending(Step(s, e), id)
  {
    if Sentenced(s, id) {
      if e.CarryOut? { CarryOutEnding(s, id); } else { PassWaits(s, e); }
    } else {
      LeavingStep(s, e, id);
    }
  }

  /** A pass with a verdict takes no other step. */
  lemma PassWaits(s: Sys, e: Event)
    requires Enabled(s, e) && s.pass.Some? && s.pass.value.verdict.Some? && !e.CarryOut?
    ensures Step(s, e).pass == s.pass && !e.Turn? && !e.BeginPass? && !e.EndPass?
  {
  }

  ghost predicate NobodyJoins(s: Sys, es: seq<Event>, id: BuildId)
    requires Possible(s, es)
    decreases |es|
  {
    |es| == 0 || (!JoinsAhead(s, es[0], id) && NobodyJoins(Step(s, es[0]), es[1..], id))
  }

  lemma {:induction false} RunEnding(s: Sys, es: seq<Event>, id: BuildId)
    requires SysInv(s) && Possible(s, es) && Ending(s, id) && NobodyJoins(s, es, id) && AbortFree(s, es)
    ensures Ending(Run(s, es), id)
    decreases |es|
  {
    if |es| > 0 {
      StepInv(s, es[0]);
      StepEnding(s, es[0], id);
      RunEnding(Step(s, es[0]), es[1..], id);
    }
  }

  /** A build whose goal holders had all given up when a pass began, and which
      did not run, is finished when the pass reaches its end, whatever clients,
      workers and drains do meanwhile, unless a goal that has not given up joins
      it before its turn. When a pass reaches its end says
      `PassReachesItsEndIff`. */
  lemma UnwantedBuildEndsWithThePass(s: Sys, snapshot: seq<BuildId>, es: seq<Event>, id: BuildId)
    requires SysInv(s) && Enabled(s, BeginPass(snapshot))
    requires id in s.q.byId && !s.q.builds[id].Building() && NobodyWants(s.q, s.q.builds[id])
    requires Possible(Step(s, BeginPass(snapshot)), es) && SamePass(es)
    requires NobodyJoins(Step(s, BeginPass(snapshot)), es, id)
    requires Enabled(Run(Step(s, BeginPass(snapshot)), es), EndPass)
    ensures var s' := Run(Step(s, BeginPass(snapshot)), es); id in s'.q.builds && s'.q.builds[id].Done()
  {
    StepInv(s, BeginPass(snapshot));
    var begun := Step(s, BeginPass(snapshot));
    if !s.q.builds[id].Done() {
      assert id in Elements(snapshot);
    }
    assert Ending(begun, id);
    PassReachesItsEndIff(begun, es);
    RunEnding(begun, es, id);
  }

  // ---- a build that ends during a pass can still be given a worker ----

  lemma ReleasedIsUnheld(q: Queue, r: RequestId, id: BuildId)
    requires Inv(q) && Unfinished(q, id) && q.builds[id].holders == {r}
    ensures var b, b' := q.builds[id], Released(q, r).builds[id];
            && b'.Done() && b'.holders == {}
            && b'.drv == b.drv && b'.failures == b.failures && b'.worker == b.worker
  {
    assert r in q.builds[id].holders <==> id in HeldBy(q, r);
  }

  lemma RankedTurnStarts(s: Sys, env: Env, sponsor: RequestId, id: BuildId)
    requires s.pass.Some? && s.pass.value.verdict.None?
    requires |s.pass.value.remaining| > 0 && s.pass.value.remaining[0] == id && id in s.q.builds
    requires !s.q.builds[id].Building() && s.q.builds[id].holders == {}
    requires |env.ranked| > 0 && RankedFor(env, s.q.builds[id]) && HasBuildRoom(s.pass.value, env.ranked[0])
    ensures Enabled(s, Turn(env, sponsor))
    ensures var s' := Step(s, Turn(env, sponsor));
            id in s'.q.builds && s'.q.builds[id].Building() && s'.q.builds[id].result == s.q.builds[id].result
  {
    assert env.ranked[0] in env.ranked;
    assert Decide(s.q, s.pass.value, env, s.q.builds[id]) == Start(env.ranked[0].id);
  }

  /** A pass does not look at `is_done`. When the only request that holds a
      build of the pass leaves, the build ends, and its turn still starts a
      worker for it on the first ranked store with room. */
  lemma FinishedBuildIsStillStarted(s: Sys, r: RequestId, env: Env, sponsor: RequestId, id: BuildId)
    requires SysInv(s) && s.pass.Some? && s.pass.value.verdict.None?
    requires |s.pass.value.remaining| > 0 && s.pass.value.remaining[0] == id
    requires Unfinished(s.q, id) && s.q.builds[id].holders == {r} && !s.q.builds[id].Building()
    requires |env.ranked| > 0 && RankedFor(env, s.q.builds[id]) && HasBuildRoom(s.pass.value, env.ranked[0])
    ensures var left := Step(s, Queued(DoRelease(r)));
            && id in left.q.builds && left.q.builds[id].Done()
            && Enabled(left, Turn(env, sponsor))
            && var after := Step(left, Turn(env, sponsor));
               id in after.q.builds && after.q.builds[id].Building() && after.q.builds[id].Done()
  {
    ReleasedIsUnheld(s.q, r, id);
    RankedTurnStarts(Step(s, Queued(DoRelease(r))), env, sponsor, id);
  }

  // ---- a fourth start ----

  lemma {:induction false} RunExtends(s: Sys, es: seq<Event>, e: Event)
    requires Possible(s, es) && Enabled(Run(s, es), e)
    ensures Possible(s, es + [e]) && Run(s, es + [e]) == Step(Run(s, es), e)
    decreases |es|
  {
    if |es| == 0 {
      assert es + [e] == [e] && [e][1..] == [];
      assert Possible(Step(s, e), []);
    } else {
      RunExtends(Step(s, es[0]), es[1..], e);
      assert (es + [e])[0] == es[0] && (es + [e])[1..] == es[1..] + [e];
    }
  }

  /** One build, between two passes: `failures` were charged to the store `t`,
      which was given `starts` workers. */
  ghost predicate Between(s: Sys, worker: Option<ScopeId>, t: StoreId, failures: nat, starts: nat) {
    && s.pass.None? && s.q.byId == {1} && 1 in s.q.builds
    && var b := s.q.builds[1];
       && !b.Done() && b.holders == {} && b.worker == worker
       && b.FailuresOn(t) == failures && StartsOf(s, 1, t) == starts
       && (forall w :: w in s.tasks ==> w < s.nextScope)
  }

  ghost predicate Leads(from: Sys, es: seq<Event>, s: Sys) {
    Possible(from, es) && Run(from, es) == s
  }

  ghost predicate Reached(es: seq<Event>, s: Sys) {
    Leads(INITIAL, es, s)
  }

  lemma LeadsOn(from: Sys, es: seq<Event>, s: Sys, e: Event)
    requires Leads(from, es, s) && Enabled(s, e)
    ensures Leads(from, es + [e], Step(s, e))
  {
    RunExtends(from, es, e);
  }

  lemma Extend(es: seq<Event>, s: Sys, e: Event)
    requires Reached(es, s) && Enabled(s, e)
    ensures Reached(es + [e], Step(s, e))
  {
    RunExtends(INITIAL, es, e);
  }

  function Roomy(id: StoreId, drv: DrvPath): Store {
    Store(id, true, false, false, {drv}, 1)
  }

  function Only(store: Store): Env {
    Env([store], Store(LOCAL, false, false, false, {}, 0), {}, [store])
  }

  /** The turn of a pass that looks at the one build. */
  lemma OnlyTurn(s: Sys, store: StoreId, env: Env)
    requires s.pass.None? && s.q.byId == {1} && 1 in s.q.builds && env == Only(Roomy(store, s.q.builds[1].drv))
    requires store != LOCAL && s.q.builds[1].FailuresOn(store) < MAX_STORE_RETRIES
    requires !s.q.builds[1].Done() && !s.q.builds[1].Building() && s.q.builds[1].holders == {}
    ensures Enabled(s, BeginPass([1]))
    ensures var begun := Step(s, BeginPass([1]));
            && Enabled(begun, Turn(env, 0))
            && Step(begun, Turn(env, 0)) == Started(begun, begun.pass.value.(remaining := []), 1, store, 0)
  {
    assert Schedulable(s.q) == {1};
    assert Elements([1]) == {1};
    var begun := Step(s, BeginPass([1]));
    NothingRuns(s.q, store);
    assert HasBuildRoom(begun.pass.value, env.ranked[0]);
    assert Decide(begun.q, begun.pass.value, env, begun.q.builds[1]) == Start(store);
    assert begun.pass.value.remaining[1..] == [];
  }

  /** A whole pass that starts the build on `store`. */
  lemma PassStarts(es: seq<Event>, s: Sys, store: StoreId, t: StoreId, failures: nat, starts: nat)
    returns (es': seq<Event>, s': Sys)
    requires Reached(es, s) && Between(s, None, t, failures, starts)
    requires store != LOCAL && s.q.builds[1].FailuresOn(store) < MAX_STORE_RETRIES
    ensures Reached(es', s')
    ensures Between(s', Some(s.nextScope), t, failures, if store == t then starts + 1 else starts)
    ensures s'.q.builds[1] == s.q.builds[1].(store := Some(store), worker := Some(s.nextScope))
    ensures s'.tasks == s.tasks[s.nextScope := Task(1, store, false, false)] && s'.nextScope == s.nextScope + 1
  {
    var env := Only(Roomy(store, s.q.builds[1].drv));
    OnlyTurn(s, store, env);
    var begun := Step(s, BeginPass([1]));
    var started := Step(begun, Turn(env, 0));
    Extend(es, s, BeginPass([1]));
    Extend(es + [BeginPass([1])], begun, Turn(env, 0));
    Extend(es + [BeginPass([1])] + [Turn(env, 0)], started, EndPass);
    es', s' := es + [BeginPass([1])] + [Turn(env, 0)] + [EndPass], Step(started, EndPass);
  }

  lemma NothingRuns(q: Queue, store: StoreId)
    requires q.byId == {1} && 1 in q.builds && !q.builds[1].Building()
    ensures Count(RunningCounts(q), store) == 0
  {
    assert RunningOn(q, store) == {};
  }

  /** A worker reports a failure that is retried, its own or of a store the
      build has left. */
  lemma WorkerFails(es: seq<Event>, s: Sys, w: ScopeId, worker: Option<ScopeId>, t: StoreId, failures: nat, starts: nat)
    returns (es': seq<Event>, s': Sys)
    requires Reached(es, s) && Between(s, worker, t, failures, starts)
    requires w in s.tasks && !s.tasks[w].settled && !s.tasks[w].retried && s.tasks[w].build == 1
    ensures Reached(es', s')
    ensures Between(s', None, t, if s.tasks[w].store == t then failures + 1 else failures, starts)
    ensures s'.q.builds[1] == ResetForRetry(s.q.builds[1], s.tasks[w].store)
    ensures s'.nextScope == s.nextScope
  {
    Extend(es, s, Retry(w));
    es', s' := es + [Retry(w)], Step(s, Retry(w));
  }

  lemma StoreDrains(es: seq<Event>, s: Sys, store: StoreId, worker: Option<ScopeId>, t: StoreId, failures: nat, starts: nat)
    returns (es': seq<Event>, s': Sys)
    requires Reached(es, s) && Between(s, worker, t, failures, starts)
    requires s.q.builds[1].store == Some(store) && store != t
    ensures Reached(es', s')
    ensures Between(s', None, t, failures, starts)
    ensures s'.q.builds[1] == ResetForRetry(s.q.builds[1], store)
    ensures s'.tasks == s.tasks && s'.nextScope == s.nextScope
  {
    Extend(es, s, Drain(store));
    es', s' := es + [Drain(store)], Step(s, Drain(store));
    assert Drained(s.q, 1, store);
  }

  lemma Enqueues(t: StoreId) returns (es: seq<Event>, s: Sys)
    ensures Reached(es, s) && Between(s, None, t, 0, 0)
    ensures s.q.builds[1].failures == map[] && s.tasks == map[]
  {
    var e := Queued(DoEnqueue(Ask("d", None, None, false, None)));
    Extend([], INITIAL, e);
    es, s := [] + [e], Step(INITIAL, e);
  }

  /** Two failures on `t`, then a start on `u`. */
  lemma TwoFailures(t: StoreId, u: StoreId) returns (es: seq<Event>, s: Sys, w: ScopeId)
    requires t != u && t != LOCAL && u != LOCAL
    ensures Reached(es, s) && Between(s, Some(w), t, 2, 2)
    ensures s.q.builds[1].store == Some(u) && s.q.builds[1].FailuresOn(u) == 0
    ensures w in s.tasks && s.tasks[w] == Task(1, u, false, false)
  {
    es, s := Enqueues(t);
    w := s.nextScope;
    es, s := PassStarts(es, s, t, t, 0, 0);
    es, s := WorkerFails(es, s, w, Some(w), t, 0, 1);
    w := s.nextScope;
    es, s := PassStarts(es, s, t, t, 1, 1);
    es, s := WorkerFails(es, s, w, Some(w), t, 1, 2);
    w := s.nextScope;
    es, s := PassStarts(es, s, u, t, 2, 2);
  }

  /** Without that condition the bound does not hold in the transition system:
      while the third worker on `t` runs, the worker a drain of `u` had cancelled
      asks for a retry; that clears the worker on `t` without a charge to `t`,
      and the next pass starts a fourth one. */
  lemma CancelledRetryAllowsAFourthStart(t: StoreId, u: StoreId) returns (es: seq<Event>)
    requires t != u && t != LOCAL && u != LOCAL
    ensures Possible(INITIAL, es) && StartsOf(Run(INITIAL, es), 1, t) == MAX_STORE_RETRIES + 1
  {
    var s, stale;
    es, s, stale := TwoFailures(t, u);
    es, s := StoreDrains(es, s, u, Some(stale), t, 2, 2);
    var third := s.nextScope;
    es, s := PassStarts(es, s, t, t, 2, 2);
    es, s := WorkerFails(es, s, stale, Some(third), t, 2, 3);
    es, s := PassStarts(es, s, t, t, 2, 3);
  }

  // ---- a pass that stops early ----

  /** No store at all, so that a waiting build is hopeless. */
  const NOWHERE := Env([], Store(LOCAL, false, false, false, {}, 0), {}, [])

  function GoalAsk(drv: DrvPath, r: RequestId): Ask {
    Ask(drv, Some(Options(1, false)), None, true, Some(r))
  }

  function GoalBuild(drv: DrvPath, r: RequestId): Build {
    NewBuild(GoalAsk(drv, r)).(holders := {r})
  }

  /** A goal asks for a derivation the queue does not know. */
  lemma NewGoalBuild(s: Sys, drv: DrvPath, r: RequestId)
    requires drv !in s.q.byPath
    ensures var s', n := Step(s, Queued(DoEnqueue(GoalAsk(drv, r)))), s.q.nextId;
            && s'.q.builds == s.q.builds[n := GoalBuild(drv, r)]
            && s'.q.order == s.q.order + [n] && s'.q.byId == s.q.byId + {n} && s'.q.byPath == s.q.byPath[drv := n]
            && s'.q.held == s.q.held[r := HeldBy(s.q, r) + {n}]
            && s'.q.nextId == n + 1 && s'.q.givenUp == s.q.givenUp && s'.pass == s.pass
  {
    var q' := Appended(NoteJobs(s.q, GoalAsk(drv, r)), GoalAsk(drv, r));
    assert {} + {r} == {r};
    assert Hold(q', s.q.nextId, r).builds == s.q.builds[s.q.nextId := GoalBuild(drv, r)];
  }

  /** Build 1 has failed and its request has given up. */
  ghost predicate GaveUp(s: Sys) {
    && s.pass.None? && s.q.givenUp == {1} && s.q.order == [1] && s.q.byId == {1} && s.q.nextId == 2
    && s.q.builds.Keys == {1} && s.q.builds[1].Done() && s.q.builds[1].holders == {1}
    && s.q.byPath.Keys == {"f"} && s.q.held.Keys == {1}
  }

  /** A pass over one build that no store can take. */
  lemma HopelessPass(s: Sys)
    requires s.pass.None? && s.q.builds == map[1 := GoalBuild("f", 1)] && s.q.order == [1] && s.q.byId == {1}
    requires s.q.givenUp == {} && s.q.nextId == 2 && s.q.byPath.Keys == {"f"} && s.q.held.Keys == {1}
    ensures Enabled(s, BeginPass([1]))
    ensures var begun := Step(s, BeginPass([1]));
            && Enabled(begun, Turn(NOWHERE, 0))
            && var decided := Step(begun, Turn(NOWHERE, 0));
               && Enabled(decided, CarryOut)
               && Enabled(Step(decided, CarryOut), EndPass)
               && GaveUp(Step(Step(decided, CarryOut), EndPass))
  {
    assert Schedulable(s.q) == {1} && Elements([1]) == {1};
    var begun := Step(s, BeginPass([1]));
    assert Decide(begun.q, begun.pass.value, NOWHERE, begun.q.builds[1]) == Hopeless;
    assert begun.pass.value.remaining[1..] == [];
  }

  lemma RequestGivesUp() returns (es: seq<Event>, s: Sys)
    ensures Reached(es, s) && GaveUp(s)
  {
    var enqueue := Queued(DoEnqueue(GoalAsk("f", 1)));
    NewGoalBuild(INITIAL, "f", 1);
    Extend([], INITIAL, enqueue);
    var s1 := Step(INITIAL, enqueue);
    HopelessPass(s1);
    Extend([] + [enqueue], s1, BeginPass([1]));
    es, s := ThreeMore([] + [enqueue] + [BeginPass([1])], Step(s1, BeginPass([1])), Turn(NOWHERE, 0), CarryOut, EndPass);
  }

  lemma ThreeMore(es: seq<Event>, s: Sys, a: Event, b: Event, c: Event) returns (es': seq<Event>, s': Sys)
    requires Reached(es, s) && Enabled(s, a) && Enabled(Step(s, a), b) && Enabled(Step(Step(s, a), b), c)
    ensures Reached(es', s') && s' == Step(Step(Step(s, a), b), c)
  {
    Extend(es, s, a);
    Extend(es + [a], Step(s, a), b);
    Extend(es + [a] + [b], Step(Step(s, a), b), c);
    es', s' := es + [a] + [b] + [c], Step(Step(Step(s, a), b), c);
  }

  /** Two more builds: 2 is held by the request that gave up, 3 by another. */
  ghost predicate TwoMore(s: Sys) {
    && s.q.givenUp == {1} && s.q.order == [1, 2, 3] && s.q.byId == {1, 2, 3} && s.q.builds.Keys == {1, 2, 3}
    && s.q.builds[1].Done() && s.q.builds[1].holders == {1}
    && !s.q.builds[2].Done() && s.q.builds[2].worker.None? && s.q.builds[2].holders == {1}
    && !s.q.builds[3].Done() && s.q.builds[3].worker.None? && s.q.builds[3].holders == {2}
    && s.q.builds[3].requests == {} && s.q.builds[3].subscribers == map[]
    && HeldBy(s.q, 2) == {3}
  }

  lemma TwoMoreBuilds(s: Sys)
    requires GaveUp(s)
    ensures TwoMore(Step(Step(s, Queued(DoEnqueue(GoalAsk("u", 1)))), Queued(DoEnqueue(GoalAsk("p", 2)))))
    ensures Step(Step(s, Queued(DoEnqueue(GoalAsk("u", 1)))), Queued(DoEnqueue(GoalAsk("p", 2)))).pass.None?
  {
    NewGoalBuild(s, "u", 1);
    var s1 := Step(s, Queued(DoEnqueue(GoalAsk("u", 1))));
    assert s1.q.byPath.Keys == {"f", "u"} && s1.q.held.Keys == {1};
    NewGoalBuild(s1, "p", 2);
  }

  lemma TwoMoreAsked(es: seq<Event>, s: Sys) returns (es': seq<Event>, s': Sys)
    requires Reached(es, s) && GaveUp(s)
    ensures Reached(es', s') && TwoMore(s') && s'.pass.None?
  {
    var u, p := Queued(DoEnqueue(GoalAsk("u", 1))), Queued(DoEnqueue(GoalAsk("p", 2)));
    TwoMoreBuilds(s);
    Extend(es, s, u);
    Extend(es + [u], Step(s, u), p);
    es', s' := es + [u] + [p], Step(Step(s, u), p);
  }

  /** Request 2 lets go: build 3 ends and is dropped. */
  lemma ThirdIsDropped(s: Sys)
    requires TwoMore(s)
    ensures var s' := Step(Step(s, Queued(DoRelease(2))), Queued(DoPrune));
            && s'.pass == s.pass && 3 !in s'.q.order
            && 2 in s'.q.builds && !s'.q.builds[2].Done()
  {
    var s1 := Step(s, Queued(DoRelease(2)));
    assert Doomed(s1.q.builds[3]) && 3 in DoomedIds(s1.q);
  }

  /** A pass that looks at build 3 first and finds it hopeless. */
  lemma ThirdIsHopeless(s: Sys)
    requires TwoMore(s) && s.pass.None?
    ensures Enabled(s, BeginPass([3, 2])) && NobodyWants(s.q, s.q.builds[2])
    ensures var begun := Step(s, BeginPass([3, 2]));
            && Enabled(begun, Turn(NOWHERE, 0))
            && var decided := Step(begun, Turn(NOWHERE, 0));
               && TwoMore(decided) && decided.pass.Some? && decided.pass.value.verdict == Some(ToFail(3))
  {
    assert Schedulable(s.q) == {2, 3} && Elements([3, 2]) == {2, 3};
    var begun := Step(s, BeginPass([3, 2]));
    assert Decide(begun.q, begun.pass.value, NOWHERE, begun.q.builds[3]) == Hopeless;
  }

  /** The pass waits for the lock to fail build 3, which is dropped meanwhile. */
  lemma StopsAtTheDropped(begun: Sys) returns (during: seq<Event>)
    requires Enabled(begun, Turn(NOWHERE, 0))
    requires var decided := Step(begun, Turn(NOWHERE, 0));
             TwoMore(decided) && decided.pass.Some? && decided.pass.value.verdict == Some(ToFail(3))
    ensures Possible(begun, during) && SamePass(during) && Run(begun, during).pass.None?
    ensures 2 in Run(begun, during).q.builds && !Run(begun, during).q.builds[2].Done()
  {
    var turn, release, prune := Turn(NOWHERE, 0), Queued(DoRelease(2)), Queued(DoPrune);
    var s1 := Step(begun, turn);
    ThirdIsDropped(s1);
    LeadsOn(begun, [], begun, turn);
    LeadsOn(begun, [] + [turn], s1, release);
    LeadsOn(begun, [] + [turn] + [release], Step(s1, release), prune);
    LeadsOn(begun, [] + [turn] + [release] + [prune], Step(Step(s1, release), prune), CarryOut);
    during := [] + [turn] + [release] + [prune] + [CarryOut];
  }

  /** A run in which an unwanted build survives the pass: its request had given
      up before the pass began, no goal joined it, and the pass stopped at a
      build ahead of it, which was dropped after its turn had found it hopeless. */
  lemma UnwantedBuildSurvivesAStoppedPass() returns (before: seq<Event>, during: seq<Event>)
    ensures Possible(INITIAL, before)
    ensures var s := Run(INITIAL, before);
            && Enabled(s, BeginPass([3, 2])) && 2 in s.q.builds && NobodyWants(s.q, s.q.builds[2])
            && var begun := Step(s, BeginPass([3, 2]));
               && Possible(begun, during) && SamePass(during) && Run(begun, during).pass.None?
               && 2 in Run(begun, during).q.builds && !Run(begun, during).q.builds[2].Done()
  {
    var s;
    before, s := RequestGivesUp();
    before, s := TwoMoreAsked(before, s);
    ThirdIsHopeless(s);
    during := StopsAtTheDropped(Step(s, BeginPass([3, 2])));
  }
}
