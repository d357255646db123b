/** One pass of the scheduler among everything else that happens: when it
    reaches its end, and which events end a build it still has ahead. */
module SchedulerPasses {
  import opened Wrappers
  import opened Ordering
  import opened BuildQueue
  import opened Scheduler
  import opened SchedulerRuns

  // ---- when a pass reaches its end ----

  /** The pass gets the lock to fail a build that the queue has dropped. */
  predicate Aborts(s: Sys, e: Event) {
    && e.CarryOut? && s.pass.Some? && s.pass.value.verdict.Some?
    && s.pass.value.verdict.value.ToFail? && s.pass.value.verdict.value.id !in s.q.order
  }

  /** The run begins no pass and ends none. */
  ghost predicate SamePass(es: seq<Event>) {
    forall e :: e in es ==> !e.BeginPass? && !e.EndPass?
  }

  ghost predicate AbortFree(s: Sys, es: seq<Event>)
    requires Possible(s, es)
    decreases |es|
  {
    |es| == 0 || (!Aborts(s, es[0]) && AbortFree(Step(s, es[0]), es[1..]))
  }

  function Turns(es: seq<Event>): nat {
    if |es| == 0 then 0 else (if es[0].Turn? then 1 else 0) + Turns(es[1..])
  }

  function CarriedOuts(es: seq<Event>): nat {
    if |es| == 0 then 0 else (if es[0].CarryOut? then 1 else 0) + CarriedOuts(es[1..])
  }

  /** The turn decides to cancel or to fail its build. */
  predicate GivesVerdict(s: Sys, e: Event) {
    && e.Turn? && s.pass.Some? && |s.pass.value.remaining| > 0 && s.pass.value.remaining[0] in s.q.builds
    && var d := Decide(s.q, s.pass.value, e.env, s.q.builds[s.pass.value.remaining[0]]); d.Unwanted? || d.Hopeless?
  }

  function Verdicts(s: Sys, es: seq<Event>): nat
    requires Possible(s, es)
    decreases |es|
  {
    if |es| == 0 then 0 else (if GivesVerdict(s, es[0]) then 1 else 0) + Verdicts(Step(s, es[0]), es[1..])
  }

  /** The verdict a pass waits to carry out, as a number. */
  function Waits(p: Pass): nat {
    if p.verdict.Some? then 1 else 0
  }

  lemma StepOfPass(s: Sys, e: Event)
    requires Enabled(s, e) && s.pass.Some? && !e.BeginPass? && !e.EndPass?
    ensures Step(s, e).pass.None? <==> Aborts(s, e)
    ensures !Aborts(s, e) ==>
              && Step(s, e).pass.value.remaining == (if e.Turn? then s.pass.value.remaining[1..] else s.pass.value.remaining)
              && Waits(Step(s, e).pass.value) + (if e.CarryOut? then 1 else 0)
                 == Waits(s.pass.value) + (if GivesVerdict(s, e) then 1 else 0)
    ensures Aborts(s, e) ==> Step(s, e) == s.(pass := None)
  {
    if e.Turn? {
      TurnOfPass(s, e.env, e.sponsor);
    } else if e.CarryOut? {
      CarryOutEffect(s);
    }
  }

  lemma TurnOfPass(s: Sys, env: Env, sponsor: RequestId)
    requires Enabled(s, Turn(env, sponsor))
    ensures var s' := TakeTurn(s, env, sponsor);
            && s'.pass.Some? && s'.pass.value.remaining == s.pass.value.remaining[1..]
            && Waits(s'.pass.value) == if GivesVerdict(s, Turn(env, sponsor)) then 1 else 0
  {
    TurnEffect(s, env, sponsor);
  }

  lemma {:induction false} NoPassStaysSo(s: Sys, es: seq<Event>)
    requires Possible(s, es) && SamePass(es) && s.pass.None?
    ensures Run(s, es).pass.None?
    decreases |es|
  {
    if |es| > 0 {
      assert es[0] in es;
      assert forall e :: e in es[1..] ==> e in es;
      NoPassStaysSo(Step(s, es[0]), es[1..]);
    }
  }

  lemma {:induction false} PassShape(s: Sys, es: seq<Event>)
    requires Possible(s, es) && SamePass(es) && s.pass.Some?
    ensures Run(s, es).pass.Some? <==> AbortFree(s, es)
    ensures AbortFree(s, es) ==>
              && Turns(es) <= |s.pass.value.remaining|
              && Run(s, es).pass.value.remaining == s.pass.value.remaining[Turns(es)..]
              && Waits(Run(s, es).pass.value) + CarriedOuts(es) == Waits(s.pass.value) + Verdicts(s, es)
    decreases |es|
  {
    if |es| > 0 {
      assert es[0] in es;
      assert forall e :: e in es[1..] ==> e in es;
      StepOfPass(s, es[0]);
      if Aborts(s, es[0]) {
        NoPassStaysSo(Step(s, es[0]), es[1..]);
      } else {
        PassShape(Step(s, es[0]), es[1..]);
        if es[0].Turn? && AbortFree(s, es) {
          var r, k := s.pass.value.remaining, Turns(es[1..]);
          assert r[1..][k..] == r[1 + k..];
        }
      }
    }
  }

  /** A pass reaches its end exactly when every build had its turn, every verdict
      was carried out, and no build was dropped between the turn that found it
      hopeless and the lock, or before. */
  lemma PassReachesItsEndIff(s: Sys, es: seq<Event>)
    requires Possible(s, es) && SamePass(es) && s.pass.Some?
    ensures Enabled(Run(s, es), EndPass) <==>
              AbortFree(s, es) && Turns(es) == |s.pass.value.remaining| && CarriedOuts(es) == Waits(s.pass.value) + Verdicts(s, es)
  {
    PassShape(s, es);
  }

  // ---- only a prune makes a pass stop ----

  ghost predicate AllQueued(s: Sys) {
    s.pass.Some? ==>
      && (forall id :: id in s.pass.value.remaining ==> id in s.q.order)
      && (s.pass.value.verdict.Some? ==> s.pass.value.verdict.value.id in s.q.order)
  }

  ghost predicate Prunes(e: Event) {
    e.Queued? && e.op.DoPrune?
  }

  lemma OpKeepsOrder(q: Queue, op: Op, id: BuildId)
    requires !op.DoPrune? && id in q.order
    ensures id in ApplyOp(q, op).order
  {
  }

  lemma TurnKeepsQueued(s: Sys, env: Env, sponsor: RequestId)
    requires Enabled(s, Turn(env, sponsor)) && AllQueued(s)
    ensures AllQueued(Step(s, Turn(env, sponsor)))
  {
    assert s.pass.value.remaining[0] in s.pass.value.remaining;
  }

  lemma StepKeepsQueued(s: Sys, e: Event)
    requires Enabled(s, e) && AllQueued(s) && !Prunes(e) && !e.BeginPass?
    ensures AllQueued(Step(s, e)) && !Aborts(s, e)
  {
    if e.Queued? && s.pass.Some? {
      forall id | id in s.pass.value.remaining
        ensures id in Step(s, e).q.order
      { OpKeepsOrder(s.q, e.op, id); }
      if s.pass.value.verdict.Some? { OpKeepsOrder(s.q, e.op, s.pass.value.verdict.value.id); }
    }
    if e.Turn? {
      TurnKeepsQueued(s, e.env, e.sponsor);
    }
  }

  lemma {:induction false} UnprunedRun(s: Sys, es: seq<Event>)
    requires Possible(s, es) && SamePass(es) && AllQueued(s) && forall e :: e in es ==> !Prunes(e)
    ensures AbortFree(s, es)
    decreases |es|
  {
    if |es| > 0 {
      assert es[0] in es;
      assert forall e :: e in es[1..] ==> e in es;
      StepKeepsQueued(s, es[0]);
      UnprunedRun(Step(s, es[0]), es[1..]);
    }
  }

  /** A pass during which nothing is pruned reaches its end when every build had
      its turn and every verdict was carried out. */
  lemma UnprunedPassReachesItsEnd(s: Sys, snapshot: seq<BuildId>, es: seq<Event>)
    requires SysInv(s) && Enabled(s, BeginPass(snapshot))
    requires Possible(Step(s, BeginPass(snapshot)), es) && SamePass(es) && forall e :: e in es ==> !Prunes(e)
    ensures Enabled(Run(Step(s, BeginPass(snapshot)), es), EndPass) <==>
              Turns(es) == |snapshot| && CarriedOuts(es) == Verdicts(Step(s, BeginPass(snapshot)), es)
  {
    var begun := Step(s, BeginPass(snapshot));
    forall id | id in snapshot
      ensures id in s.q.order
    {
      assert id in Elements(snapshot);
      assert id in s.q.byId && s.q.byId == Elements(s.q.order);
    }
    UnprunedRun(begun, es);
    PassReachesItsEndIff(begun, es);
  }

  // ---- which events end a build ----

  /** What an event has to be to end an unfinished build. */
  predicate EndsBuild(s: Sys, e: Event, id: BuildId)
    requires id in s.q.builds
  {
    var b := s.q.builds[id];
    match e
    case Queued(op) =>
      if op.DoRelease? then b.holders == {op.r}
      else op.DoUnsubscribe? && op.id == id && id in s.q.byId && op.client in b.subscribers
           && Abandoned(WithoutSubscriber(b, op.client))
    case CarryOut => s.pass.Some? && s.pass.value.verdict.Some? && s.pass.value.verdict.value.id == id
    case Finish(scope, _) => scope in s.tasks && s.tasks[scope].build == id
    case _ => false
  }

  lemma EnqueueKeepsResult(q: Queue, a: Ask, id: BuildId)
    requires Inv(q) && !Refuses(a) && id in q.builds
    ensures id in Enqueued(q, a).0.builds && Enqueued(q, a).0.builds[id].result == q.builds[id].result
  {
    assert q.nextId !in q.builds;
  }

  lemma LeavingEndsIff(q: Queue, left: BuildId, client: Client, id: BuildId)
    requires Unfinished(q, id)
    ensures var q' := Unsubscribed(q, left, client);
            && id in q'.builds
            && (q'.builds[id].Done() <==> left == id && id in q.byId && client in q.builds[id].subscribers
                                          && Abandoned(WithoutSubscriber(q.builds[id], client)))
  {
  }

  lemma OtherOpEndsNothing(q: Queue, op: Op, id: BuildId)
    requires !op.DoEnqueue? && !op.DoRelease? && !op.DoUnsubscribe? && id in q.builds
    ensures id in ApplyOp(q, op).builds && ApplyOp(q, op).builds[id].result == q.builds[id].result
  {
  }

  lemma OpEndsIff(s: Sys, op: Op, id: BuildId)
    requires Inv(s.q) && Unfinished(s.q, id)
    ensures var q' := ApplyOp(s.q, op); id in q'.builds && (q'.builds[id].Done() <==> EndsBuild(s, Queued(op), id))
  {
    if op.DoEnqueue? {
      if !Refuses(op.ask) { EnqueueKeepsResult(s.q, op.ask, id); }
    } else if op.DoRelease? {
      ReleaseEndsExactly(s.q, op.r, id);
    } else if op.DoUnsubscribe? {
      LeavingEndsIff(s.q, op.id, op.client, id);
    } else {
      OtherOpEndsNothing(s.q, op, id);
    }
  }

  lemma UnfinishedIsQueued(q: Queue, id: BuildId)
    requires Inv(q) && Unfinished(q, id)
    ensures id in q.byId && id in q.order
  {
    assert id in Elements(q.order);
  }

  /** Completing or failing one build. */
  lemma CompletionEndsOne(q: Queue, done: BuildId, response: Response, id: BuildId)
    requires done in q.builds && id in q.builds
    ensures var q' := AfterFinish(q, done, response);
            && id in q'.builds
            && (id != done ==> q'.builds[id].result == q.builds[id].result)
            && (id == done && id in q.order ==> q'.builds[id].Done())
  {
  }

  lemma CancelEndsOne(q: Queue, head: BuildId, id: BuildId)
    requires id in q.builds
    ensures var q' := CancelledUnwanted(q, head);
            && id in q'.builds
            && (id != head ==> q'.builds[id].result == q.builds[id].result)
            && (id == head && id in q.byId ==> q'.builds[id].Done())
  {
  }

  /** A turn gives a worker or leaves the queue alone. */
  lemma TurnOnQueue(s: Sys, env: Env, sponsor: RequestId, id: BuildId)
    requires Enabled(s, Turn(env, sponsor)) && id in s.q.builds
    ensures var head, q' := s.pass.value.remaining[0], TakeTurn(s, env, sponsor).q;
            match Decide(s.q, s.pass.value, env, s.q.builds[head])
            case Start(store) => q' == Assigned(s.q, head, store, s.nextScope)
            case _ => q' == s.q
  {
  }

  lemma CarryOutEndsIff(s: Sys, id: BuildId)
    requires SysInv(s) && Enabled(s, CarryOut) && Unfinished(s.q, id)
    ensures var q' := CarriedOut(s).q; id in q'.builds && (q'.builds[id].Done() <==> EndsBuild(s, CarryOut, id))
  {
    UnfinishedIsQueued(s.q, id);
    CarryOutEffect(s);
    var decided := s.pass.value.verdict.value.id;
    CompletionEndsOne(s.q, decided, Response(false, "no store"), id);
    CancelEndsOne(s.q, decided, id);
  }

  lemma FinishEndsIff(s: Sys, scope: ScopeId, response: Response, id: BuildId)
    requires Inv(s.q) && Enabled(s, Finish(scope, response)) && s.tasks[scope].build in s.q.builds && Unfinished(s.q, id)
    ensures var q' := AfterFinish(s.q, s.tasks[scope].build, response);
            id in q'.builds && (q'.builds[id].Done() <==> s.tasks[scope].build == id)
  {
    UnfinishedIsQueued(s.q, id);
    CompletionEndsOne(s.q, s.tasks[scope].build, response, id);
  }

  lemma WorkerEventEndsNothing(s: Sys, e: Event, id: BuildId)
    requires Enabled(s, e) && (e.Retry? || e.Exit? || e.Drain?) && id in s.q.builds
    ensures id in Step(s, e).q.builds && Step(s, e).q.builds[id].result == s.q.builds[id].result
  {
  }

  /** Exactly which events end an unfinished build, in every reachable state. */
  lemma StepEndsIff(s: Sys, e: Event, id: BuildId)
    requires SysInv(s) && Enabled(s, e) && Unfinished(s.q, id)
    ensures id in Step(s, e).q.builds && (Step(s, e).q.builds[id].Done() <==> EndsBuild(s, e, id))
  {
    match e {
      case Queued(op) => OpEndsIff(s, op, id);
      case Turn(env, sponsor) => TurnOnQueue(s, env, sponsor, id);
      case CarryOut => CarryOutEndsIff(s, id);
      case Finish(scope, response) => FinishEndsIff(s, scope, response, id);
      case BeginPass(_) =>
      case EndPass =>
      case _ => WorkerEventEndsNothing(s, e, id);
    }
  }

  /** Some event of the run ends the build. */
  ghost predicate EndedDuring(s: Sys, es: seq<Event>, id: BuildId)
    requires Possible(s, es)
    decreases |es|
  {
    |es| > 0 && id in s.q.builds && (EndsBuild(s, es[0], id) || EndedDuring(Step(s, es[0]), es[1..], id))
  }

  lemma {:induction false} RunEndsIff(s: Sys, es: seq<Event>, id: BuildId)
    requires SysInv(s) && Possible(s, es) && Unfinished(s.q, id)
    ensures id in Run(s, es).q.builds && (Run(s, es).q.builds[id].Done() <==> EndedDuring(s, es, id))
    decreases |es|
  {
    if |es| > 0 {
      StepInv(s, es[0]);
      StepEndsIff(s, es[0], id);
      if EndsBuild(s, es[0], id) {
        RunInv(Step(s, es[0]), es[1..]);
      } else {
        RunEndsIff(Step(s, es[0]), es[1..], id);
      }
    }
  }

  // ---- a build that ends during a pass can still be given a worker ----

  lemma AheadWasInSnapshot(s: Sys, snapshot: seq<BuildId>, es: seq<Event>, id: BuildId)
    requires SysInv(s) && Enabled(s, BeginPass(snapshot))
    requires Possible(Step(s, BeginPass(snapshot)), es) && SamePass(es)
    requires Run(Step(s, BeginPass(snapshot)), es).pass.Some?
    requires id in Run(Step(s, BeginPass(snapshot)), es).pass.value.remaining
    ensures id in snapshot && Unfinished(s.q, id)
  {
    PassShape(Step(s, BeginPass(snapshot)), es);
    assert id in Elements(snapshot);
  }

  lemma StartedAtTurnIff(s: Sys, env: Env, sponsor: RequestId)
    requires SysInv(s) && Enabled(s, Turn(env, sponsor))
    ensures var id := s.pass.value.remaining[0];
            var b, q' := s.q.builds[id], TakeTurn(s, env, sponsor).q;
            && id in q'.builds
            && (q'.builds[id].Building() <==> Decide(s.q, s.pass.value, env, b).Start?)
            && (Decide(s.q, s.pass.value, env, b).Start? ==> q'.builds[id].result == b.result)
  {
    PoppedInv(s);
    TurnOnQueue(s, env, sponsor, s.pass.value.remaining[0]);
  }

  /** A pass does not look at `is_done`: a turn gives a worker to a finished
      build exactly when it decides to start it and an event since the pass
      began has ended it. */
  lemma FinishedBuildIsStartedIff(s: Sys, snapshot: seq<BuildId>, es: seq<Event>, env: Env, sponsor: RequestId, id: BuildId)
    requires SysInv(s) && Enabled(s, BeginPass(snapshot))
    requires Possible(Step(s, BeginPass(snapshot)), es) && SamePass(es)
    requires var now := Run(Step(s, BeginPass(snapshot)), es);
             Enabled(now, Turn(env, sponsor)) && now.pass.value.remaining[0] == id
    ensures var begun := Step(s, BeginPass(snapshot));
            var now := Run(begun, es);
            var after := Step(now, Turn(env, sponsor)).q;
            id in after.builds && id in now.q.builds
            && (after.builds[id].Building() && after.builds[id].Done() <==>
                  Decide(now.q, now.pass.value, env, now.q.builds[id]).Start? && EndedDuring(begun, es, id))
  {
    var begun := Step(s, BeginPass(snapshot));
    var now := Run(begun, es);
    StepInv(s, BeginPass(snapshot));
    RunInv(begun, es);
    assert id in now.pass.value.remaining;
    AheadWasInSnapshot(s, snapshot, es, id);
    RunEndsIff(begun, es, id);
    StartedAtTurnIff(now, env, sponsor);
  }

  /** The events that can end a build the pass still has ahead. */
  predicate MayEnd(e: Event) {
    e.Finish? || (e.Queued? && (e.op.DoRelease? || e.op.DoUnsubscribe?))
  }

  lemma {:induction false} AheadIsUntouched(s: Sys, es: seq<Event>, id: BuildId)
    requires SysInv(s) && Possible(s, es) && SamePass(es) && forall e :: e in es ==> !MayEnd(e)
    requires s.pass.Some? && Run(s, es).pass.Some? && id in Run(s, es).pass.value.remaining
    ensures !EndedDuring(s, es, id)
    decreases |es|
  {
    if |es| > 0 {
      var e, next := es[0], Step(s, es[0]);
      assert e in es;
      assert forall x :: x in es[1..] ==> x in es;
      StepInv(s, e);
      StepOfPass(s, e);
      if Aborts(s, e) {
        NoPassStaysSo(next, es[1..]);
      }
      PassShape(next, es[1..]);
      assert id in next.pass.value.remaining;
      if e.Turn? { PoppedInv(s); }
      AheadIsUntouched(next, es[1..], id);
    }
  }

  /** So no finished build is started by a pass during which no request lets go,
      no client leaves and no worker completes. */
  lemma UndisturbedPassStartsNoFinishedBuild(s: Sys, snapshot: seq<BuildId>, es: seq<Event>, env: Env, sponsor: RequestId, id: BuildId)
    requires SysInv(s) && Enabled(s, BeginPass(snapshot))
    requires Possible(Step(s, BeginPass(snapshot)), es) && SamePass(es) && forall e :: e in es ==> !MayEnd(e)
    requires var now := Run(Step(s, BeginPass(snapshot)), es);
             Enabled(now, Turn(env, sponsor)) && now.pass.value.remaining[0] == id
    ensures var after := Step(Run(Step(s, BeginPass(snapshot)), es), Turn(env, sponsor)).q;
            id in after.builds && !(after.builds[id].Building() && after.builds[id].Done())
  {
    var begun := Step(s, BeginPass(snapshot));
    assert id in Run(begun, es).pass.value.remaining;
    StepInv(s, BeginPass(snapshot));
    AheadIsUntouched(begun, es, id);
    FinishedBuildIsStartedIff(s, snapshot, es, env, sponsor, id);
  }
}
