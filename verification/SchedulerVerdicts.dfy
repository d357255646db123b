/** A pass decides to cancel a build, and cancels it once it has the queue lock.
    Who wants the build by then. */
module SchedulerVerdicts {
  import opened Wrappers
  import opened Ordering
  import opened BuildQueue
  import opened Scheduler
  import opened SchedulerRuns
  import opened SchedulerAttempts
  import opened SchedulerSlots
  import opened SchedulerPasses
  import opened SchedulerEnds

  /** The goal that joins the build, if it has not given up. */
  function JoinedBy(s: Sys, e: Event, id: BuildId): set<RequestId> {
    if Joins(s, e, id) then {e.op.ask.goal.value} else {}
  }

  /** The goals a step makes give up or let go: the one that is released, or the
      holders of a build that fails without `keep-going`. */
  function LeavingBy(s: Sys, e: Event): set<RequestId> {
    match e
    case Queued(op) => if op.DoRelease? then {op.r} else {}
    case Finish(scope, response) =>
      if scope !in s.tasks || !Unfinished(s.q, s.tasks[scope].build) then {} else
        var b := s.q.builds[s.tasks[scope].build];
        if response.success || b.options.None? || b.options.value.keepGoing then {} else b.holders
    case _ => {}
  }

  /** The goals that joined during the run and have neither given up nor let go
      since, besides those of `wanters` that have not. */
  function StillWanted(s: Sys, es: seq<Event>, id: BuildId, wanters: set<RequestId>): set<RequestId>
    requires Possible(s, es)
    decreases |es|
  {
    if |es| == 0 then wanters
    else StillWanted(Step(s, es[0]), es[1..], id, wanters + JoinedBy(s, es[0], id) - LeavingBy(s, es[0]))
  }

  /** The goal neither gives up nor lets go during the run. */
  ghost predicate Stays(s: Sys, es: seq<Event>, r: RequestId)
    requires Possible(s, es)
    decreases |es|
  {
    |es| == 0 || (r !in LeavingBy(s, es[0]) && Stays(Step(s, es[0]), es[1..], r))
  }

  /** The goal joins the build during the run and stays from then on. */
  ghost predicate JoinsAndStays(s: Sys, es: seq<Event>, id: BuildId, r: RequestId)
    requires Possible(s, es)
    decreases |es|
  {
    |es| > 0 && ((r in JoinedBy(s, es[0], id) && Stays(Step(s, es[0]), es[1..], r))
                 || JoinsAndStays(Step(s, es[0]), es[1..], id, r))
  }

  lemma {:induction false} StillWantedIff(s: Sys, es: seq<Event>, id: BuildId, wanters: set<RequestId>, r: RequestId)
    requires Possible(s, es)
    ensures r in StillWanted(s, es, id, wanters) <==> (r in wanters && Stays(s, es, r)) || JoinsAndStays(s, es, id, r)
    decreases |es|
  {
    if |es| > 0 {
      StillWantedIff(Step(s, es[0]), es[1..], id, wanters + JoinedBy(s, es[0], id) - LeavingBy(s, es[0]), r);
    }
  }

  function Wanters(q: Queue, id: BuildId): set<RequestId>
    requires id in q.builds
  {
    LiveWanters(q, q.builds[id])
  }

  lemma EnqueueWanters(q: Queue, a: Ask, id: BuildId)
    requires Inv(q) && !Refuses(a) && Unfinished(q, id)
    ensures id in Enqueued(q, a).0.builds
    ensures Wanters(Enqueued(q, a).0, id)
            == Wanters(q, id) + if a.fromGoal && a.goal.Some? && Existing(q, a.drv) == Some(id) && a.goal.value !in q.givenUp
                                then {a.goal.value} else {}
  {
    EnqueuedHolders(q, a);
    EnqueuedFrame(q, a);
    assert q.nextId !in q.builds;
  }

  lemma ReleaseWanters(q: Queue, r: RequestId, id: BuildId)
    requires Inv(q) && Unfinished(q, id)
    ensures id in Released(q, r).builds && Wanters(Released(q, r), id) == Wanters(q, id) - {r}
  {
    UnfinishedIsQueued(q, id);
    assert r in q.builds[id].holders <==> id in HeldBy(q, r);
  }

  lemma OtherOpKeepsGivenUp(q: Queue, op: Op)
    requires !op.DoEnqueue? && !op.DoRelease?
    ensures ApplyOp(q, op).givenUp == q.givenUp
  {
  }

  lemma OpWanters(s: Sys, op: Op, id: BuildId)
    requires Inv(s.q) && Unfinished(s.q, id)
    ensures var q' := ApplyOp(s.q, op);
            && id in q'.builds
            && Wanters(q', id) == Wanters(s.q, id) + JoinedBy(s, Queued(op), id) - LeavingBy(s, Queued(op))
  {
    if op.DoEnqueue? {
      if !Refuses(op.ask) { EnqueueWanters(s.q, op.ask, id); }
    } else if op.DoRelease? {
      ReleaseWanters(s.q, op.r, id);
    } else {
      OtherOpHolders(s.q, op);
      OtherOpKeepsGivenUp(s.q, op);
    }
  }

  lemma FinishWanters(s: Sys, scope: ScopeId, response: Response, id: BuildId)
    requires SysInv(s) && Enabled(s, Finish(scope, response)) && id in s.q.builds
    ensures var q' := AfterFinish(s.q, s.tasks[scope].build, response);
            id in q'.builds && Wanters(q', id) == Wanters(s.q, id) - LeavingBy(s, Finish(scope, response))
  {
    var done := s.tasks[scope].build;
    FinishHolders(s.q, done, response);
    if Unfinished(s.q, done) { UnfinishedIsQueued(s.q, done); }
  }

  lemma StepWanters(s: Sys, e: Event, id: BuildId)
    requires SysInv(s) && Enabled(s, e) && Sentenced(s, id) && !e.CarryOut? && Unfinished(s.q, id)
    ensures id in Step(s, e).q.builds
    ensures Wanters(Step(s, e).q, id) == Wanters(s.q, id) + JoinedBy(s, e, id) - LeavingBy(s, e)
  {
    PassWaits(s, e);
    if e.Queued? {
      OpWanters(s, e.op, id);
    } else if e.Finish? {
      FinishWanters(s, e.scope, e.response, id);
    } else {
      WorkerEventHolders(s, e, id);
    }
  }

  /** While the pass waits for the lock, the live wanters of an unfinished build
      are accounted for exactly. */
  lemma {:induction false} RunWanters(s: Sys, es: seq<Event>, id: BuildId)
    requires SysInv(s) && Possible(s, es) && Sentenced(s, id) && forall e :: e in es ==> !e.CarryOut?
    requires Unfinished(s.q, id)
    ensures Sentenced(Run(s, es), id) && SysInv(Run(s, es)) && id in Run(s, es).q.builds
    ensures Unfinished(Run(s, es).q, id) ==> Wanters(Run(s, es).q, id) == StillWanted(s, es, id, Wanters(s.q, id))
    decreases |es|
  {
    if |es| > 0 {
      var next := Step(s, es[0]);
      assert es[0] in es;
      assert forall e :: e in es[1..] ==> e in es;
      StepInv(s, es[0]);
      PassWaits(s, es[0]);
      StepWanters(s, es[0], id);
      if Unfinished(next.q, id) {
        RunWanters(next, es[1..], id);
      } else {
        StillSentenced(next, es[1..], id);
      }
    }
  }

  lemma {:induction false} StillSentenced(s: Sys, es: seq<Event>, id: BuildId)
    requires SysInv(s) && Possible(s, es) && Sentenced(s, id) && forall e :: e in es ==> !e.CarryOut?
    ensures Sentenced(Run(s, es), id) && SysInv(Run(s, es)) && id in Run(s, es).q.builds
    ensures ResultsKept(s.q, Run(s, es).q)
    decreases |es|
  {
    RunInv(s, es);
    if |es| > 0 {
      assert es[0] in es;
      assert forall e :: e in es[1..] ==> e in es;
      StepInv(s, es[0]);
      PassWaits(s, es[0]);
      StillSentenced(Step(s, es[0]), es[1..], id);
    }
  }

  /** The turn that decided to cancel found nobody who wants the build. */
  lemma SentencedUnwanted(s: Sys, env: Env, sponsor: RequestId, id: BuildId)
    requires SysInv(s) && Enabled(s, Turn(env, sponsor)) && Sentenced(Step(s, Turn(env, sponsor)), id)
    ensures var decided := Step(s, Turn(env, sponsor));
            decided.q == s.q && id in s.q.builds && Wanters(s.q, id) == {}
  {
    TurnEffect(s, env, sponsor);
  }

  /** A pass decides to cancel a build, anything happens, and then it has the
      lock. It ends the build if that is unfinished, and the live requests it
      takes the build from are exactly the goals that joined since the decision
      and have neither given up nor let go. */
  lemma CancelTakesFromIff(s: Sys, env: Env, sponsor: RequestId, es: seq<Event>, id: BuildId)
    requires SysInv(s) && Enabled(s, Turn(env, sponsor)) && Sentenced(Step(s, Turn(env, sponsor)), id)
    requires Possible(Step(s, Turn(env, sponsor)), es) && forall e :: e in es ==> !e.CarryOut?
    requires Unfinished(Run(Step(s, Turn(env, sponsor)), es).q, id)
    ensures var decided := Step(s, Turn(env, sponsor));
            var now := Run(decided, es);
            && Enabled(now, CarryOut)
            && var after := Step(now, CarryOut).q;
               && id in after.builds && after.builds[id].Done()
               && forall r :: r in Wanters(after, id) <==> JoinsAndStays(decided, es, id, r)
  {
    var decided := Step(s, Turn(env, sponsor));
    StepInv(s, Turn(env, sponsor));
    SentencedUnwanted(s, env, sponsor, id);
    if !Unfinished(decided.q, id) { StillSentenced(decided, es, id); }
    RunWanters(decided, es, id);
    var now := Run(decided, es);
    CarryOutEffect(now);
    CancelEnds(now.q, id);
    CancelKeepsWanters(now.q, id);
    forall r
      ensures r in Wanters(CarriedOut(now).q, id) <==> JoinsAndStays(decided, es, id, r)
    { StillWantedIff(decided, es, id, {}, r); }
  }

  lemma CancelKeepsWanters(q: Queue, id: BuildId)
    requires id in q.builds
    ensures id in CancelledUnwanted(q, id).builds && Wanters(CancelledUnwanted(q, id), id) == Wanters(q, id)
  {
  }

  lemma {:induction false} NobodyStaysNobody(s: Sys, es: seq<Event>, id: BuildId, r: RequestId)
    requires Possible(s, es) && NobodyJoinsSince(s, es, id)
    ensures !JoinsAndStays(s, es, id, r)
    decreases |es|
  {
    if |es| > 0 {
      NobodyStaysNobody(Step(s, es[0]), es[1..], id, r);
    }
  }

  ghost predicate NobodyJoinsSince(s: Sys, es: seq<Event>, id: BuildId)
    requires Possible(s, es)
    decreases |es|
  {
    |es| == 0 || (!Joins(s, es[0], id) && NobodyJoinsSince(Step(s, es[0]), es[1..], id))
  }

  /** So a cancel takes a build from no live request when none joins it between
      the decision and the lock. */
  lemma UndisturbedCancelTakesFromNobody(s: Sys, env: Env, sponsor: RequestId, es: seq<Event>, id: BuildId)
    requires SysInv(s) && Enabled(s, Turn(env, sponsor)) && Sentenced(Step(s, Turn(env, sponsor)), id)
    requires Possible(Step(s, Turn(env, sponsor)), es) && forall e :: e in es ==> !e.CarryOut?
    requires Unfinished(Run(Step(s, Turn(env, sponsor)), es).q, id)
    requires NobodyJoinsSince(Step(s, Turn(env, sponsor)), es, id)
    ensures var now := Run(Step(s, Turn(env, sponsor)), es);
            Enabled(now, CarryOut) && id in Step(now, CarryOut).q.builds && Wanters(Step(now, CarryOut).q, id) == {}
  {
    CancelTakesFromIff(s, env, sponsor, es, id);
    forall r
      ensures !JoinsAndStays(Step(s, Turn(env, sponsor)), es, id, r)
    { NobodyStaysNobody(Step(s, Turn(env, sponsor)), es, id, r); }
  }

  // ---- a run in which a wanted build is cancelled ----

  /** Build 2 waits, held by the request that gave up. */
  ghost predicate OneMore(s: Sys) {
    && s.q.givenUp == {1} && s.q.byId == {1, 2} && s.q.builds.Keys == {1, 2} && s.q.builds[1].Done()
    && !s.q.builds[2].Done() && s.q.builds[2].worker.None? && s.q.builds[2].holders == {1}
    && "u" in s.q.byPath && s.q.byPath["u"] == 2
  }

  lemma OneMoreBuild(s: Sys)
    requires GaveUp(s)
    ensures OneMore(Step(s, Queued(DoEnqueue(GoalAsk("u", 1))))) && Step(s, Queued(DoEnqueue(GoalAsk("u", 1)))).pass.None?
  {
    NewGoalBuild(s, "u", 1);
  }

  /** A pass that decides to cancel build 2. */
  lemma SecondIsSentenced(s: Sys)
    requires OneMore(s) && s.pass.None?
    ensures Enabled(s, BeginPass([2]))
    ensures var begun := Step(s, BeginPass([2]));
            && Enabled(begun, Turn(NOWHERE, 0))
            && var decided := Step(begun, Turn(NOWHERE, 0));
               OneMore(decided) && Sentenced(decided, 2)
  {
    assert Schedulable(s.q) == {2} && Elements([2]) == {2};
    var begun := Step(s, BeginPass([2]));
    assert Decide(begun.q, begun.pass.value, NOWHERE, begun.q.builds[2]) == Unwanted;
  }

  /** Request 2 joins build 2 before the pass has the lock. */
  lemma SecondIsTaken(s: Sys)
    requires OneMore(s) && Sentenced(s, 2)
    ensures var joined := Step(s, Queued(DoEnqueue(GoalAsk("u", 2))));
            && Enabled(joined, CarryOut) && Sentenced(joined, 2) && Unfinished(joined.q, 2)
            && var after := Step(joined, CarryOut).q;
               2 in after.builds && after.builds[2].Done() && Wanters(after, 2) == {2}
  {
    assert Existing(s.q, "u") == Some(2);
    JoinedHolders(NoteJobs(s.q, GoalAsk("u", 2)), 2, GoalAsk("u", 2));
    CarryOutEffect(Step(s, Queued(DoEnqueue(GoalAsk("u", 2)))));
  }

  lemma SecondWaits() returns (es: seq<Event>, s: Sys)
    ensures Reached(es, s) && OneMore(s) && s.pass.None?
  {
    var again := Queued(DoEnqueue(GoalAsk("u", 1)));
    es, s := RequestGivesUp();
    OneMoreBuild(s);
    Extend(es, s, again);
    es, s := es + [again], Step(s, again);
  }

  /** The pass decides, and request 2 joins. */
  lemma SecondJoined(es: seq<Event>, s: Sys) returns (es': seq<Event>, s': Sys)
    requires Reached(es, s) && OneMore(s) && s.pass.None?
    ensures Reached(es', s') && Enabled(s', CarryOut) && Sentenced(s', 2) && Unfinished(s'.q, 2)
    ensures var after := Step(s', CarryOut).q; 2 in after.builds && after.builds[2].Done() && Wanters(after, 2) == {2}
  {
    var join := Queued(DoEnqueue(GoalAsk("u", 2)));
    SecondIsSentenced(s);
    SecondIsTaken(Step(Step(s, BeginPass([2])), Turn(NOWHERE, 0)));
    es', s' := ThreeMore(es, s, BeginPass([2]), Turn(NOWHERE, 0), join);
  }

  /** A run from the empty system that ends with a build cancelled as unwanted
      while a live request holds it. */
  lemma WantedBuildIsCancelled() returns (es: seq<Event>)
    ensures Possible(INITIAL, es)
    ensures var s := Run(INITIAL, es);
            && Enabled(s, CarryOut) && Sentenced(s, 2) && Unfinished(s.q, 2)
            && var after := Step(s, CarryOut).q;
               2 in after.builds && after.builds[2].Done() && Wanters(after, 2) == {2}
  {
    var s;
    es, s := SecondWaits();
    es, s := SecondJoined(es, s);
  }
}
