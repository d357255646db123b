/** Local builds and the `max-jobs` of the requests that hold them. */
module SchedulerSlots {
  import opened Wrappers
  import opened Ordering
  import opened BuildQueue
  import opened Scheduler
  import opened SchedulerRuns
  import Closure

  /** The running local builds that were started on a slot of the request. */
  function Sponsored(s: Sys, r: RequestId): set<BuildId> {
    set id | id in s.sponsor && id in s.q.builds && s.sponsor[id] == r
             && s.q.builds[id].Building() && s.q.builds[id].store == Some(LOCAL)
  }

  ghost predicate SponsorsHold(s: Sys) {
    forall id :: id in s.sponsor ==> id in s.q.builds && s.sponsor[id] in s.q.builds[id].holders
  }

  ghost predicate SlotsRespected(s: Sys) {
    && SponsorsHold(s)
    && forall r :: r in s.q.maxJobs && s.q.maxJobs[r].Some? ==> |Sponsored(s, r)| <= AtLeastOne(s.q.maxJobs[r].value)
  }

  /** A live request keeps the `max-jobs` it came with. */
  ghost predicate JobsFixed(s: Sys, e: Event) {
    e.Queued? && e.op.DoEnqueue? && e.op.ask.goal.Some? && e.op.ask.goal.value in s.q.maxJobs ==>
      JobsOf(e.op.ask.options) == s.q.maxJobs[e.op.ask.goal.value]
  }

  ghost predicate NoNewWork(q: Queue, q': Queue) {
    forall id :: id in q.builds && id in q'.builds && q'.builds[id].Building() ==>
      q.builds[id].Building() && q'.builds[id].store == q.builds[id].store
  }

  ghost predicate JobsKept(q: Queue, q': Queue) {
    forall r :: r in q'.maxJobs && r in q.maxJobs ==> q'.maxJobs[r] == q.maxJobs[r]
  }

  lemma NoSponsorWithoutJobs(s: Sys, r: RequestId)
    requires HoldersAgree(s.q) && SponsorsHold(s) && r !in s.q.maxJobs
    ensures Sponsored(s, r) == {}
  {
    forall id | id in s.sponsor
      ensures s.sponsor[id] in s.q.maxJobs
    {
      assert s.sponsor[id] in s.q.builds[id].holders;
      assert id in HeldBy(s.q, s.sponsor[id]);
    }
  }

  lemma SlotsKept(s: Sys, s': Sys)
    requires SlotsRespected(s) && HoldersAgree(s.q) && SponsorsHold(s')
    requires NoNewWork(s.q, s'.q) && JobsKept(s.q, s'.q)
    requires forall id :: id in s'.sponsor ==> id in s.sponsor && s'.sponsor[id] == s.sponsor[id]
    ensures SlotsRespected(s')
  {
    forall r | r in s'.q.maxJobs && s'.q.maxJobs[r].Some?
      ensures |Sponsored(s', r)| <= AtLeastOne(s'.q.maxJobs[r].value)
    {
      assert Sponsored(s', r) <= Sponsored(s, r);
      Closure.SubsetSizeLe(Sponsored(s', r), Sponsored(s, r));
      if r !in s.q.maxJobs {
        NoSponsorWithoutJobs(s, r);
      }
    }
  }

  /** Holders stay, but for a request that lets go. */
  ghost predicate HoldersStay(q: Queue, q': Queue, gone: set<RequestId>) {
    forall id :: id in q.builds ==> id in q'.builds && q.builds[id].holders - gone <= q'.builds[id].holders
  }

  lemma EnqueueHolders(q: Queue, a: Ask)
    requires Inv(q) && !Refuses(a)
    ensures HoldersStay(q, Enqueued(q, a).0, {})
    ensures Enqueued(q, a).0.maxJobs == NoteJobs(q, a).maxJobs
  {
    EnqueuedHolders(q, a);
    QuietEnqueue(q, a);
  }

  lemma HoldersStayTransitive(q: Queue, q': Queue, q'': Queue)
    requires HoldersStay(q, q', {}) && HoldersStay(q', q'', {})
    ensures HoldersStay(q, q'', {})
  {
  }

  lemma OneBuildHolders(q: Queue, id: BuildId, b: Build)
    requires id in q.builds && b.holders == q.builds[id].holders
    ensures HoldersStay(q, SetBuild(q, id, b), {})
  {
  }

  lemma UnsubscribeHolders(q: Queue, id: BuildId, client: Client)
    ensures HoldersStay(q, Unsubscribed(q, id, client), {}) && Unsubscribed(q, id, client).maxJobs == q.maxJobs
  {
    if id in q.byId && id in q.builds && client in q.builds[id].subscribers {
      var left := WithoutSubscriber(q.builds[id], client);
      var after := SetBuild(q, id, left);
      OneBuildHolders(q, id, left);
      if Abandoned(left) {
        OneBuildHolders(after, id, Cancel(after, id, "disconnected").builds[id]);
        HoldersStayTransitive(q, after, Cancel(after, id, "disconnected"));
      }
    }
  }

  lemma ReleaseHolders(q: Queue, r: RequestId)
    ensures HoldersStay(q, Released(q, r), {r}) && JobsKept(q, Released(q, r))
  {
  }

  lemma OpHolders(q: Queue, op: Op)
    requires Inv(q) && !op.DoEnqueue?
    ensures HoldersStay(q, ApplyOp(q, op), if op.DoRelease? then {op.r} else {})
    ensures JobsKept(q, ApplyOp(q, op))
  {
    match op {
      case DoSubscribe(id, client, cancelOnLeave, replayed) =>
        if id in q.byId {
          OneBuildHolders(q, id, WithSubscriber(q.builds[id], client, cancelOnLeave, replayed));
        }
      case DoUnsubscribe(id, client) => UnsubscribeHolders(q, id, client);
      case DoLoseSubscriber(id, client) =>
        if id in q.builds && client in q.builds[id].subscribers {
          OneBuildHolders(q, id, WithoutSubscriber(q.builds[id], client));
        }
      case DoRelease(r) => ReleaseHolders(q, r);
      case DoPrune =>
      case DoDropRequest(r) =>
    }
  }

  lemma QuietMeansNoNewWork(q: Queue, q': Queue)
    requires KeepsWork(q.builds, q'.builds)
    ensures NoNewWork(q, q')
  {
    forall id | id in q.builds && id in q'.builds && q'.builds[id].Building()
      ensures q.builds[id].Building() && q'.builds[id].store == q.builds[id].store
    { assert SameWork(q.builds[id], q'.builds[id]); }
  }

  lemma SponsorsStillHold(s: Sys, s': Sys, gone: set<RequestId>)
    requires SponsorsHold(s) && HoldersStay(s.q, s'.q, gone)
    requires forall id :: id in s'.sponsor ==> id in s.sponsor && s'.sponsor[id] == s.sponsor[id] && s.sponsor[id] !in gone
    ensures SponsorsHold(s')
  {
  }

  lemma EnqueueKeepsSlots(s: Sys, a: Ask)
    requires Inv(s.q) && SlotsRespected(s) && !Refuses(a) && JobsFixed(s, Queued(DoEnqueue(a)))
    ensures SlotsRespected(Step(s, Queued(DoEnqueue(a))))
  {
    var s' := Step(s, Queued(DoEnqueue(a)));
    QuietEnqueue(s.q, a);
    QuietMeansNoNewWork(s.q, s'.q);
    EnqueueHolders(s.q, a);
    SponsorsStillHold(s, s', {});
    SlotsKept(s, s');
  }

  lemma QueuedKeepsSlots(s: Sys, op: Op)
    requires SysInv(s) && SlotsRespected(s) && JobsFixed(s, Queued(op))
    ensures SlotsRespected(Step(s, Queued(op)))
  {
    var s' := Step(s, Queued(op));
    if op.DoEnqueue? {
      if Refuses(op.ask) { SameQueueKeepsSlots(s, s'); } else { EnqueueKeepsSlots(s, op.ask); }
    } else {
      WorkersUnique(s);
      QuietOp(s.q, op);
      QuietMeansNoNewWork(s.q, s'.q);
      OpHolders(s.q, op);
      SponsorsStillHold(s, s', if op.DoRelease? then {op.r} else {});
      SlotsKept(s, s');
    }
  }

  /** A local start takes the slot of a wanter that had one. */
  lemma StartedKeepsSlots(s: Sys, p: Pass, id: BuildId, store: StoreId, sponsor: RequestId)
    requires SlotsRespected(s) && Indexed(s.q) && id in s.q.builds && s.q.builds[id].worker.None?
    requires Deduplicated(s.q) && HoldersAgree(s.q)
    requires store == LOCAL && LiveWanters(s.q, s.q.builds[id]) != {} ==> sponsor in Sponsors(s.q, s.q.builds[id])
    ensures SlotsRespected(Started(s, p, id, store, sponsor))
  {
    var s' := Started(s, p, id, store, sponsor);
    forall r | r in s'.q.maxJobs && s'.q.maxJobs[r].Some?
      ensures |Sponsored(s', r)| <= AtLeastOne(s'.q.maxJobs[r].value)
    {
      if id in Sponsored(s', r) {
        SponsoredAreCounted(s, r);
        assert Sponsored(s', r) == Sponsored(s, r) + {id};
        assert HasLocalSlot(s.q, r);
      } else {
        assert Sponsored(s', r) <= Sponsored(s, r);
        Closure.SubsetSizeLe(Sponsored(s', r), Sponsored(s, r));
      }
    }
  }

  lemma SponsoredAreCounted(s: Sys, r: RequestId)
    requires SponsorsHold(s) && HoldersAgree(s.q)
    ensures Sponsored(s, r) <= LocalRunning(s.q, r)
    ensures |Sponsored(s, r)| <= |LocalRunning(s.q, r)|
  {
    forall id | id in Sponsored(s, r)
      ensures id in LocalRunning(s.q, r)
    {
      assert r in s.q.builds[id].holders;
      assert id in HeldBy(s.q, r);
    }
    Closure.SubsetSizeLe(Sponsored(s, r), LocalRunning(s.q, r));
  }

  lemma TurnKeepsSlots(s: Sys, env: Env, sponsor: RequestId)
    requires SysInv(s) && SlotsRespected(s) && Enabled(s, Turn(env, sponsor))
    ensures SlotsRespected(TakeTurn(s, env, sponsor))
  {
    var id := s.pass.value.remaining[0];
    var popped := Popped(s);
    var s' := TakeTurn(s, env, sponsor);
    PoppedInv(s);
    TurnEffect(s, env, sponsor);
    match Decide(s.q, s.pass.value, env, s.q.builds[id]) {
      case Skip => SameQueueKeepsSlots(s, s');
      case Wait => SameQueueKeepsSlots(s, s');
      case HeldByPressure => SameQueueKeepsSlots(s, s');
      case Unwanted => SameQueueKeepsSlots(s, s');
      case Hopeless => SameQueueKeepsSlots(s, s');
      case Start(store) =>
        SameQueueKeepsSlots(s, popped);
        StartedKeepsSlots(popped, popped.pass.value, id, store, sponsor);
    }
  }

  lemma CarryOutKeepsSlots(s: Sys)
    requires SysInv(s) && SlotsRespected(s) && Enabled(s, CarryOut)
    ensures SlotsRespected(CarriedOut(s))
  {
    var s' := CarriedOut(s);
    CarryOutEffect(s);
    match s.pass.value.verdict.value {
      case ToCancel(id) => WorkersUnique(s); UnwantedKeepsSlots(s, s', id);
      case ToFail(id) => FinishKeepsSlots(s, s', id, Response(false, "no store"));
    }
  }

  lemma UnwantedKeepsSlots(s: Sys, s': Sys, id: BuildId)
    requires UniqueWorkers(s.q) && HoldersAgree(s.q) && SlotsRespected(s) && s'.sponsor == s.sponsor
    requires s'.q == CancelledUnwanted(s.q, id)
    ensures SlotsRespected(s')
  {
    QuietUnwanted(s.q, id);
    QuietMeansNoNewWork(s.q, s'.q);
    SponsorsStillHold(s, s', {});
    SlotsKept(s, s');
  }

  lemma FinishHolders(q: Queue, id: BuildId, response: Response)
    ensures var q' := AfterFinish(q, id, response);
            && q'.builds.Keys == q.builds.Keys && q'.maxJobs == q.maxJobs
            && KeepsWork(q.builds, q'.builds)
            && forall i :: i in q.builds ==> q'.builds[i].holders == q.builds[i].holders
  {
    var q' := AfterFinish(q, id, response);
    if Completed(q, id, response).Some? {
      UpdateKeepsWork(q.builds, id, q'.builds[id]);
      assert q'.builds == q.builds[id := q'.builds[id]];
    }
  }

  lemma FinishKeepsSlots(s: Sys, s': Sys, id: BuildId, response: Response)
    requires HoldersAgree(s.q) && SlotsRespected(s) && s'.sponsor == s.sponsor
    requires s'.q == AfterFinish(s.q, id, response)
    ensures SlotsRespected(s')
  {
    FinishHolders(s.q, id, response);
    QuietMeansNoNewWork(s.q, s'.q);
    SponsorsStillHold(s, s', {});
    SlotsKept(s, s');
  }

  lemma RetryKeepsSlots(s: Sys, scope: ScopeId)
    requires SlotsRespected(s) && HoldersAgree(s.q) && Enabled(s, Retry(scope))
    ensures SlotsRespected(Step(s, Retry(scope)))
  {
    SlotsKept(s, Step(s, Retry(scope)));
  }

  lemma ExitKeepsSlots(s: Sys, scope: ScopeId)
    requires SlotsRespected(s) && HoldersAgree(s.q) && Enabled(s, Exit(scope))
    ensures SlotsRespected(Step(s, Exit(scope)))
  {
    SlotsKept(s, Step(s, Exit(scope)));
  }

  lemma DrainKeepsSlots(s: Sys, store: StoreId)
    requires SlotsRespected(s) && HoldersAgree(s.q)
    ensures SlotsRespected(Step(s, Drain(store)))
  {
    SlotsKept(s, Step(s, Drain(store)));
  }

  lemma SameQueueKeepsSlots(s: Sys, s': Sys)
    requires SlotsRespected(s) && HoldersAgree(s.q) && s'.q == s.q && s'.sponsor == s.sponsor
    ensures SlotsRespected(s')
  {
    SlotsKept(s, s');
  }

  lemma StepKeepsSlots(s: Sys, e: Event)
    requires SysInv(s) && SlotsRespected(s) && Enabled(s, e) && JobsFixed(s, e)
    ensures SlotsRespected(Step(s, e))
  {
    match e {
      case Queued(op) => QueuedKeepsSlots(s, op);
      case Turn(env, sponsor) => TurnKeepsSlots(s, env, sponsor);
      case CarryOut => CarryOutKeepsSlots(s);
      case Finish(scope, response) => FinishKeepsSlots(s, Step(s, e), s.tasks[scope].build, response);
      case BeginPass(_) => SameQueueKeepsSlots(s, Step(s, e));
      case EndPass => SameQueueKeepsSlots(s, Step(s, e));
      case Retry(scope) => RetryKeepsSlots(s, scope);
      case Exit(scope) => ExitKeepsSlots(s, scope);
      case Drain(store) => DrainKeepsSlots(s, store);
    }
  }

  ghost predicate JobsStayFixed(s: Sys, es: seq<Event>)
    requires Possible(s, es)
    decreases |es|
  {
    |es| == 0 || (JobsFixed(s, es[0]) && JobsStayFixed(Step(s, es[0]), es[1..]))
  }

  /** In every run, the running local builds started on a slot of a request and
      still held by it never exceed its `max-jobs`, one at least. */
  lemma {:induction false} RunRespectsSlots(s: Sys, es: seq<Event>)
    requires SysInv(s) && SlotsRespected(s) && Possible(s, es) && JobsStayFixed(s, es)
    ensures SlotsRespected(Run(s, es)) && SysInv(Run(s, es))
    decreases |es|
  {
    if |es| > 0 {
      StepInv(s, es[0]);
      StepKeepsSlots(s, es[0]);
      RunRespectsSlots(Step(s, es[0]), es[1..]);
    }
  }

  // ---- when nothing is shared ----

  /** The build has one holder at most, and when it runs locally it was started
      on the slot of the one it has. */
  ghost predicate OneHolder(b: Build, id: BuildId, sponsor: map<BuildId, RequestId>) {
    forall r :: r in b.holders ==>
      && b.holders == {r}
      && (b.Building() && b.store == Some(LOCAL) ==> id in sponsor && sponsor[id] == r)
  }

  ghost predicate Unshared(s: Sys) {
    forall id :: id in s.q.builds ==> OneHolder(s.q.builds[id], id, s.sponsor)
  }

  /** The goal joins no build of another goal, and no build that runs. */
  ghost predicate SharesNothing(s: Sys, e: Event) {
    e.Queued? && e.op.DoEnqueue? && e.op.ask.fromGoal && e.op.ask.goal.Some? && Existing(s.q, e.op.ask.drv).Some? ==>
      JoinsAlone(s.q.builds[Existing(s.q, e.op.ask.drv).value], e.op.ask.goal.value)
  }

  ghost predicate JoinsAlone(b: Build, g: RequestId) {
    b.holders <= {g} && (b.Building() ==> b.holders == {g})
  }

  lemma UnsharedKept(s: Sys, s': Sys)
    requires Unshared(s) && s'.sponsor == s.sponsor && NoNewWork(s.q, s'.q)
    requires s'.q.builds.Keys == s.q.builds.Keys
    requires forall id :: id in s.q.builds ==> s'.q.builds[id].holders == s.q.builds[id].holders
    ensures Unshared(s')
  {
    forall id | id in s'.q.builds
      ensures OneHolder(s'.q.builds[id], id, s'.sponsor)
    { assert OneHolder(s.q.builds[id], id, s.sponsor); }
  }

  lemma ReleaseKeepsUnshared(s: Sys, r: RequestId)
    requires HoldersAgree(s.q) && Unshared(s)
    ensures Unshared(Step(s, Queued(DoRelease(r))))
  {
    var s' := Step(s, Queued(DoRelease(r)));
    ReleaseKeepsWork(s.q.builds, HeldBy(s.q, r) * s.q.byId, r);
    forall id | id in s'.q.builds
      ensures OneHolder(s'.q.builds[id], id, s'.sponsor)
    {
      ReleasedHolder(s.q, r, r, id);
      assert OneHolder(s.q.builds[id], id, s.sponsor);
      assert SameWork(s.q.builds[id], s'.q.builds[id]);
    }
  }

  lemma EnqueueKeepsUnshared(s: Sys, a: Ask)
    requires Inv(s.q) && Unshared(s) && !Refuses(a) && SharesNothing(s, Queued(DoEnqueue(a)))
    ensures Unshared(Step(s, Queued(DoEnqueue(a))))
  {
    var s' := Step(s, Queued(DoEnqueue(a)));
    var joined := Enqueued(s.q, a).1;
    QuietEnqueue(s.q, a);
    EnqueuedHolders(s.q, a);
    forall id | id in s'.q.builds
      ensures OneHolder(s'.q.builds[id], id, s'.sponsor)
    {
      if id in s.q.builds {
        assert SameWork(s.q.builds[id], s'.q.builds[id]);
        assert OneHolder(s.q.builds[id], id, s.sponsor);
        JoinKeepsOneHolder(s.q.builds[id], s'.q.builds[id], id, s.sponsor,
                           if id == joined && a.fromGoal && a.goal.Some? then {a.goal.value} else {});
      }
    }
  }

  lemma JoinKeepsOneHolder(b: Build, b': Build, id: BuildId, sponsor: map<BuildId, RequestId>, more: set<RequestId>)
    requires OneHolder(b, id, sponsor) && SameWork(b, b') && b'.holders == b.holders + more
    requires more == {} || exists g :: more == {g} && JoinsAlone(b, g)
    ensures OneHolder(b', id, sponsor)
  {
  }

  /** An enqueue adds the goal to the holders of the build it ends on, and
      changes no other holders. */
  lemma EnqueuedHolders(q: Queue, a: Ask)
    requires Inv(q) && !Refuses(a)
    ensures var (q', joined) := Enqueued(q, a);
            forall id :: id in q'.builds ==>
              q'.builds[id].holders
              == (if id in q.builds then q.builds[id].holders else {})
                 + (if id == joined && a.fromGoal && a.goal.Some? then {a.goal.value} else {})
  {
    match Existing(q, a.drv)
    case Some(id) => JoinedHolders(NoteJobs(q, a), id, a);
    case None =>
      assert q.nextId !in q.builds;
      AddedHolders(NoteJobs(q, a), a);
  }

  lemma JoinedHolders(q: Queue, joined: BuildId, a: Ask)
    requires joined in q.builds
    ensures forall id :: id in q.builds ==>
              Join(q, joined, a).builds[id].holders
              == q.builds[id].holders + (if id == joined && a.fromGoal && a.goal.Some? then {a.goal.value} else {})
    ensures Join(q, joined, a).builds.Keys == q.builds.Keys
  {
  }

  lemma AddedHolders(q: Queue, a: Ask)
    requires q.nextId !in q.builds
    ensures forall id :: id in q.builds ==> id in Add(q, a).builds && Add(q, a).builds[id].holders == q.builds[id].holders
    ensures Add(q, a).builds.Keys == q.builds.Keys + {q.nextId}
    ensures Add(q, a).builds[q.nextId].holders == if a.fromGoal && a.goal.Some? then {a.goal.value} else {}
  {
  }

  lemma StartedKeepsUnshared(s: Sys, p: Pass, id: BuildId, store: StoreId, sponsor: RequestId)
    requires Unshared(s) && id in s.q.builds && s.q.builds[id].worker.None? && !NobodyWants(s.q, s.q.builds[id])
    requires store == LOCAL && LiveWanters(s.q, s.q.builds[id]) != {} ==> sponsor in Sponsors(s.q, s.q.builds[id])
    ensures Unshared(Started(s, p, id, store, sponsor))
  {
    var s' := Started(s, p, id, store, sponsor);
    forall i | i in s'.q.builds
      ensures OneHolder(s'.q.builds[i], i, s'.sponsor)
    {
      assert OneHolder(s.q.builds[i], i, s.sponsor);
      if i == id {
        var b := s.q.builds[id];
        assert b.holders != {} ==> LiveWanters(s.q, b) != {};
      }
    }
  }

  lemma FinishKeepsUnshared(s: Sys, s': Sys, id: BuildId, response: Response)
    requires Unshared(s) && s'.sponsor == s.sponsor && s'.q == AfterFinish(s.q, id, response)
    ensures Unshared(s')
  {
    FinishHolders(s.q, id, response);
    QuietMeansNoNewWork(s.q, s'.q);
    UnsharedKept(s, s');
  }

  lemma UnwantedKeepsUnshared(s: Sys, s': Sys, id: BuildId)
    requires UniqueWorkers(s.q) && Unshared(s) && s'.sponsor == s.sponsor && s'.q == CancelledUnwanted(s.q, id)
    ensures Unshared(s')
  {
    QuietUnwanted(s.q, id);
    QuietMeansNoNewWork(s.q, s'.q);
    UnsharedKept(s, s');
  }

  lemma TurnKeepsUnshared(s: Sys, env: Env, sponsor: RequestId)
    requires SysInv(s) && Unshared(s) && Enabled(s, Turn(env, sponsor))
    ensures Unshared(TakeTurn(s, env, sponsor))
  {
    var id := s.pass.value.remaining[0];
    var popped := Popped(s);
    var s' := TakeTurn(s, env, sponsor);
    PoppedInv(s);
    TurnEffect(s, env, sponsor);
    UnsharedKept(s, popped);
    match Decide(s.q, s.pass.value, env, s.q.builds[id]) {
      case Skip =>
      case Wait =>
      case HeldByPressure => UnsharedKept(s, s');
      case Unwanted => UnsharedKept(s, s');
      case Hopeless => UnsharedKept(s, s');
      case Start(store) =>
        StartIsAllowed(s.q, s.pass.value, env, s.q.builds[id]);
        StartedKeepsUnshared(popped, popped.pass.value, id, store, sponsor);
    }
  }

  lemma CarryOutKeepsUnshared(s: Sys)
    requires SysInv(s) && Unshared(s) && Enabled(s, CarryOut)
    ensures Unshared(CarriedOut(s))
  {
    var s' := CarriedOut(s);
    CarryOutEffect(s);
    match s.pass.value.verdict.value {
      case ToCancel(id) => WorkersUnique(s); UnwantedKeepsUnshared(s, s', id);
      case ToFail(id) => FinishKeepsUnshared(s, s', id, Response(false, "no store"));
    }
  }

  lemma OpKeepsUnshared(s: Sys, op: Op)
    requires SysInv(s) && Unshared(s) && SharesNothing(s, Queued(op))
    ensures Unshared(Step(s, Queued(op)))
  {
    match op {
      case DoEnqueue(ask) =>
        if Refuses(ask) { UnsharedKept(s, Step(s, Queued(op))); } else { EnqueueKeepsUnshared(s, ask); }
      case DoRelease(r) => ReleaseKeepsUnshared(s, r);
      case _ =>
        WorkersUnique(s);
        QuietOp(s.q, op);
        QuietMeansNoNewWork(s.q, ApplyOp(s.q, op));
        OtherOpHolders(s.q, op);
        UnsharedKept(s, Step(s, Queued(op)));
    }
  }

  lemma OtherOpHolders(q: Queue, op: Op)
    requires !op.DoEnqueue? && !op.DoRelease?
    ensures var q' := ApplyOp(q, op);
            q'.builds.Keys == q.builds.Keys && forall i :: i in q.builds ==> q'.builds[i].holders == q.builds[i].holders
  {
    if op.DoUnsubscribe? {
      UnsubscribeSameHolders(q, op.id, op.client);
    } else if op.DoLoseSubscriber? {
      LossSameHolders(q, op.id, op.client);
    }
  }

  lemma LossSameHolders(q: Queue, id: BuildId, client: Client)
    ensures var q' := SubscriberLost(q, id, client);
            q'.builds.Keys == q.builds.Keys && forall i :: i in q.builds ==> q'.builds[i].holders == q.builds[i].holders
  {
  }

  lemma UnsubscribeSameHolders(q: Queue, id: BuildId, client: Client)
    ensures var q' := Unsubscribed(q, id, client);
            q'.builds.Keys == q.builds.Keys && forall i :: i in q.builds ==> q'.builds[i].holders == q.builds[i].holders
  {
    if id in q.byId && id in q.builds && client in q.builds[id].subscribers {
      var left := WithoutSubscriber(q.builds[id], client);
      assert left.holders == q.builds[id].holders;
    }
  }

  lemma RetryKeepsUnshared(s: Sys, scope: ScopeId)
    requires Unshared(s) && Enabled(s, Retry(scope))
    ensures Unshared(Step(s, Retry(scope)))
  {
    UnsharedKept(s, Step(s, Retry(scope)));
  }

  lemma ExitKeepsUnshared(s: Sys, scope: ScopeId)
    requires Unshared(s) && Enabled(s, Exit(scope))
    ensures Unshared(Step(s, Exit(scope)))
  {
    UnsharedKept(s, Step(s, Exit(scope)));
  }

  lemma DrainKeepsUnshared(s: Sys, store: StoreId)
    requires Unshared(s)
    ensures Unshared(Step(s, Drain(store)))
  {
    UnsharedKept(s, Step(s, Drain(store)));
  }

  lemma StepKeepsUnshared(s: Sys, e: Event)
    requires SysInv(s) && Unshared(s) && Enabled(s, e) && SharesNothing(s, e)
    ensures Unshared(Step(s, e))
  {
    match e {
      case Queued(op) => OpKeepsUnshared(s, op);
      case Turn(env, sponsor) => TurnKeepsUnshared(s, env, sponsor);
      case CarryOut => CarryOutKeepsUnshared(s);
      case Finish(scope, response) => FinishKeepsUnshared(s, Step(s, e), s.tasks[scope].build, response);
      case BeginPass(_) => UnsharedKept(s, Step(s, e));
      case EndPass => UnsharedKept(s, Step(s, e));
      case Retry(scope) => RetryKeepsUnshared(s, scope);
      case Exit(scope) => ExitKeepsUnshared(s, scope);
      case Drain(store) => DrainKeepsUnshared(s, store);
    }
  }

  ghost predicate SharesNothingEver(s: Sys, es: seq<Event>)
    requires Possible(s, es)
    decreases |es|
  {
    |es| == 0 || (SharesNothing(s, es[0]) && SharesNothingEver(Step(s, es[0]), es[1..]))
  }

  lemma {:induction false} RunStaysUnshared(s: Sys, es: seq<Event>)
    requires SysInv(s) && Unshared(s) && Possible(s, es) && SharesNothingEver(s, es)
    ensures Unshared(Run(s, es)) && SysInv(Run(s, es))
    decreases |es|
  {
    if |es| > 0 {
      StepInv(s, es[0]);
      StepKeepsUnshared(s, es[0]);
      RunStaysUnshared(Step(s, es[0]), es[1..]);
    }
  }

  /** When no build is shared between requests or joined while it runs, each
      request runs at most its `max-jobs` local builds, one at least. */
  lemma RunRespectsMaxJobs(es: seq<Event>, r: RequestId)
    requires Possible(INITIAL, es) && JobsStayFixed(INITIAL, es) && SharesNothingEver(INITIAL, es)
    ensures var q := Run(INITIAL, es).q;
            r in q.maxJobs && q.maxJobs[r].Some? ==> |LocalRunning(q, r)| <= AtLeastOne(q.maxJobs[r].value)
  {
    InitialInv();
    RunRespectsSlots(INITIAL, es);
    RunStaysUnshared(INITIAL, es);
    var s := Run(INITIAL, es);
    forall id | id in LocalRunning(s.q, r)
      ensures id in Sponsored(s, r)
    { assert OneHolder(s.q.builds[id], id, s.sponsor); }
    Closure.SubsetSizeLe(LocalRunning(s.q, r), Sponsored(s, r));
  }
}
