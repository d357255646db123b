/** How often a run starts a build on one store. */
module SchedulerAttempts {
  import opened Wrappers
  import opened Ordering
  import opened BuildQueue
  import opened Scheduler
  import opened SchedulerRuns

  ghost predicate InPass(s: Sys, id: BuildId) {
    s.pass.Some? && id in s.pass.value.remaining
  }

  /** The build may still be given a worker. */
  ghost predicate Waiting(s: Sys, id: BuildId)
    requires id in s.q.builds
  {
    !s.q.builds[id].Done() || InPass(s, id)
  }

  /** The failures of the store, and one more while it runs the build. */
  function Allowance(b: Build, store: StoreId): nat {
    b.FailuresOn(store) + if b.Building() && b.store == Some(store) then 1 else 0
  }

  ghost predicate StartsCharged(s: Sys, id: BuildId)
    requires id in s.q.builds
  {
    forall store :: StartsOf(s, id, store) <= Allowance(s.q.builds[id], store)
  }

  ghost predicate StartsBounded(s: Sys) {
    && (forall id, store :: id in s.q.builds ==> StartsOf(s, id, store) <= MAX_STORE_RETRIES)
    && (forall id :: id in s.q.builds && Waiting(s, id) ==> StartsCharged(s, id))
  }

  /** A retry comes from the worker the build records, or it records none. */
  ghost predicate RetryIsOwn(s: Sys, e: Event)
    requires Enabled(s, e)
  {
    e.Retry? && s.tasks[e.scope].build in s.q.builds ==>
      s.q.builds[s.tasks[e.scope].build].worker in {None, Some(e.scope)}
  }

  lemma QuietKeepsStarts(s: Sys, s': Sys)
    requires StartsBounded(s) && PassMatches(s) && KeepsWork(s.q.builds, s'.q.builds)
    requires s'.starts == s.starts
    requires forall id :: InPass(s', id) && id in s.q.builds ==> Waiting(s, id)
    requires forall id :: InPass(s', id) ==> id in s.q.builds
    ensures StartsBounded(s')
  {
    forall id | id in s'.q.builds && Waiting(s', id)
      ensures StartsCharged(s', id)
    {
      if id in s.q.builds {
        assert SameWork(s.q.builds[id], s'.q.builds[id]);
        assert Waiting(s, id) && StartsCharged(s, id);
        forall store
          ensures StartsOf(s', id, store) <= Allowance(s'.q.builds[id], store)
        { assert StartsOf(s, id, store) <= Allowance(s.q.builds[id], store); }
      }
    }
    forall id, store | id in s'.q.builds
      ensures StartsOf(s', id, store) <= MAX_STORE_RETRIES
    { assert id in s.q.builds ==> StartsOf(s, id, store) <= MAX_STORE_RETRIES; }
  }

  lemma StartedKeepsStarts(s: Sys, p: Pass, id: BuildId, store: StoreId, sponsor: RequestId)
    requires StartsBounded(s) && s.pass == Some(p) && id in s.q.builds && id !in p.remaining
    requires StartsCharged(s, id) && s.q.builds[id].worker.None? && !s.q.builds[id].Blacklisted(store)
    ensures StartsBounded(Started(s, p, id, store, sponsor))
  {
    var s' := Started(s, p, id, store, sponsor);
    forall i, t | i in s'.q.builds
      ensures StartsOf(s', i, t) == StartsOf(s, i, t) + (if i == id && t == store then 1 else 0)
    {}
    forall i, t | i in s'.q.builds
      ensures StartsOf(s', i, t) <= MAX_STORE_RETRIES
    { assert StartsOf(s, id, t) <= Allowance(s.q.builds[id], t); }
    forall i | i in s'.q.builds && Waiting(s', i)
      ensures StartsCharged(s', i)
    {
      assert i != id ==> Waiting(s, i);
      forall t
        ensures StartsOf(s', i, t) <= Allowance(s'.q.builds[i], t)
      { assert StartsOf(s, i, t) <= Allowance(s.q.builds[i], t); }
    }
  }

  lemma CarryOutKeepsStarts(s: Sys)
    requires SysInv(s) && StartsBounded(s) && Enabled(s, CarryOut)
    ensures StartsBounded(CarriedOut(s))
  {
    var id := s.pass.value.verdict.value.id;
    WorkersUnique(s);
    QuietUnwanted(s.q, id);
    FailedFacts(s.q, id);
    CarryOutEffect(s);
    QuietKeepsStarts(s, CarriedOut(s));
  }

  lemma TurnKeepsStarts(s: Sys, env: Env, sponsor: RequestId)
    requires SysInv(s) && StartsBounded(s) && Enabled(s, Turn(env, sponsor))
    ensures StartsBounded(TakeTurn(s, env, sponsor))
  {
    var id := s.pass.value.remaining[0];
    var popped, s' := Popped(s), TakeTurn(s, env, sponsor);
    PoppedInv(s);
    assert forall i :: i in popped.pass.value.remaining ==> i in s.pass.value.remaining;
    QuietKeepsStarts(s, popped);
    TurnEffect(s, env, sponsor);
    match Decide(s.q, s.pass.value, env, s.q.builds[id]) {
      case Skip =>
      case Wait =>
      case HeldByPressure => QuietKeepsStarts(s, s');
      case Unwanted => QuietKeepsStarts(s, s');
      case Hopeless => QuietKeepsStarts(s, s');
      case Start(store) =>
        StartIsAllowed(s.q, s.pass.value, env, s.q.builds[id]);
        assert InPass(s, id) && Waiting(s, id) && StartsCharged(s, id);
        SameStarts(s, popped, id);
        StartedKeepsStarts(popped, popped.pass.value, id, store, sponsor);
    }
  }

  lemma SameStarts(s: Sys, s': Sys, id: BuildId)
    requires id in s.q.builds && StartsCharged(s, id) && s'.q == s.q && s'.starts == s.starts
    ensures StartsCharged(s', id)
  {
    forall store
      ensures StartsOf(s', id, store) <= Allowance(s'.q.builds[id], store)
    { assert StartsOf(s, id, store) <= Allowance(s.q.builds[id], store); }
  }

  /** One build changed and no start was made: its allowance did not fall, or
      it waits no longer. */
  lemma OneBuildKeepsStarts(s: Sys, s': Sys, id: BuildId)
    requires StartsBounded(s) && id in s.q.builds && s'.q.builds.Keys == s.q.builds.Keys
    requires s'.starts == s.starts && s'.pass == s.pass
    requires forall i :: i in s.q.builds && i != id ==> s'.q.builds[i] == s.q.builds[i]
    requires s.q.builds[id].Done() ==> s'.q.builds[id].Done()
    requires Waiting(s', id) ==> forall store :: StartsOf(s, id, store) <= Allowance(s'.q.builds[id], store)
    ensures StartsBounded(s')
  {
    forall i, store | i in s'.q.builds
      ensures StartsOf(s', i, store) <= MAX_STORE_RETRIES
    { assert StartsOf(s, i, store) <= MAX_STORE_RETRIES; }
    forall i | i in s'.q.builds && Waiting(s', i)
      ensures StartsCharged(s', i)
    {
      if i != id {
        assert Waiting(s, i) && StartsCharged(s, i);
      }
      forall store
        ensures StartsOf(s', i, store) <= Allowance(s'.q.builds[i], store)
      { assert StartsOf(s', i, store) == StartsOf(s, i, store); }
    }
  }

  lemma RetryKeepsStarts(s: Sys, scope: ScopeId)
    requires TasksMatch(s) && StartsBounded(s) && Enabled(s, Retry(scope)) && RetryIsOwn(s, Retry(scope))
    ensures StartsBounded(Step(s, Retry(scope)))
  {
    var id, store := s.tasks[scope].build, s.tasks[scope].store;
    var s' := Step(s, Retry(scope));
    var b := s.q.builds[id];
    if b.worker.Some? {
      assert WorkerMatches(s, id);
    }
    if Waiting(s', id) {
      assert Waiting(s, id) && StartsCharged(s, id);
      forall t
        ensures StartsOf(s, id, t) <= Allowance(s'.q.builds[id], t)
      { assert StartsOf(s, id, t) <= Allowance(b, t); }
    }
    OneBuildKeepsStarts(s, s', id);
  }

  lemma ExitKeepsStarts(s: Sys, scope: ScopeId)
    requires TasksMatch(s) && PassMatches(s) && StartsBounded(s) && Enabled(s, Exit(scope))
    ensures StartsBounded(Step(s, Exit(scope)))
  {
    var id := s.tasks[scope].build;
    var s' := Step(s, Exit(scope));
    var b := s.q.builds[id];
    if b.worker == Some(scope) {
      assert WorkerMatches(s, id) && b.Done() && !InPass(s, id);
    } else if Waiting(s', id) {
      assert Waiting(s, id) && StartsCharged(s, id);
    }
    OneBuildKeepsStarts(s, s', id);
  }

  lemma DrainKeepsStarts(s: Sys, store: StoreId)
    requires StartsBounded(s)
    ensures StartsBounded(Step(s, Drain(store)))
  {
    var s' := Step(s, Drain(store));
    forall i, t | i in s'.q.builds
      ensures StartsOf(s', i, t) <= MAX_STORE_RETRIES
    { assert StartsOf(s, i, t) <= MAX_STORE_RETRIES; }
    forall i | i in s'.q.builds && Waiting(s', i)
      ensures StartsCharged(s', i)
    {
      assert Waiting(s, i) && StartsCharged(s, i);
      forall t
        ensures StartsOf(s', i, t) <= Allowance(s'.q.builds[i], t)
      { assert StartsOf(s, i, t) <= Allowance(s.q.builds[i], t); }
    }
  }

  lemma StepKeepsStarts(s: Sys, e: Event)
    requires SysInv(s) && StartsBounded(s) && Enabled(s, e) && RetryIsOwn(s, e)
    ensures StartsBounded(Step(s, e))
  {
    match e {
      case Queued(op) =>
        WorkersUnique(s);
        QuietOp(s.q, op);
        QuietKeepsStarts(s, Step(s, e));
      case BeginPass(snapshot) =>
        assert forall id :: id in snapshot ==> id in Elements(snapshot);
        QuietKeepsStarts(s, Step(s, e));
      case Turn(env, sponsor) => TurnKeepsStarts(s, env, sponsor);
      case CarryOut => CarryOutKeepsStarts(s);
      case EndPass => QuietKeepsStarts(s, Step(s, e));
      case Finish(scope, response) =>
        FinishFacts(s.q, s.tasks[scope].build, response);
        QuietKeepsStarts(s, Step(s, e));
      case Retry(scope) => RetryKeepsStarts(s, scope);
      case Exit(scope) => ExitKeepsStarts(s, scope);
      case Drain(store) => DrainKeepsStarts(s, store);
    }
  }

  ghost predicate RetriesAreOwn(s: Sys, es: seq<Event>)
    requires Possible(s, es)
    decreases |es|
  {
    |es| == 0 || (RetryIsOwn(s, es[0]) && RetriesAreOwn(Step(s, es[0]), es[1..]))
  }

  lemma {:induction false} OwnRetriesBoundStarts(s: Sys, es: seq<Event>)
    requires SysInv(s) && StartsBounded(s) && Possible(s, es) && RetriesAreOwn(s, es)
    ensures StartsBounded(Run(s, es)) && SysInv(Run(s, es))
    decreases |es|
  {
    if |es| > 0 {
      StepInv(s, es[0]);
      StepKeepsStarts(s, es[0]);
      OwnRetriesBoundStarts(Step(s, es[0]), es[1..]);
    }
  }

  // ---- a worker that still works is the recorded one ----

  /** The worker has not been cancelled and has not reached its outcome. */
  ghost predicate Working(s: Sys, w: ScopeId) {
    w in s.tasks && !s.tasks[w].retried && !s.tasks[w].settled && w !in s.q.cancelled
  }

  ghost predicate WorkersRecorded(s: Sys) {
    forall w :: Working(s, w) ==>
      s.tasks[w].build in s.q.builds && s.q.builds[s.tasks[w].build].worker == Some(w)
  }

  /** A worker that was cancelled does not ask for a retry. */
  ghost predicate NoCancelledRetry(s: Sys, e: Event) {
    e.Retry? ==> e.scope !in s.q.cancelled
  }

  lemma QuietKeepsRecords(s: Sys, s': Sys)
    requires WorkersRecorded(s) && KeepsWork(s.q.builds, s'.q.builds) && s'.tasks == s.tasks
    requires s.q.cancelled <= s'.q.cancelled
    ensures WorkersRecorded(s')
  {
    forall w | Working(s', w)
      ensures s'.tasks[w].build in s'.q.builds && s'.q.builds[s'.tasks[w].build].worker == Some(w)
    {
      assert Working(s, w);
      assert SameWork(s.q.builds[s.tasks[w].build], s'.q.builds[s.tasks[w].build]);
    }
  }

  lemma OpCancelsMore(q: Queue, op: Op)
    ensures q.cancelled <= ApplyOp(q, op).cancelled
  {
  }

  lemma StartKeepsRecords(s: Sys, p: Pass, id: BuildId, store: StoreId, sponsor: RequestId)
    requires WorkersRecorded(s) && TasksMatch(s) && id in s.q.builds && s.q.builds[id].worker.None?
    ensures WorkersRecorded(Started(s, p, id, store, sponsor))
  {
    var s' := Started(s, p, id, store, sponsor);
    forall w | Working(s', w)
      ensures s'.tasks[w].build in s'.q.builds && s'.q.builds[s'.tasks[w].build].worker == Some(w)
    { assert w != s.nextScope ==> Working(s, w); }
  }

  lemma TurnKeepsRecords(s: Sys, env: Env, sponsor: RequestId)
    requires SysInv(s) && WorkersRecorded(s) && Enabled(s, Turn(env, sponsor))
    ensures WorkersRecorded(TakeTurn(s, env, sponsor))
  {
    var id, popped, s' := s.pass.value.remaining[0], Popped(s), TakeTurn(s, env, sponsor);
    PoppedInv(s);
    TurnEffect(s, env, sponsor);
    QuietKeepsRecords(s, popped);
    if Decide(s.q, s.pass.value, env, s.q.builds[id]).Start? {
      StartKeepsRecords(popped, popped.pass.value, id, Decide(s.q, s.pass.value, env, s.q.builds[id]).store, sponsor);
    } else {
      QuietKeepsRecords(s, s');
    }
  }

  lemma CarryOutKeepsRecords(s: Sys)
    requires SysInv(s) && WorkersRecorded(s) && Enabled(s, CarryOut)
    ensures WorkersRecorded(CarriedOut(s))
  {
    var id := s.pass.value.verdict.value.id;
    WorkersUnique(s);
    QuietUnwanted(s.q, id);
    FailedFacts(s.q, id);
    CarryOutEffect(s);
    QuietKeepsRecords(s, CarriedOut(s));
  }

  lemma RetryKeepsRecords(s: Sys, scope: ScopeId)
    requires WorkersRecorded(s) && Enabled(s, Retry(scope)) && scope !in s.q.cancelled
    ensures WorkersRecorded(Step(s, Retry(scope)))
    ensures RetryIsOwn(s, Retry(scope))
  {
    assert Working(s, scope);
    var s' := Step(s, Retry(scope));
    forall w | Working(s', w)
      ensures s'.tasks[w].build in s'.q.builds && s'.q.builds[s'.tasks[w].build].worker == Some(w)
    { assert Working(s, w) && w != scope; }
  }

  lemma ExitKeepsRecords(s: Sys, scope: ScopeId)
    requires WorkersRecorded(s) && Enabled(s, Exit(scope))
    ensures WorkersRecorded(Step(s, Exit(scope)))
  {
    var s' := Step(s, Exit(scope));
    forall w | Working(s', w)
      ensures s'.tasks[w].build in s'.q.builds && s'.q.builds[s'.tasks[w].build].worker == Some(w)
    { assert Working(s, w) && w != scope; }
  }

  lemma DrainKeepsRecords(s: Sys, store: StoreId)
    requires WorkersRecorded(s)
    ensures WorkersRecorded(Step(s, Drain(store)))
  {
    var s' := Step(s, Drain(store));
    forall w | Working(s', w)
      ensures s'.tasks[w].build in s'.q.builds && s'.q.builds[s'.tasks[w].build].worker == Some(w)
    {
      assert Working(s, w);
      var id := s.tasks[w].build;
      assert Drained(s.q, id, store) ==> w in ScopeOf(s.q.builds[id]) && w in s'.q.cancelled;
    }
  }

  lemma FinishKeepsRecords(s: Sys, scope: ScopeId, response: Response)
    requires SysInv(s) && WorkersRecorded(s) && Enabled(s, Finish(scope, response))
    ensures WorkersRecorded(Step(s, Finish(scope, response)))
  {
    var id := s.tasks[scope].build;
    FinishFacts(s.q, id, response);
    var finished := s.(q := AfterFinish(s.q, id, response));
    QuietKeepsRecords(s, finished);
    var s' := Step(s, Finish(scope, response));
    forall w | Working(s', w)
      ensures s'.tasks[w].build in s'.q.builds && s'.q.builds[s'.tasks[w].build].worker == Some(w)
    { assert Working(finished, w); }
  }

  lemma StepKeepsRecords(s: Sys, e: Event)
    requires SysInv(s) && WorkersRecorded(s) && Enabled(s, e) && NoCancelledRetry(s, e)
    ensures WorkersRecorded(Step(s, e)) && RetryIsOwn(s, e)
  {
    match e {
      case Queued(op) =>
        WorkersUnique(s);
        QuietOp(s.q, op);
        OpCancelsMore(s.q, op);
        QuietKeepsRecords(s, Step(s, e));
      case BeginPass(_) => QuietKeepsRecords(s, Step(s, e));
      case Turn(env, sponsor) => TurnKeepsRecords(s, env, sponsor);
      case CarryOut => CarryOutKeepsRecords(s);
      case EndPass => QuietKeepsRecords(s, Step(s, e));
      case Finish(scope, response) => FinishKeepsRecords(s, scope, response);
      case Retry(scope) => RetryKeepsRecords(s, scope);
      case Exit(scope) => ExitKeepsRecords(s, scope);
      case Drain(store) => DrainKeepsRecords(s, store);
    }
  }

  /** No worker asks for a retry after it was cancelled. */
  ghost predicate CancelledWorkersStop(s: Sys, es: seq<Event>)
    requires Possible(s, es)
    decreases |es|
  {
    |es| == 0 || (NoCancelledRetry(s, es[0]) && CancelledWorkersStop(Step(s, es[0]), es[1..]))
  }

  lemma {:induction false} RecordsInRuns(s: Sys, es: seq<Event>)
    requires SysInv(s) && WorkersRecorded(s) && Possible(s, es) && CancelledWorkersStop(s, es)
    ensures SysInv(Run(s, es)) && WorkersRecorded(Run(s, es)) && RetriesAreOwn(s, es)
    decreases |es|
  {
    if |es| > 0 {
      StepInv(s, es[0]);
      StepKeepsRecords(s, es[0]);
      RecordsInRuns(Step(s, es[0]), es[1..]);
    }
  }

  /** In every run in which a cancelled worker asks for no retry, a worker that
      still works is the one its build records, and no build is started on one
      store more than three times. */
  lemma RunBoundsStarts(es: seq<Event>)
    requires Possible(INITIAL, es) && CancelledWorkersStop(INITIAL, es)
    ensures WorkersRecorded(Run(INITIAL, es))
    ensures StartsBounded(Run(INITIAL, es))
  {
    InitialInv();
    RecordsInRuns(INITIAL, es);
    OwnRetriesBoundStarts(INITIAL, es);
  }

  /** In such a run a retry clears the worker that asked for it and no other. */
  lemma RetryClearsItsOwnWorker(es: seq<Event>, w: ScopeId, id: BuildId)
    requires Possible(INITIAL, es) && CancelledWorkersStop(INITIAL, es)
    requires Enabled(Run(INITIAL, es), Retry(w)) && w !in Run(INITIAL, es).q.cancelled && id in Run(INITIAL, es).q.builds
    ensures var s := Run(INITIAL, es);
            var s' := Step(s, Retry(w));
            && (id == s.tasks[w].build <==> s.q.builds[id].worker == Some(w))
            && id in s'.q.builds
            && s'.q.builds[id].worker == if s.q.builds[id].worker == Some(w) then None else s.q.builds[id].worker
  {
    InitialInv();
    RecordsInRuns(INITIAL, es);
    var s := Run(INITIAL, es);
    assert Working(s, w);
    WorkersUnique(s);
  }

  lemma ExitEffect(s: Sys, w: ScopeId, id: BuildId)
    requires TasksMatch(s) && Enabled(s, Exit(w)) && id in s.q.builds
    ensures var s' := Step(s, Exit(w));
            && id in s'.q.builds
            && (s.q.builds[id].worker != Some(w) ==> s'.q.builds[id].worker == s.q.builds[id].worker)
            && (s.q.builds[id].worker == Some(w) ==> s'.q.builds[id].worker.None? && s.q.builds[id].Done())
  {
    if s.q.builds[id].worker == Some(w) { assert WorkerMatches(s, id); }
  }

  /** In every run, whatever cancelled workers do: the end of a worker leaves the
      recorded worker of every other build, of its own build too when that has a
      newer one, and the one it clears belongs to a finished build. */
  lemma ExitClearsOnlyAFinishedBuild(es: seq<Event>, w: ScopeId, id: BuildId)
    requires Possible(INITIAL, es) && Enabled(Run(INITIAL, es), Exit(w)) && id in Run(INITIAL, es).q.builds
    ensures var s := Run(INITIAL, es);
            var s' := Step(s, Exit(w));
            && id in s'.q.builds
            && (s.q.builds[id].worker != Some(w) ==> s'.q.builds[id].worker == s.q.builds[id].worker)
            && (s.q.builds[id].worker == Some(w) ==> s'.q.builds[id].worker.None? && s.q.builds[id].Done())
  {
    InitialInv();
    RunInv(INITIAL, es);
    ExitEffect(Run(INITIAL, es), w, id);
  }

  function Attempts(s: Sys, id: BuildId, stores: set<StoreId>): nat {
    if stores == {} then 0 else
      var t := Least(stores);
      StartsOf(s, id, t) + Attempts(s, id, stores - {t})
  }

  lemma {:induction false} AttemptsBounded(s: Sys, id: BuildId, stores: set<StoreId>)
    requires StartsBounded(s) && id in s.q.builds
    ensures Attempts(s, id, stores) <= MAX_STORE_RETRIES * |stores|
  {
    if stores != {} {
      var t := Least(stores);
      AttemptsBounded(s, id, stores - {t});
      assert StartsOf(s, id, t) <= MAX_STORE_RETRIES;
    }
  }

  /** So over any set of stores a build has at most three attempts for each. */
  lemma RunBoundsAttempts(es: seq<Event>, id: BuildId, stores: set<StoreId>)
    requires Possible(INITIAL, es) && CancelledWorkersStop(INITIAL, es)
    requires id in Run(INITIAL, es).q.builds
    ensures Attempts(Run(INITIAL, es), id, stores) <= MAX_STORE_RETRIES * |stores|
  {
    RunBoundsStarts(es);
    AttemptsBounded(Run(INITIAL, es), id, stores);
  }
}
