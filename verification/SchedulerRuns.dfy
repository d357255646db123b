/** What every run of the scheduler keeps. */
module SchedulerRuns {
  import opened Wrappers
  import opened Ordering
  import opened BuildQueue
  import opened Scheduler

  // ---- workers and tasks ----

  ghost predicate UniqueWorkers(q: Queue) {
    forall i, j :: i in q.builds && j in q.builds && q.builds[i].worker.Some? && q.builds[i].worker == q.builds[j].worker ==> i == j
  }

  /** The recorded worker of a build is a live task of that build, and one that
      was cancelled or has reached its outcome belongs to a finished build. */
  ghost predicate TasksMatch(s: Sys) {
    && (forall id :: id in s.q.builds && s.q.builds[id].worker.Some? ==> WorkerMatches(s, id))
    && (forall w :: w in s.tasks ==> w < s.nextScope && s.tasks[w].build in s.q.builds)
    && (forall w :: w in s.q.cancelled ==> w < s.nextScope)
  }

  ghost predicate WorkerMatches(s: Sys, id: BuildId)
    requires id in s.q.builds && s.q.builds[id].worker.Some?
  {
    var b := s.q.builds[id];
    var w := b.worker.value;
    && w in s.tasks && s.tasks[w].build == id && b.store == Some(s.tasks[w].store)
    && (w in s.q.cancelled || s.tasks[w].retried || s.tasks[w].settled ==> b.Done())
  }

  ghost predicate PassMatches(s: Sys) {
    && s.starts.Keys <= s.q.builds.Keys
    && s.sponsor.Keys <= s.q.builds.Keys
    && (s.pass.Some? ==>
          && NoDuplicates(s.pass.value.remaining)
          && (forall id :: id in s.pass.value.remaining ==> id in s.q.builds && s.q.builds[id].worker.None?)
          && (s.pass.value.verdict.Some? ==> VerdictMatches(s.pass.value.verdict.value.id, s.pass.value.remaining, s.q.builds)))
  }

  /** The build a pass waits to end had its turn and has no worker. */
  ghost predicate VerdictMatches(id: BuildId, remaining: seq<BuildId>, builds: map<BuildId, Build>) {
    id !in remaining && id in builds && builds[id].worker.None?
  }

  ghost predicate SysInv(s: Sys) {
    Inv(s.q) && TasksMatch(s) && PassMatches(s)
  }

  lemma InitialInv()
    ensures SysInv(INITIAL)
  {
    EmptyInv();
  }

  lemma WorkersUnique(s: Sys)
    requires TasksMatch(s)
    ensures UniqueWorkers(s.q)
  {
    forall i, j | i in s.q.builds && j in s.q.builds && s.q.builds[i].worker.Some? && s.q.builds[i].worker == s.q.builds[j].worker
      ensures i == j
    { assert WorkerMatches(s, i) && WorkerMatches(s, j); }
  }

  // ---- changes that start no worker and charge no store ----

  ghost predicate SameWork(b: Build, b': Build) {
    b'.worker == b.worker && b'.store == b.store && b'.failures == b.failures && (b.Done() ==> b'.Done())
  }

  ghost predicate KeepsWork(builds: map<BuildId, Build>, builds': map<BuildId, Build>) {
    && (forall id :: id in builds ==> id in builds' && SameWork(builds[id], builds'[id]))
    && (forall id :: id in builds' && id !in builds ==> builds'[id].worker.None?)
  }

  /** A scope that is newly cancelled is the worker of a build that ended. */
  ghost predicate CancelsFinished(q: Queue, q': Queue) {
    && (forall id :: id in q.builds && id in q'.builds && q.builds[id].worker.Some? && q.builds[id].worker.value in q'.cancelled ==>
          q.builds[id].worker.value in q.cancelled || q'.builds[id].Done())
    && (forall w :: w in q'.cancelled && w !in q.cancelled ==> exists id :: id in q.builds && q.builds[id].worker == Some(w))
  }

  ghost predicate Quiet(q: Queue, q': Queue) {
    KeepsWork(q.builds, q'.builds) && CancelsFinished(q, q')
  }

  lemma QuietKeepsTasks(s: Sys, s': Sys)
    requires TasksMatch(s) && PassMatches(s) && Quiet(s.q, s'.q)
    requires s'.tasks == s.tasks && s'.nextScope == s.nextScope && s'.pass == s.pass && s'.starts == s.starts
    requires s'.sponsor.Keys <= s.sponsor.Keys
    ensures TasksMatch(s') && PassMatches(s')
  {
    forall id | id in s'.q.builds && s'.q.builds[id].worker.Some?
      ensures WorkerMatches(s', id)
    { assert WorkerMatches(s, id); }
    forall w | w in s'.q.cancelled
      ensures w < s'.nextScope
    {
      if w !in s.q.cancelled {
        var id :| id in s.q.builds && s.q.builds[id].worker == Some(w);
        assert WorkerMatches(s, id);
      }
    }
  }

  lemma UpdateKeepsWork(builds: map<BuildId, Build>, id: BuildId, b: Build)
    requires if id in builds then SameWork(builds[id], b) else b.worker.None?
    ensures KeepsWork(builds, builds[id := b])
  {
  }

  lemma KeepsWorkTransitive(a: map<BuildId, Build>, b: map<BuildId, Build>, c: map<BuildId, Build>)
    requires KeepsWork(a, b) && KeepsWork(b, c)
    ensures KeepsWork(a, c)
  {
    forall id | id in a
      ensures id in c && SameWork(a[id], c[id])
    { assert SameWork(a[id], b[id]) && SameWork(b[id], c[id]); }
  }

  lemma QuietSameCancelled(q: Queue, q': Queue)
    requires KeepsWork(q.builds, q'.builds) && q'.cancelled == q.cancelled
    ensures Quiet(q, q')
  {
  }

  lemma QuietOne(q: Queue, id: BuildId, b: Build)
    requires id in q.builds && SameWork(q.builds[id], b)
    ensures Quiet(q, SetBuild(q, id, b))
  {
    UpdateKeepsWork(q.builds, id, b);
    QuietSameCancelled(q, SetBuild(q, id, b));
  }

  lemma QuietTransitive(q: Queue, q': Queue, q'': Queue)
    requires Quiet(q, q') && Quiet(q', q'')
    ensures Quiet(q, q'')
  {
    KeepsWorkTransitive(q.builds, q'.builds, q''.builds);
    forall w | w in q''.cancelled && w !in q.cancelled
      ensures exists id :: id in q.builds && q.builds[id].worker == Some(w)
    {
      if w !in q'.cancelled {
        var id :| id in q'.builds && q'.builds[id].worker == Some(w);
        assert id in q.builds && SameWork(q.builds[id], q'.builds[id]);
      }
    }
    forall id | id in q.builds && q.builds[id].worker.Some? && q.builds[id].worker.value in q''.cancelled
      ensures q.builds[id].worker.value in q.cancelled || q''.builds[id].Done()
    {
      assert SameWork(q.builds[id], q'.builds[id]) && SameWork(q'.builds[id], q''.builds[id]);
    }
  }

  lemma QuietCancel(q: Queue, id: BuildId, message: string)
    requires UniqueWorkers(q) && id in q.builds
    ensures Quiet(q, Cancel(q, id, message))
  {
    var q' := Cancel(q, id, message);
    UpdateKeepsWork(q.builds, id, q'.builds[id]);
    assert q'.builds == q.builds[id := q'.builds[id]];
    forall w | w in q'.cancelled && w !in q.cancelled
      ensures exists i :: i in q.builds && q.builds[i].worker == Some(w)
    { assert q.builds[id].worker == Some(w); }
  }

  lemma HoldIfGoalKeepsWork(q: Queue, id: BuildId, a: Ask)
    requires id in q.builds
    ensures KeepsWork(q.builds, HoldIfGoal(q, id, a).builds) && HoldIfGoal(q, id, a).cancelled == q.cancelled
  {
    if a.fromGoal && a.goal.Some? {
      var b := q.builds[id];
      UpdateKeepsWork(q.builds, id, b.(holders := b.holders + {a.goal.value}));
    }
  }

  lemma QuietEnqueue(q: Queue, a: Ask)
    requires Inv(q) && !Refuses(a)
    ensures Quiet(q, Enqueued(q, a).0)
  {
    var noted := NoteJobs(q, a);
    match Existing(q, a.drv) {
      case Some(id) =>
        var b := q.builds[id];
        var joined := SetBuild(noted, id, b.(fromGoal := b.fromGoal || a.fromGoal, requests := b.requests + Asked(a)));
        UpdateKeepsWork(q.builds, id, joined.builds[id]);
        HoldIfGoalKeepsWork(joined, id, a);
        KeepsWorkTransitive(q.builds, joined.builds, HoldIfGoal(joined, id, a).builds);
      case None =>
        var added := Appended(noted, a);
        assert q.nextId !in q.builds;
        UpdateKeepsWork(q.builds, q.nextId, NewBuild(a));
        HoldIfGoalKeepsWork(added, q.nextId, a);
        KeepsWorkTransitive(q.builds, added.builds, HoldIfGoal(added, q.nextId, a).builds);
    }
    QuietSameCancelled(q, Enqueued(q, a).0);
  }

  lemma QuietUnsubscribe(q: Queue, id: BuildId, client: Client)
    requires UniqueWorkers(q)
    ensures Quiet(q, Unsubscribed(q, id, client))
  {
    if id in q.byId && id in q.builds && client in q.builds[id].subscribers {
      var left := WithoutSubscriber(q.builds[id], client);
      QuietOne(q, id, left);
      var after := SetBuild(q, id, left);
      if Abandoned(left) {
        QuietCancel(after, id, "disconnected");
        QuietTransitive(q, after, Cancel(after, id, "disconnected"));
      }
    }
  }

  lemma ReleaseKeepsWork(builds: map<BuildId, Build>, ids: set<BuildId>, r: RequestId)
    ensures KeepsWork(builds, ReleasedBuilds(builds, ids, r))
  {
    forall id | id in builds
      ensures SameWork(builds[id], ReleasedBuilds(builds, ids, r)[id])
    { ReleasedSameWork(builds[id], r); }
  }

  lemma ReleasedSameWork(b: Build, r: RequestId)
    ensures SameWork(b, ReleasedBuild(b, r))
  {
  }

  lemma QuietRelease(q: Queue, r: RequestId)
    requires UniqueWorkers(q)
    ensures Quiet(q, Released(q, r))
  {
    var q' := Released(q, r);
    var mine := HeldBy(q, r) * q.byId;
    ReleaseKeepsWork(q.builds, mine, r);
    forall w | w in q'.cancelled && w !in q.cancelled
      ensures exists i :: i in q.builds && q.builds[i].worker == Some(w) && q'.builds[i].Done()
    {
      var i :| i in EndedBy(q.builds, mine, r) && i in q.builds && w in ScopeOf(q.builds[i]);
      assert q.builds[i].worker == Some(w) && q'.builds[i] == ReleasedBuild(q.builds[i], r);
    }
  }

  lemma QuietDropRequest(q: Queue, r: RequestId)
    ensures Quiet(q, RequestDropped(q, r))
  {
    assert KeepsWork(q.builds, RequestDropped(q, r).builds);
    QuietSameCancelled(q, RequestDropped(q, r));
  }

  lemma QuietOp(q: Queue, op: Op)
    requires Inv(q) && UniqueWorkers(q)
    ensures Quiet(q, ApplyOp(q, op))
  {
    match op {
      case DoEnqueue(ask) =>
        if Refuses(ask) { QuietSameCancelled(q, q); } else { QuietEnqueue(q, ask); }
      case DoSubscribe(id, client, cancelOnLeave, replayed) =>
        if id in q.byId {
          QuietOne(q, id, WithSubscriber(q.builds[id], client, cancelOnLeave, replayed));
        } else {
          QuietSameCancelled(q, q);
        }
      case DoUnsubscribe(id, client) => QuietUnsubscribe(q, id, client);
      case DoLoseSubscriber(id, client) =>
        if id in q.builds && client in q.builds[id].subscribers {
          QuietOne(q, id, WithoutSubscriber(q.builds[id], client));
        } else {
          QuietSameCancelled(q, q);
        }
      case DoRelease(r) => QuietRelease(q, r);
      case DoPrune => QuietSameCancelled(q, Pruned(q));
      case DoDropRequest(r) => QuietDropRequest(q, r);
    }
  }

  lemma OpInv(q: Queue, op: Op)
    requires Inv(q)
    ensures Inv(ApplyOp(q, op)) && ResultsKept(q, ApplyOp(q, op))
  {
    match op {
      case DoEnqueue(ask) => if !Refuses(ask) { EnqueuedInv(q, ask); }
      case DoSubscribe(id, client, cancelOnLeave, replayed) => SubscribedInv(q, id, client, cancelOnLeave, replayed);
      case DoUnsubscribe(id, client) => UnsubscribedInv(q, id, client);
      case DoLoseSubscriber(id, client) =>
        if id in q.builds && client in q.builds[id].subscribers {
          OneBuildChanged(q, id, WithoutSubscriber(q.builds[id], client));
        }
      case DoRelease(r) => ReleasedInv(q, r);
      case DoPrune => PrunedInv(q);
      case DoDropRequest(r) => RequestDroppedInv(q, r);
    }
  }

  lemma QuietCompleted(q: Queue, id: BuildId, response: Response)
    requires Completed(q, id, response).Some?
    ensures Quiet(q, Completed(q, id, response).value)
  {
    var q' := Completed(q, id, response).value;
    UpdateKeepsWork(q.builds, id, q'.builds[id]);
    assert q'.builds == q.builds[id := q'.builds[id]];
    QuietSameCancelled(q, q');
  }

  lemma QuietUnwanted(q: Queue, id: BuildId)
    requires UniqueWorkers(q)
    ensures Quiet(q, CancelledUnwanted(q, id))
  {
    if id in q.byId && Unfinished(q, id) {
      QuietCancel(q, id, "");
    } else {
      QuietSameCancelled(q, q);
    }
  }

  // ---- every step keeps the invariant ----

  lemma QuietStep(s: Sys, s': Sys)
    requires SysInv(s) && Inv(s'.q) && Quiet(s.q, s'.q)
    requires s'.tasks == s.tasks && s'.nextScope == s.nextScope && s'.pass == s.pass && s'.starts == s.starts
    requires s'.sponsor.Keys <= s.sponsor.Keys
    ensures SysInv(s')
  {
    QuietKeepsTasks(s, s');
  }

  lemma QueuedInv(s: Sys, op: Op)
    requires SysInv(s)
    ensures SysInv(Step(s, Queued(op))) && ResultsKept(s.q, Step(s, Queued(op)).q)
  {
    WorkersUnique(s);
    OpInv(s.q, op);
    QuietOp(s.q, op);
    QuietStep(s, Step(s, Queued(op)));
  }

  /** The system with the head of the pass taken off. */
  function Popped(s: Sys): Sys
    requires s.pass.Some? && |s.pass.value.remaining| > 0
  {
    s.(pass := Some(s.pass.value.(remaining := s.pass.value.remaining[1..])))
  }

  lemma PoppedInv(s: Sys)
    requires SysInv(s) && s.pass.Some? && s.pass.value.verdict.None? && |s.pass.value.remaining| > 0
    ensures SysInv(Popped(s))
    ensures s.pass.value.remaining[0] !in Popped(s).pass.value.remaining
    ensures s.pass.value.remaining[0] in s.q.builds && s.q.builds[s.pass.value.remaining[0]].worker.None?
  {
    var rest := s.pass.value.remaining[1..];
    assert forall k :: 0 <= k < |rest| ==> rest[k] == s.pass.value.remaining[k + 1];
    forall id | id in s.q.builds && s.q.builds[id].worker.Some?
      ensures WorkerMatches(Popped(s), id)
    { assert WorkerMatches(s, id); }
    assert s.pass.value.remaining[0] in s.pass.value.remaining;
  }

  lemma PassFieldsIgnored(s: Sys, p: Pass)
    requires SysInv(s) && s.pass.Some? && p.remaining == s.pass.value.remaining
    requires p.verdict.Some? ==> VerdictMatches(p.verdict.value.id, p.remaining, s.q.builds)
    ensures SysInv(s.(pass := Some(p)))
  {
    var s' := s.(pass := Some(p));
    forall id | id in s'.q.builds && s'.q.builds[id].worker.Some?
      ensures WorkerMatches(s', id)
    { assert WorkerMatches(s, id); }
  }

  lemma AssignedInv(q: Queue, id: BuildId, store: StoreId, scope: ScopeId)
    requires Inv(q) && id in q.builds
    ensures Inv(Assigned(q, id, store, scope)) && ResultsKept(q, Assigned(q, id, store, scope))
  {
    OneBuildChanged(q, id, q.builds[id].(store := Some(store), worker := Some(scope)));
  }

  lemma StartedTasks(s: Sys, p: Pass, id: BuildId, store: StoreId, sponsor: RequestId)
    requires TasksMatch(s) && id in s.q.builds
    ensures TasksMatch(Started(s, p, id, store, sponsor))
  {
    var s' := Started(s, p, id, store, sponsor);
    assert s.nextScope !in s.tasks && s.nextScope !in s.q.cancelled;
    forall i | i in s'.q.builds && s'.q.builds[i].worker.Some?
      ensures WorkerMatches(s', i)
    {
      if i != id {
        assert WorkerMatches(s, i);
      }
    }
  }

  lemma StartedInv(s: Sys, p: Pass, id: BuildId, store: StoreId, sponsor: RequestId)
    requires SysInv(s) && s.pass == Some(p) && p.verdict.None? && id in s.q.builds && id !in p.remaining
    ensures SysInv(Started(s, p, id, store, sponsor)) && ResultsKept(s.q, Started(s, p, id, store, sponsor).q)
  {
    AssignedInv(s.q, id, store, s.nextScope);
    StartedTasks(s, p, id, store, sponsor);
  }

  lemma FailedFacts(q: Queue, id: BuildId)
    requires Inv(q) && UniqueWorkers(q)
    ensures Inv(Failed(q, id)) && ResultsKept(q, Failed(q, id)) && Quiet(q, Failed(q, id))
  {
    var response := Response(false, "no store");
    CompletedInv(q, id, response);
    if Completed(q, id, response).Some? {
      QuietCompleted(q, id, response);
    } else {
      QuietSameCancelled(q, q);
    }
  }

  lemma CancelInRun(s: Sys, id: BuildId)
    requires SysInv(s)
    ensures SysInv(s.(q := CancelledUnwanted(s.q, id))) && ResultsKept(s.q, CancelledUnwanted(s.q, id))
  {
    WorkersUnique(s);
    CancelledUnwantedInv(s.q, id);
    QuietUnwanted(s.q, id);
    QuietStep(s, s.(q := CancelledUnwanted(s.q, id)));
  }

  lemma FailureInRun(s: Sys, id: BuildId)
    requires SysInv(s)
    ensures SysInv(s.(q := Failed(s.q, id))) && ResultsKept(s.q, Failed(s.q, id))
  {
    WorkersUnique(s);
    FailedFacts(s.q, id);
    QuietStep(s, s.(q := Failed(s.q, id)));
  }

  /** A turn is its effect on the system with the head taken off. */
  lemma TurnEffect(s: Sys, env: Env, sponsor: RequestId)
    requires Enabled(s, Turn(env, sponsor))
    ensures var id, popped := s.pass.value.remaining[0], Popped(s);
            var p := popped.pass.value;
            TakeTurn(s, env, sponsor)
            == match Decide(s.q, s.pass.value, env, s.q.builds[id])
               case Skip => popped
               case Wait => popped
               case HeldByPressure => popped.(pass := Some(p.(held := p.held + {id})))
               case Unwanted => popped.(pass := Some(p.(verdict := Some(ToCancel(id)))))
               case Hopeless => popped.(pass := Some(p.(verdict := Some(ToFail(id)))))
               case Start(store) => Started(popped, p, id, store, sponsor)
  {
  }

  lemma TurnInv(s: Sys, env: Env, sponsor: RequestId)
    requires SysInv(s) && Enabled(s, Turn(env, sponsor))
    ensures SysInv(TakeTurn(s, env, sponsor)) && ResultsKept(s.q, TakeTurn(s, env, sponsor).q)
  {
    var id := s.pass.value.remaining[0];
    var popped := Popped(s);
    PoppedInv(s);
    TurnEffect(s, env, sponsor);
    match Decide(s.q, s.pass.value, env, s.q.builds[id]) {
      case Skip =>
      case Wait =>
      case HeldByPressure => PassFieldsIgnored(popped, popped.pass.value.(held := popped.pass.value.held + {id}));
      case Unwanted => PassFieldsIgnored(popped, popped.pass.value.(verdict := Some(ToCancel(id))));
      case Hopeless => PassFieldsIgnored(popped, popped.pass.value.(verdict := Some(ToFail(id))));
      case Start(store) => StartedInv(popped, popped.pass.value, id, store, sponsor);
    }
  }

  /** The system with the verdict of the pass taken off. */
  function Cleared(s: Sys): Sys
    requires s.pass.Some?
  {
    s.(pass := Some(s.pass.value.(verdict := None)))
  }

  lemma CarryOutEffect(s: Sys)
    requires Enabled(s, CarryOut)
    ensures CarriedOut(s)
            == match s.pass.value.verdict.value
               case ToCancel(id) => Cleared(s).(q := CancelledUnwanted(s.q, id))
               case ToFail(id) => if id in s.q.order then Cleared(s).(q := Failed(s.q, id)) else s.(pass := None)
  {
  }

  lemma CarryOutInv(s: Sys)
    requires SysInv(s) && Enabled(s, CarryOut)
    ensures SysInv(CarriedOut(s)) && ResultsKept(s.q, CarriedOut(s).q)
  {
    PassFieldsIgnored(s, Cleared(s).pass.value);
    CarryOutEffect(s);
    match s.pass.value.verdict.value {
      case ToCancel(id) => CancelInRun(Cleared(s), id);
      case ToFail(id) => if id in s.q.order { FailureInRun(Cleared(s), id); } else { PassDropped(s); }
    }
  }

  lemma BeginPassInv(s: Sys, snapshot: seq<BuildId>)
    requires SysInv(s) && Enabled(s, BeginPass(snapshot))
    ensures SysInv(Step(s, BeginPass(snapshot)))
  {
    var s' := Step(s, BeginPass(snapshot));
    forall id | id in s'.q.builds && s'.q.builds[id].worker.Some?
      ensures WorkerMatches(s', id)
    { assert WorkerMatches(s, id); }
    forall id | id in snapshot
      ensures id in s.q.builds && s.q.builds[id].worker.None?
    { assert id in Elements(snapshot); }
  }

  lemma PassDropped(s: Sys)
    requires SysInv(s)
    ensures SysInv(s.(pass := None))
  {
    var s' := s.(pass := None);
    forall id | id in s'.q.builds && s'.q.builds[id].worker.Some?
      ensures WorkerMatches(s', id)
    { assert WorkerMatches(s, id); }
  }

  lemma FinishFacts(q: Queue, id: BuildId, response: Response)
    requires Inv(q) && id in q.builds
    ensures var q' := AfterFinish(q, id, response);
            Inv(q') && ResultsKept(q, q') && Quiet(q, q') && id in q'.builds && q'.builds[id].Done()
  {
    CompletedInv(q, id, response);
    if Completed(q, id, response).Some? {
      QuietCompleted(q, id, response);
    } else {
      QuietSameCancelled(q, q);
      assert !Unfinished(q, id);
    }
  }

  /** Marking a task whose build is finished. */
  lemma SettledTasks(s: Sys, scope: ScopeId)
    requires TasksMatch(s) && scope in s.tasks && s.q.builds[s.tasks[scope].build].Done()
    ensures TasksMatch(s.(tasks := s.tasks[scope := s.tasks[scope].(settled := true)]))
  {
    var s' := s.(tasks := s.tasks[scope := s.tasks[scope].(settled := true)]);
    forall i | i in s'.q.builds && s'.q.builds[i].worker.Some?
      ensures WorkerMatches(s', i)
    { assert WorkerMatches(s, i); }
  }

  lemma FinishInv(s: Sys, scope: ScopeId, response: Response)
    requires SysInv(s) && Enabled(s, Finish(scope, response))
    ensures SysInv(Step(s, Finish(scope, response))) && ResultsKept(s.q, Step(s, Finish(scope, response)).q)
  {
    var id := s.tasks[scope].build;
    FinishFacts(s.q, id, response);
    var finished := s.(q := AfterFinish(s.q, id, response));
    QuietStep(s, finished);
    SettledTasks(finished, scope);
  }

  lemma RetryTasks(s: Sys, scope: ScopeId)
    requires TasksMatch(s) && PassMatches(s) && Enabled(s, Retry(scope))
    ensures TasksMatch(Step(s, Retry(scope))) && PassMatches(Step(s, Retry(scope)))
  {
    var s' := Step(s, Retry(scope));
    forall i | i in s'.q.builds && s'.q.builds[i].worker.Some?
      ensures WorkerMatches(s', i)
    { assert WorkerMatches(s, i); }
  }

  lemma RetryInv(s: Sys, scope: ScopeId)
    requires SysInv(s) && Enabled(s, Retry(scope))
    ensures SysInv(Step(s, Retry(scope))) && ResultsKept(s.q, Step(s, Retry(scope)).q)
  {
    ResetInv(s.q, s.tasks[scope].build, s.tasks[scope].store);
    RetryTasks(s, scope);
  }

  lemma ExitTasks(s: Sys, scope: ScopeId)
    requires TasksMatch(s) && PassMatches(s) && Enabled(s, Exit(scope))
    ensures TasksMatch(Step(s, Exit(scope))) && PassMatches(Step(s, Exit(scope)))
  {
    var s' := Step(s, Exit(scope));
    forall i | i in s'.q.builds && s'.q.builds[i].worker.Some?
      ensures WorkerMatches(s', i)
    { assert WorkerMatches(s, i); }
  }

  lemma WorkerEndedInv(q: Queue, id: BuildId, scope: ScopeId)
    requires Inv(q) && id in q.builds
    ensures var q' := SetBuild(q, id, WorkerEnded(q.builds[id], scope)); Inv(q') && ResultsKept(q, q')
  {
    OneBuildChanged(q, id, WorkerEnded(q.builds[id], scope));
  }

  lemma ExitInv(s: Sys, scope: ScopeId)
    requires SysInv(s) && Enabled(s, Exit(scope))
    ensures SysInv(Step(s, Exit(scope))) && ResultsKept(s.q, Step(s, Exit(scope)).q)
  {
    WorkerEndedInv(s.q, s.tasks[scope].build, scope);
    ExitTasks(s, scope);
  }

  lemma AfterDrainIndexed(q: Queue, store: StoreId)
    requires Inv(q)
    ensures Inv(AfterDrain(q, store)) && ResultsKept(q, AfterDrain(q, store))
  {
    var q' := AfterDrain(q, store);
    assert forall r :: HeldBy(q', r) == HeldBy(q, r);
    forall id | id in q.builds
      ensures SameForIndices(q.builds[id], q'.builds[id]) && q'.builds[id].result == q.builds[id].result
    { TotalCharge(q.builds[id].failures, store); }
    ManyBuildsChanged(q, q');
  }

  lemma ManyBuildsChanged(q: Queue, q': Queue)
    requires Inv(q) && q'.builds.Keys == q.builds.Keys
    requires q'.order == q.order && q'.byPath == q.byPath && q'.byId == q.byId && q'.nextId == q.nextId
    requires q'.held == q.held && q'.givenUp == q.givenUp && q'.maxJobs == q.maxJobs
    requires forall id :: id in q.builds ==> SameForIndices(q.builds[id], q'.builds[id])
    ensures Inv(q') && ResultsKept(q, q')
  {
    assert forall r :: HeldBy(q', r) == HeldBy(q, r);
    forall id | Unfinished(q', id)
      ensures Unfinished(q, id)
    { assert SameForIndices(q.builds[id], q'.builds[id]); }
    forall r, id | id in q'.builds
      ensures r in q'.builds[id].holders <==> id in HeldBy(q', r)
    { assert SameForIndices(q.builds[id], q'.builds[id]); }
  }

  lemma DrainTasks(s: Sys, store: StoreId)
    requires TasksMatch(s) && PassMatches(s)
    ensures TasksMatch(Step(s, Drain(store))) && PassMatches(Step(s, Drain(store)))
  {
    var s' := Step(s, Drain(store));
    WorkersUnique(s);
    forall i | i in s'.q.builds && s'.q.builds[i].worker.Some?
      ensures WorkerMatches(s', i)
    {
      assert WorkerMatches(s, i);
      var w := s.q.builds[i].worker.value;
      forall j | j in s.q.builds && Drained(s.q, j, store)
        ensures w !in ScopeOf(s.q.builds[j])
      {}
    }
    forall w | w in s'.q.cancelled
      ensures w < s'.nextScope
    {
      if w !in s.q.cancelled {
        var j :| j in s.q.builds && Drained(s.q, j, store) && w in ScopeOf(s.q.builds[j]);
        assert WorkerMatches(s, j);
      }
    }
  }

  lemma DrainInv(s: Sys, store: StoreId)
    requires SysInv(s)
    ensures SysInv(Step(s, Drain(store))) && ResultsKept(s.q, Step(s, Drain(store)).q)
  {
    AfterDrainIndexed(s.q, store);
    DrainTasks(s, store);
  }

  lemma StepInv(s: Sys, e: Event)
    requires SysInv(s) && Enabled(s, e)
    ensures SysInv(Step(s, e)) && ResultsKept(s.q, Step(s, e).q)
  {
    match e
    case Queued(op) => QueuedInv(s, op);
    case BeginPass(snapshot) => BeginPassInv(s, snapshot);
    case Turn(env, sponsor) => TurnInv(s, env, sponsor);
    case CarryOut => CarryOutInv(s);
    case EndPass => PassDropped(s);
    case Finish(scope, response) => FinishInv(s, scope, response);
    case Retry(scope) => RetryInv(s, scope);
    case Exit(scope) => ExitInv(s, scope);
    case Drain(store) => DrainInv(s, store);
  }

  /** In every reachable state the queue invariant holds: one unfinished build
      per derivation, the holders and the request lists agree, the indices name
      the same builds, retries add up. A result once set never changes. */
  lemma {:induction false} RunInv(s: Sys, es: seq<Event>)
    requires SysInv(s) && Possible(s, es)
    ensures SysInv(Run(s, es)) && ResultsKept(s.q, Run(s, es).q)
    decreases |es|
  {
    if |es| > 0 {
      StepInv(s, es[0]);
      RunInv(Step(s, es[0]), es[1..]);
      ResultsKeptTransitive(s.q, Step(s, es[0]).q, Run(s, es).q);
    }
  }

  lemma ResultsKeptTransitive(a: Queue, b: Queue, c: Queue)
    requires ResultsKept(a, b) && ResultsKept(b, c)
    ensures ResultsKept(a, c)
  {
  }
}
