/** Scheduling passes, workers and draining over the shared queue, as one
    transition system. Each queue operation is one step under the queue lock. A
    pass takes one build at a time; when it decides to cancel or to fail the
    build, it has to wait for the lock, so that is a step of its own. Clients,
    workers and a drain can act between any two steps. */
module Scheduler {
  import opened Wrappers
  import opened Ordering
  import opened BuildQueue

  const LOCAL: StoreId := "local"

  // ---- choosing a store ----

  /** What a pass reads of a store: `supports` are the derivations it can
      build, `limit` its build limit. */
  datatype Store = Store(id: StoreId, healthy: bool, draining: bool, noSchedule: bool, supports: set<DrvPath>, limit: nat)

  predicate Eligible(b: Build, s: Store) {
    && s.id != LOCAL
    && s.healthy && !s.draining && !s.noSchedule
    && b.drv in s.supports
    && !b.Blacklisted(s.id)
  }

  /** The eligibility filter of the allocator. */
  method EligibleStores(b: Build, stores: seq<Store>) returns (candidates: seq<Store>)
    ensures forall s :: s in candidates <==> s in stores && Eligible(b, s)
    ensures forall s :: s in candidates <==>
              s in stores && s.id != LOCAL && s.healthy && !s.draining && !s.noSchedule && b.drv in s.supports
              && !(s.id in b.failures && b.failures[s.id] >= 3)
    ensures |candidates| <= |stores|
  {
    candidates := [];
    for k := 0 to |stores|
      invariant forall s :: s in candidates <==> s in stores[..k] && Eligible(b, s)
      invariant |candidates| <= k
    {
      var s := stores[k];
      assert forall x :: x in stores[..k + 1] <==> x in stores[..k] || x == s;
      if s.id == LOCAL { continue; }
      if !s.healthy || s.draining || s.noSchedule { continue; }
      if b.drv !in s.supports { continue; }
      if b.Blacklisted(s.id) { continue; }
      candidates := candidates + [s];
    }
    assert stores[..|stores|] == stores;
  }

  /** What a turn sees: the stores, the local one, the derivations a dynamic
      store may support later, and the ranker's answer for the build. */
  datatype Env = Env(stores: seq<Store>, local: Store, dynamic: set<DrvPath>, ranked: seq<Store>)

  /** The ranker answers some of the eligible stores, in an order of its own. */
  ghost predicate RankedFor(env: Env, b: Build) {
    && env.local.id == LOCAL
    && forall s :: s in env.ranked ==> s in env.stores && Eligible(b, s)
  }

  predicate LocalIsFallback(env: Env, b: Build) {
    && |env.ranked| == 0
    && env.local.healthy && !env.local.draining
    && !b.Blacklisted(LOCAL)
    && b.drv in env.local.supports
  }

  predicate HasCompatibleStore(env: Env, b: Build) {
    (exists s :: s in env.stores && !s.noSchedule && s.id != LOCAL && b.drv in s.supports) || b.drv in env.dynamic
  }

  /** Some schedulable store supports the build and each one is blacklisted. */
  predicate AllBlacklisted(env: Env, b: Build) {
    && (exists s :: s in env.stores && !s.noSchedule && b.drv in s.supports)
    && (forall s :: s in env.stores && !s.noSchedule && b.drv in s.supports ==> b.Blacklisted(s.id))
  }

  /** What a turn has decided and has to wait for the queue lock to do. */
  datatype Verdict = ToCancel(id: BuildId) | ToFail(id: BuildId)

  /** A pass: the builds still to look at, the builds that ran when it began,
      those it assigned, those it held back by pressure, and the verdict it
      waits to carry out. */
  datatype Pass = Pass(
    remaining: seq<BuildId>,
    running: map<StoreId, nat>,
    placed: map<StoreId, nat>,
    held: set<BuildId>,
    verdict: Option<Verdict>)

  function Count(m: map<StoreId, nat>, s: StoreId): nat {
    if s in m then m[s] else 0
  }

  predicate HasBuildRoom(p: Pass, s: Store) {
    Count(p.running, s.id) + Count(p.placed, s.id) < s.limit
  }

  function FirstRoomy(p: Pass, stores: seq<Store>): (r: Option<Store>)
    ensures r.Some? ==> r.value in stores && HasBuildRoom(p, r.value)
    ensures r.None? ==> forall s :: s in stores ==> !HasBuildRoom(p, s)
  {
    if |stores| == 0 then None
    else if HasBuildRoom(p, stores[0]) then Some(stores[0])
    else FirstRoomy(p, stores[1..])
  }

  function AtLeastOne(jobs: int): nat {
    if jobs > 1 then jobs else 1
  }

  /** The local builds that run and that the request holds. */
  function LocalRunning(q: Queue, r: RequestId): set<BuildId> {
    set id | id in q.byId && id in q.builds && q.builds[id].Building() && q.builds[id].store == Some(LOCAL)
             && r in q.builds[id].holders
  }

  predicate HasLocalSlot(q: Queue, r: RequestId) {
    r !in q.maxJobs || q.maxJobs[r].None? || |LocalRunning(q, r)| < AtLeastOne(q.maxJobs[r].value)
  }

  /** Counts a request's local builds, as the source does on each check. */
  method RequestHasALocalSlot(q: Queue, r: RequestId) returns (free: bool)
    requires q.byId <= q.builds.Keys
    ensures free == HasLocalSlot(q, r)
  {
    if r !in q.maxJobs || q.maxJobs[r].None? {
      return true;
    }
    var running := 0;
    var todo := q.byId;
    ghost var counted: set<BuildId> := {};
    while todo != {}
      invariant todo <= q.byId && counted !! todo && counted <= LocalRunning(q, r)
      invariant forall id :: id in LocalRunning(q, r) ==> id in counted || id in todo
      invariant running == |counted|
      decreases |todo|
    {
      var id :| id in todo;
      todo := todo - {id};
      var b := q.builds[id];
      if b.Building() && b.store == Some(LOCAL) && r in b.holders {
        running := running + 1;
        counted := counted + {id};
      }
    }
    assert counted == LocalRunning(q, r);
    return running < AtLeastOne(q.maxJobs[r].value);
  }

  /** `max-jobs` leaves no local slot: of any goal request that still wants the
      build, or of its own client when no goal holds it. */
  predicate LocalSlotIsFull(q: Queue, p: Pass, b: Build) {
    var wanters := LiveWanters(q, b);
    if wanters != {} then forall r :: r in wanters ==> !HasLocalSlot(q, r)
    else b.options.Some?
         && Count(p.running, LOCAL) + Count(p.placed, LOCAL) >= AtLeastOne(b.options.value.maxJobs)
  }

  datatype Decision = Skip | Unwanted | Hopeless | HeldByPressure | Wait | Start(store: StoreId)

  /** One turn of `_assign_to_stores`. */
  function Decide(q: Queue, p: Pass, env: Env, b: Build): Decision {
    if b.Building() then Skip
    else if NobodyWants(q, b) then Unwanted
    else if |env.ranked| == 0 && !LocalIsFallback(env, b) then
      if !HasCompatibleStore(env, b) || AllBlacklisted(env, b) then Hopeless else Wait
    else
      var candidates := if |env.ranked| > 0 then env.ranked else [env.local];
      match FirstRoomy(p, candidates)
      case None => HeldByPressure
      case Some(s) => if s.id == LOCAL && LocalSlotIsFull(q, p, b) then Wait else Start(s.id)
  }

  /** A build starts only on a store that may still take it, with room, and on
      the local one only as the fallback and in a slot of its own. */
  lemma StartIsAllowed(q: Queue, p: Pass, env: Env, b: Build)
    requires RankedFor(env, b) && Decide(q, p, env, b).Start?
    ensures var s := Decide(q, p, env, b).store;
            && !b.Building() && !NobodyWants(q, b) && !b.Blacklisted(s)
            && (s != LOCAL ==> exists t :: t in env.stores && t.id == s && Eligible(b, t) && HasBuildRoom(p, t))
            && (s == LOCAL ==> |env.ranked| == 0 && !LocalSlotIsFull(q, p, b) && HasBuildRoom(p, env.local)
                               && b.drv in env.local.supports)
  {
    var candidates := if |env.ranked| > 0 then env.ranked else [env.local];
    var s := FirstRoomy(p, candidates).value;
    if |env.ranked| > 0 {
      assert s in env.ranked;
    }
  }

  /** No build waits without a reason: it waits only when a store that supports
      it can still take it, or may appear, or its slots are in use. */
  lemma HopelessBuildsFail(q: Queue, p: Pass, env: Env, b: Build)
    requires RankedFor(env, b) && !b.Building() && !NobodyWants(q, b)
    requires b.Blacklisted(LOCAL) || b.drv !in env.local.supports
    requires forall s :: s in env.stores && !s.noSchedule && b.drv in s.supports ==> b.Blacklisted(s.id)
    requires b.drv !in env.dynamic || exists s :: s in env.stores && !s.noSchedule && b.drv in s.supports
    ensures Decide(q, p, env, b) == Hopeless
  {
    NoMembers(env.ranked);
  }

  lemma NoMembers<T>(s: seq<T>)
    ensures s == [] || exists x :: x in s
  {
    assert |s| > 0 ==> s[0] in s;
  }

  // ---- the transition system ----

  /** A worker: the build and store it was started for, whether it has asked for
      a retry, and whether it has completed the build. A worker that asked for a
      retry after the daemon had answered still completes the build. */
  datatype Task = Task(build: BuildId, store: StoreId, retried: bool, settled: bool)

  /** `starts` counts the workers a build was given on each store. `sponsor` is
      the goal request whose local slot a running local build was started on. */
  datatype Sys = Sys(
    q: Queue,
    tasks: map<ScopeId, Task>,
    nextScope: ScopeId,
    pass: Option<Pass>,
    starts: map<BuildId, map<StoreId, nat>>,
    sponsor: map<BuildId, RequestId>)

  const INITIAL := Sys(EMPTY, map[], 0, None, map[], map[])

  function StartsOf(s: Sys, id: BuildId, store: StoreId): nat {
    if id in s.starts then Count(s.starts[id], store) else 0
  }

  datatype Op =
    | DoEnqueue(ask: Ask)
    | DoSubscribe(id: BuildId, client: Client, cancelOnLeave: bool, replayed: bool)
    | DoUnsubscribe(id: BuildId, client: Client)
    | DoLoseSubscriber(id: BuildId, client: Client)
    | DoRelease(r: RequestId)
    | DoPrune
    | DoDropRequest(r: RequestId)

  datatype Event =
    | Queued(op: Op)
    | BeginPass(snapshot: seq<BuildId>)
    | Turn(env: Env, sponsor: RequestId)
    | CarryOut
    | EndPass
    | Finish(scope: ScopeId, response: Response)
    | Retry(scope: ScopeId)
    | Exit(scope: ScopeId)
    | Drain(store: StoreId)

  function ApplyOp(q: Queue, op: Op): Queue {
    match op
    case DoEnqueue(ask) => if Refuses(ask) then q else Enqueued(q, ask).0
    case DoSubscribe(id, client, cancelOnLeave, replayed) => Subscribed(q, id, client, cancelOnLeave, replayed)
    case DoUnsubscribe(id, client) => Unsubscribed(q, id, client)
    case DoLoseSubscriber(id, client) => SubscriberLost(q, id, client)
    case DoRelease(r) => Released(q, r)
    case DoPrune => Pruned(q)
    case DoDropRequest(r) => RequestDropped(q, r)
  }

  /** The builds a pass looks at: unfinished and without a worker. */
  function Schedulable(q: Queue): set<BuildId> {
    set id | id in q.byId && id in q.builds && !q.builds[id].Done() && !q.builds[id].Building()
  }

  function RunningOn(q: Queue, store: StoreId): set<BuildId> {
    set id | id in q.byId && id in q.builds && !q.builds[id].Done() && q.builds[id].Building()
             && q.builds[id].store == Some(store)
  }

  function RunningCounts(q: Queue): map<StoreId, nat> {
    map s | s in (set id | id in q.builds && q.builds[id].store.Some? :: q.builds[id].store.value) :: |RunningOn(q, s)|
  }

  /** The wanters whose slot a local start may take. */
  function Sponsors(q: Queue, b: Build): set<RequestId> {
    set r | r in LiveWanters(q, b) && HasLocalSlot(q, r)
  }

  ghost predicate Enabled(s: Sys, e: Event) {
    match e
    case Queued(_) => true
    case BeginPass(snapshot) => s.pass.None? && NoDuplicates(snapshot) && Elements(snapshot) == Schedulable(s.q)
    case Turn(env, sponsor) =>
      && s.pass.Some? && s.pass.value.verdict.None? && |s.pass.value.remaining| > 0
      && s.pass.value.remaining[0] in s.q.builds
      && var b := s.q.builds[s.pass.value.remaining[0]];
         && RankedFor(env, b)
         && (Decide(s.q, s.pass.value, env, b) == Start(LOCAL) && LiveWanters(s.q, b) != {} ==> sponsor in Sponsors(s.q, b))
    case CarryOut => s.pass.Some? && s.pass.value.verdict.Some?
    case EndPass => s.pass.Some? && s.pass.value.verdict.None? && s.pass.value.remaining == []
    case Finish(scope, _) => scope in s.tasks && !s.tasks[scope].settled
    case Retry(scope) => scope in s.tasks && !s.tasks[scope].settled && !s.tasks[scope].retried
    case Exit(scope) => scope in s.tasks && (s.tasks[scope].settled || s.tasks[scope].retried || scope in s.q.cancelled)
    case Drain(_) => true
  }

  function Bump(m: map<StoreId, nat>, s: StoreId): map<StoreId, nat> {
    m[s := Count(m, s) + 1]
  }

  function StartsAfter(s: Sys, id: BuildId, store: StoreId): map<BuildId, map<StoreId, nat>> {
    s.starts[id := Bump(if id in s.starts then s.starts[id] else map[], store)]
  }

  /** Give the build a worker on the store. */
  function Started(s: Sys, p: Pass, id: BuildId, store: StoreId, sponsor: RequestId): Sys
    requires id in s.q.builds
  {
    s.(q := Assigned(s.q, id, store, s.nextScope),
       tasks := s.tasks[s.nextScope := Task(id, store, false, false)],
       nextScope := s.nextScope + 1,
       pass := Some(p.(placed := Bump(p.placed, store))),
       starts := StartsAfter(s, id, store),
       sponsor := if store == LOCAL && LiveWanters(s.q, s.q.builds[id]) != {} then s.sponsor[id := sponsor]
                  else s.sponsor - {id})
  }

  /** A worker's `complete` of a build the queue dropped is an error that the
      worker suppresses. */
  function AfterFinish(q: Queue, id: BuildId, response: Response): Queue {
    match Completed(q, id, response)
    case Some(q') => q'
    case None => q
  }

  function Failed(q: Queue, id: BuildId): Queue {
    AfterFinish(q, id, Response(false, "no store"))
  }

  /** The start of a worker waits for nothing. A cancel or a failure is decided
      here and carried out later. */
  function TakeTurn(s: Sys, env: Env, sponsor: RequestId): Sys
    requires s.pass.Some? && |s.pass.value.remaining| > 0 && s.pass.value.remaining[0] in s.q.builds
  {
    var id := s.pass.value.remaining[0];
    var p := s.pass.value.(remaining := s.pass.value.remaining[1..]);
    match Decide(s.q, s.pass.value, env, s.q.builds[id])
    case Skip => s.(pass := Some(p))
    case Wait => s.(pass := Some(p))
    case HeldByPressure => s.(pass := Some(p.(held := p.held + {id})))
    case Unwanted => s.(pass := Some(p.(verdict := Some(ToCancel(id)))))
    case Hopeless => s.(pass := Some(p.(verdict := Some(ToFail(id)))))
    case Start(store) => Started(s, p, id, store, sponsor)
  }

  /** The pass has the lock. A cancel looks only at whether the build is queued
      and unfinished, not at who wants it now. The error of `fail` for a build
      that the queue dropped meanwhile ends the pass, and the builds behind it
      are not looked at. */
  function CarriedOut(s: Sys): Sys
    requires s.pass.Some? && s.pass.value.verdict.Some?
  {
    var p := s.pass.value.(verdict := None);
    match s.pass.value.verdict.value
    case ToCancel(id) => s.(pass := Some(p), q := CancelledUnwanted(s.q, id))
    case ToFail(id) => if id in s.q.order then s.(pass := Some(p), q := Failed(s.q, id)) else s.(pass := None)
  }

  /** The builds a drain resets: unfinished, last assigned to the store. */
  predicate Drained(q: Queue, id: BuildId, store: StoreId) {
    id in q.byId && id in q.builds && !q.builds[id].Done() && q.builds[id].store == Some(store)
  }

  function AfterDrain(q: Queue, store: StoreId): Queue {
    q.(builds := map id | id in q.builds ::
                   if Drained(q, id, store) then ResetForRetry(q.builds[id], store) else q.builds[id],
       cancelled := q.cancelled + set id, w | id in q.builds && Drained(q, id, store) && w in ScopeOf(q.builds[id]) :: w)
  }

  /** A release forgets what the request sponsored. */
  function SponsorsKept(sponsor: map<BuildId, RequestId>, op: Op): map<BuildId, RequestId> {
    if op.DoRelease? then map id | id in sponsor && sponsor[id] != op.r :: sponsor[id] else sponsor
  }

  function Step(s: Sys, e: Event): Sys
    requires Enabled(s, e)
  {
    match e
    case Queued(op) => s.(q := ApplyOp(s.q, op), sponsor := SponsorsKept(s.sponsor, op))
    case BeginPass(snapshot) => s.(pass := Some(Pass(snapshot, RunningCounts(s.q), map[], {}, None)))
    case Turn(env, sponsor) => TakeTurn(s, env, sponsor)
    case CarryOut => CarriedOut(s)
    case EndPass => s.(pass := None)
    case Finish(scope, response) =>
      var id := s.tasks[scope].build;
      s.(q := AfterFinish(s.q, id, response),
         tasks := s.tasks[scope := s.tasks[scope].(settled := true)])
    case Retry(scope) =>
      var id := s.tasks[scope].build;
      s.(q := if id in s.q.builds then SetBuild(s.q, id, ResetForRetry(s.q.builds[id], s.tasks[scope].store)) else s.q,
         tasks := s.tasks[scope := s.tasks[scope].(retried := true)])
    case Exit(scope) =>
      var id := s.tasks[scope].build;
      s.(q := if id in s.q.builds then SetBuild(s.q, id, WorkerEnded(s.q.builds[id], scope)) else s.q,
         tasks := s.tasks - {scope})
    case Drain(store) => s.(q := AfterDrain(s.q, store))
  }

  ghost predicate Possible(s: Sys, es: seq<Event>)
    decreases |es|
  {
    |es| == 0 || (Enabled(s, es[0]) && Possible(Step(s, es[0]), es[1..]))
  }

  function Run(s: Sys, es: seq<Event>): Sys
    requires Possible(s, es)
    decreases |es|
  {
    if |es| == 0 then s else Run(Step(s, es[0]), es[1..])
  }
}
