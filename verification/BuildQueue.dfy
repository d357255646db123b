/** The shared build queue: one build per derivation, held by the goal requests
    that want it. Each operation below is one critical section of the queue
    lock. A build object is named by its build id, which is never used twice;
    `builds` keeps every object, also one the queue dropped, because a worker
    may still run it. */
module BuildQueue {
  import opened Wrappers
  import opened Ordering

  type BuildId = nat
  type RequestId = nat
  type Client = nat
  type ScopeId = nat
  type StoreId = string
  type DrvPath = string

  const MAX_STORE_RETRIES: nat := 3

  /** The client options the queue reads. */
  datatype Options = Options(maxJobs: int, keepGoing: bool)

  datatype Response = Response(success: bool, message: string)

  datatype Build = Build(
    drv: DrvPath,
    options: Option<Options>,
    result: Option<Response>,
    holders: set<RequestId>,
    requests: set<RequestId>,
    subscribers: map<Client, nat>,
    cancelWhenUnsubscribed: bool,
    fromGoal: bool,
    worker: Option<ScopeId>,
    store: Option<StoreId>,
    retries: nat,
    failures: map<StoreId, nat>)
  {
    predicate Done() { result.Some? }
    predicate Building() { worker.Some? }

    function FailuresOn(s: StoreId): nat {
      if s in failures then failures[s] else 0
    }

    predicate Blacklisted(s: StoreId) {
      FailuresOn(s) >= MAX_STORE_RETRIES
    }
  }

  datatype Queue = Queue(
    order: seq<BuildId>,
    byPath: map<DrvPath, BuildId>,
    byId: set<BuildId>,
    builds: map<BuildId, Build>,
    nextId: BuildId,
    givenUp: set<RequestId>,
    maxJobs: map<RequestId, Option<int>>,
    held: map<RequestId, set<BuildId>>,
    cancelled: set<ScopeId>)

  const EMPTY := Queue([], map[], {}, map[], 1, {}, map[], map[], {})

  function HeldBy(q: Queue, r: RequestId): set<BuildId> {
    if r in q.held then q.held[r] else {}
  }

  predicate Unfinished(q: Queue, id: BuildId) {
    id in q.builds && !q.builds[id].Done()
  }

  // ---- operations ----

  function SetBuild(q: Queue, id: BuildId, b: Build): Queue {
    q.(builds := q.builds[id := b])
  }

  function Hold(q: Queue, id: BuildId, r: RequestId): Queue
    requires id in q.builds
  {
    var b := q.builds[id];
    SetBuild(q, id, b.(holders := b.holders + {r})).(held := q.held[r := HeldBy(q, r) + {id}])
  }

  function JobsOf(options: Option<Options>): Option<int> {
    match options
    case None => None
    case Some(o) => Some(o.maxJobs)
  }

  /** What a client asks of the queue. */
  datatype Ask = Ask(drv: DrvPath, options: Option<Options>, request: Option<RequestId>, fromGoal: bool, goal: Option<RequestId>)

  function NoteJobs(q: Queue, a: Ask): Queue {
    if a.goal.Some? then q.(maxJobs := q.maxJobs[a.goal.value := JobsOf(a.options)]) else q
  }

  function HoldIfGoal(q: Queue, id: BuildId, a: Ask): Queue
    requires id in q.builds
  {
    if a.fromGoal && a.goal.Some? then Hold(q, id, a.goal.value) else q
  }

  function Asked(a: Ask): set<RequestId> {
    if a.request.Some? then {a.request.value} else {}
  }

  /** Join the unfinished build of the same derivation. */
  function Join(q: Queue, id: BuildId, a: Ask): Queue
    requires id in q.builds
  {
    var b := q.builds[id];
    HoldIfGoal(SetBuild(q, id, b.(fromGoal := b.fromGoal || a.fromGoal, requests := b.requests + Asked(a))), id, a)
  }

  function NewBuild(a: Ask): Build {
    Build(a.drv, a.options, None, {}, Asked(a), map[], false, a.fromGoal, None, None, 0, map[])
  }

  /** The queue with a new build in it, before anybody holds the build. */
  function Appended(q: Queue, a: Ask): Queue {
    q.(order := q.order + [q.nextId],
       byPath := q.byPath[a.drv := q.nextId],
       byId := q.byId + {q.nextId},
       builds := q.builds[q.nextId := NewBuild(a)],
       nextId := q.nextId + 1)
  }

  function Add(q: Queue, a: Ask): Queue {
    HoldIfGoal(Appended(q, a), q.nextId, a)
  }

  /** The unfinished build a derivation path is registered under. */
  function Existing(q: Queue, drv: DrvPath): Option<BuildId> {
    if drv in q.byPath && Unfinished(q, q.byPath[drv]) then Some(q.byPath[drv]) else None
  }

  /** Refused: a goal build needs the goal request that holds it. */
  predicate Refuses(a: Ask) {
    a.fromGoal && a.goal.None?
  }

  function Enqueued(q: Queue, a: Ask): (Queue, BuildId)
    requires !Refuses(a)
  {
    var noted := NoteJobs(q, a);
    match Existing(q, a.drv)
    case Some(id) => (Join(noted, id, a), id)
    case None => (Add(noted, a), q.nextId)
  }

  function CancelledResponse(message: string): Response {
    Response(false, message)
  }

  function ScopeOf(b: Build): set<ScopeId> {
    if b.worker.Some? then {b.worker.value} else {}
  }

  /** End a build and cancel its worker; a result that is set stays. */
  function Cancel(q: Queue, id: BuildId, message: string): Queue
    requires id in q.builds
  {
    var b := q.builds[id];
    SetBuild(q, id, if b.Done() then b else b.(result := Some(CancelledResponse(message))))
      .(cancelled := q.cancelled + ScopeOf(b))
  }

  /** One more subscription of a client; a replay that fails adds none. */
  function WithSubscriber(b: Build, client: Client, cancelOnLeave: bool, replayed: bool): Build {
    b.(cancelWhenUnsubscribed := b.cancelWhenUnsubscribed || cancelOnLeave,
       subscribers := if client in b.subscribers then b.subscribers[client := b.subscribers[client] + 1]
                      else if replayed then b.subscribers[client := 1] else b.subscribers)
  }

  function Subscribed(q: Queue, id: BuildId, client: Client, cancelOnLeave: bool, replayed: bool): Queue {
    if id in q.byId && id in q.builds then SetBuild(q, id, WithSubscriber(q.builds[id], client, cancelOnLeave, replayed))
    else q
  }

  function WithoutSubscriber(b: Build, client: Client): Build
    requires client in b.subscribers
  {
    var refs := b.subscribers[client];
    b.(subscribers := if refs > 1 then b.subscribers[client := refs - 1] else b.subscribers - {client})
  }

  predicate Abandoned(b: Build) {
    b.cancelWhenUnsubscribed && b.subscribers == map[] && !b.Done()
  }

  /** One subscription fewer; a client-bound build that lost its last client
      ends. */
  function Unsubscribed(q: Queue, id: BuildId, client: Client): Queue {
    if id !in q.byId || id !in q.builds || client !in q.builds[id].subscribers then q else
      var left := WithoutSubscriber(q.builds[id], client);
      var after := SetBuild(q, id, left);
      if Abandoned(left) then Cancel(after, id, "disconnected") else after
  }

  /** A send to a client failed: its subscription goes, and nothing ends. */
  function SubscriberLost(q: Queue, id: BuildId, client: Client): Queue {
    if id in q.builds && client in q.builds[id].subscribers then SetBuild(q, id, WithoutSubscriber(q.builds[id], client)) else q
  }

  /** The release of `r` leaves nobody that holds the unfinished build. */
  predicate EndsWith(b: Build, r: RequestId) {
    b.holders - {r} == {} && !b.Done()
  }

  function ReleasedBuild(b: Build, r: RequestId): Build {
    var left := b.(holders := b.holders - {r}, requests := b.requests - {r});
    if EndsWith(b, r) then left.(result := Some(CancelledResponse("unheld"))) else left
  }

  function ReleasedBuilds(builds: map<BuildId, Build>, ids: set<BuildId>, r: RequestId): map<BuildId, Build> {
    map id | id in builds :: if id in ids then ReleasedBuild(builds[id], r) else builds[id]
  }

  /** The builds of `ids` a release ends. */
  function EndedBy(builds: map<BuildId, Build>, ids: set<BuildId>, r: RequestId): set<BuildId> {
    set id | id in ids && id in builds && EndsWith(builds[id], r)
  }

  function ScopesOf(builds: map<BuildId, Build>, ids: set<BuildId>): set<ScopeId> {
    set id, s | id in ids && id in builds && s in ScopeOf(builds[id]) :: s
  }

  /** A goal request lets go of every build it holds, and is forgotten. */
  function Released(q: Queue, r: RequestId): Queue {
    var mine := HeldBy(q, r) * q.byId;
    q.(builds := ReleasedBuilds(q.builds, mine, r),
       held := q.held - {r},
       givenUp := q.givenUp - {r},
       maxJobs := q.maxJobs - {r},
       cancelled := q.cancelled + ScopesOf(q.builds, EndedBy(q.builds, mine, r)))
  }

  /** A failure ends each goal request that holds the build, unless the client
      that made it set `keep-going`. */
  function NoteGivenUp(q: Queue, b: Build, success: bool): set<RequestId> {
    if success || b.options.None? || b.options.value.keepGoing then q.givenUp else q.givenUp + b.holders
  }

  /** `complete` and `fail`: set the result of a queued build once. `None` is
      the error for a build the queue does not hold. */
  function Completed(q: Queue, id: BuildId, response: Response): Option<Queue> {
    if id !in q.order || id !in q.builds then None
    else if q.builds[id].Done() then Some(q)
    else
      var b := q.builds[id];
      Some(SetBuild(q, id, b.(result := Some(response))).(givenUp := NoteGivenUp(q, b, response.success)))
  }

  predicate NobodyWants(q: Queue, b: Build) {
    b.holders != {} && b.holders <= q.givenUp
  }

  function LiveWanters(q: Queue, b: Build): set<RequestId> {
    b.holders - q.givenUp
  }

  function CancelledUnwanted(q: Queue, id: BuildId): Queue {
    if id in q.byId && Unfinished(q, id) then Cancel(q, id, "") else q
  }

  predicate Doomed(b: Build) {
    b.Done() && b.requests == {} && b.holders == {} && b.subscribers == map[]
  }

  function DoomedIds(q: Queue): set<BuildId> {
    set id | id in q.order && id in q.builds && Doomed(q.builds[id])
  }

  function Without(order: seq<BuildId>, doomed: set<BuildId>): (r: seq<BuildId>)
    ensures Elements(r) == Elements(order) - doomed
    ensures NoDuplicates(order) ==> NoDuplicates(r)
  {
    if |order| == 0 then [] else
      var front, last := order[..|order| - 1], order[|order| - 1];
      assert order == front + [last];
      ElementsConcat(front, [last]);
      var r := Without(front, doomed);
      ElementsConcat(r, [last]);
      assert NoDuplicates(order) ==> last !in front;
      assert last in r ==> last in Elements(r);
      if last in doomed then r else r + [last]
  }

  /** The registrations that do not name one of `ids` under its own path. */
  function KeptPaths(byPath: map<DrvPath, BuildId>, builds: map<BuildId, Build>, ids: set<BuildId>): map<DrvPath, BuildId> {
    map p | p in byPath && !(byPath[p] in ids && byPath[p] in builds && builds[byPath[p]].drv == p) :: byPath[p]
  }

  /** Drop the finished builds nobody waits for and nobody streams. */
  function Pruned(q: Queue): Queue {
    var doomed := DoomedIds(q);
    q.(order := Without(q.order, doomed),
       byId := q.byId - doomed,
       byPath := KeptPaths(q.byPath, q.builds, q.byId * doomed))
  }

  /** `prune_request`, its first section: a request id leaves every build. */
  function RequestDropped(q: Queue, r: RequestId): Queue {
    q.(builds := map id | id in q.builds ::
                   if id in q.order then q.builds[id].(requests := q.builds[id].requests - {r}) else q.builds[id])
  }

  // ---- what the scheduler does to a build ----

  function Assigned(q: Queue, id: BuildId, store: StoreId, scope: ScopeId): Queue
    requires id in q.builds
  {
    SetBuild(q, id, q.builds[id].(store := Some(store), worker := Some(scope)))
  }

  /** `reset_for_retry`: charge the store and free the build. It clears the
      worker whoever that is. */
  function ResetForRetry(b: Build, store: StoreId): Build {
    b.(retries := b.retries + 1, worker := None, failures := b.failures[store := b.FailuresOn(store) + 1])
  }

  /** `worker_ended`: clear the worker only when it is the one that ended. */
  function WorkerEnded(b: Build, scope: ScopeId): Build {
    if b.worker == Some(scope) then b.(worker := None) else b
  }

  // ---- the invariant ----

  ghost predicate Indexed(q: Queue) {
    && NoDuplicates(q.order)
    && Elements(q.order) == q.byId
    && q.byId <= q.builds.Keys
    && (forall id :: id in q.builds ==> id < q.nextId)
  }

  /** At most one unfinished build per derivation path: the registered one. */
  ghost predicate Deduplicated(q: Queue) {
    && (forall p :: p in q.byPath ==> q.byPath[p] in q.byId && q.byPath[p] in q.builds && q.builds[q.byPath[p]].drv == p)
    && (forall id :: Unfinished(q, id) ==> id in q.byId && q.builds[id].drv in q.byPath && q.byPath[q.builds[id].drv] == id)
  }

  /** A request is a holder of a build exactly when it lists the build. */
  ghost predicate HoldersAgree(q: Queue) {
    && (forall r, id :: id in q.builds ==> (r in q.builds[id].holders <==> id in HeldBy(q, r)))
    && (forall r :: r in q.held ==> q.held[r] <= q.byId)
    && q.givenUp <= q.held.Keys
    && q.held.Keys <= q.maxJobs.Keys
  }

  function Total(m: map<StoreId, nat>): nat {
    if m == map[] then 0 else
      var k := Least(m.Keys);
      m[k] + Total(m - {k})
  }

  /** Retries are the sum of the failures charged to each store. */
  ghost predicate RetriesAddUp(q: Queue) {
    forall id :: id in q.builds ==> q.builds[id].retries == Total(q.builds[id].failures)
  }

  ghost predicate Inv(q: Queue) {
    Indexed(q) && Deduplicated(q) && HoldersAgree(q) && RetriesAddUp(q)
  }

  lemma EmptyInv()
    ensures Inv(EMPTY)
  {
    assert Elements(EMPTY.order) == {};
  }

  /** Results that are set stay as they are. */
  ghost predicate ResultsKept(q: Queue, q': Queue) {
    forall id :: id in q.builds && q.builds[id].Done() ==> id in q'.builds && q'.builds[id].result == q.builds[id].result
  }

  // ---- a change to one build that touches none of the indices ----

  /** What the indices read of a build. */
  ghost predicate SameForIndices(b: Build, b': Build) {
    && b'.drv == b.drv
    && b'.holders == b.holders
    && (b.Done() ==> b'.result == b.result)
    && b'.retries == Total(b'.failures)
  }

  lemma OneBuildChanged(q: Queue, id: BuildId, b: Build)
    requires Inv(q) && id in q.builds && SameForIndices(q.builds[id], b)
    ensures Inv(SetBuild(q, id, b)) && ResultsKept(q, SetBuild(q, id, b))
  {
    var q' := SetBuild(q, id, b);
    assert forall r :: HeldBy(q', r) == HeldBy(q, r);
  }

  lemma InvIgnoresCancelled(q: Queue, cancelled: set<ScopeId>)
    requires Inv(q)
    ensures Inv(q.(cancelled := cancelled))
  {
    var q' := q.(cancelled := cancelled);
    assert forall r :: HeldBy(q', r) == HeldBy(q, r);
  }

  lemma CancelInv(q: Queue, id: BuildId, message: string)
    requires Inv(q) && id in q.builds
    ensures Inv(Cancel(q, id, message)) && ResultsKept(q, Cancel(q, id, message))
  {
    var b := q.builds[id];
    var b' := if b.Done() then b else b.(result := Some(CancelledResponse(message)));
    OneBuildChanged(q, id, b');
    InvIgnoresCancelled(SetBuild(q, id, b'), q.cancelled + ScopeOf(b));
  }

  lemma SubscribedInv(q: Queue, id: BuildId, client: Client, cancelOnLeave: bool, replayed: bool)
    requires Inv(q)
    ensures var q' := Subscribed(q, id, client, cancelOnLeave, replayed); Inv(q') && ResultsKept(q, q')
  {
    if id in q.byId {
      OneBuildChanged(q, id, WithSubscriber(q.builds[id], client, cancelOnLeave, replayed));
    }
  }

  lemma UnsubscribedInv(q: Queue, id: BuildId, client: Client)
    requires Inv(q)
    ensures var q' := Unsubscribed(q, id, client); Inv(q') && ResultsKept(q, q')
  {
    if id in q.byId && client in q.builds[id].subscribers {
      var left := WithoutSubscriber(q.builds[id], client);
      OneBuildChanged(q, id, left);
      CancelInv(SetBuild(q, id, left), id, "disconnected");
    }
  }

  lemma InvWithGivenUp(q: Queue, more: set<RequestId>)
    requires Inv(q) && more <= q.held.Keys
    ensures Inv(q.(givenUp := more))
  {
    var q' := q.(givenUp := more);
    assert forall r :: HeldBy(q', r) == HeldBy(q, r);
  }

  lemma CompletedInv(q: Queue, id: BuildId, response: Response)
    requires Inv(q)
    ensures var q' := Completed(q, id, response);
            && (q'.None? <==> id !in q.byId)
            && (q'.Some? ==>
                  && Inv(q'.value) && ResultsKept(q, q'.value)
                  && q'.value.builds[id].result == if q.builds[id].Done() then q.builds[id].result else Some(response))
  {
    assert id in q.order <==> id in Elements(q.order);
    if id in q.byId && !q.builds[id].Done() {
      var b := q.builds[id];
      forall r | r in b.holders
        ensures r in q.held
      { assert id in HeldBy(q, r); }
      OneBuildChanged(q, id, b.(result := Some(response)));
      InvWithGivenUp(SetBuild(q, id, b.(result := Some(response))), NoteGivenUp(q, b, response.success));
    }
  }

  lemma CancelledUnwantedInv(q: Queue, id: BuildId)
    requires Inv(q)
    ensures var q' := CancelledUnwanted(q, id); Inv(q') && ResultsKept(q, q')
  {
    if id in q.byId && Unfinished(q, id) {
      CancelInv(q, id, "");
    }
  }

  // ---- enqueue ----

  lemma HoldInv(q: Queue, id: BuildId, r: RequestId)
    requires Inv(q) && id in q.byId && r in q.maxJobs
    ensures Inv(Hold(q, id, r)) && ResultsKept(q, Hold(q, id, r))
  {
    var q' := Hold(q, id, r);
    forall s, i | i in q'.builds
      ensures s in q'.builds[i].holders <==> i in HeldBy(q', s)
    {
      assert s in q.builds[i].holders <==> i in HeldBy(q, s);
    }
  }

  lemma NoteJobsInv(q: Queue, a: Ask)
    requires Inv(q)
    ensures Inv(NoteJobs(q, a))
  {
    var q' := NoteJobs(q, a);
    assert forall r :: HeldBy(q', r) == HeldBy(q, r);
  }

  lemma JoinInv(q: Queue, id: BuildId, a: Ask)
    requires Inv(q) && id in q.byId && (a.goal.Some? ==> a.goal.value in q.maxJobs)
    ensures Inv(Join(q, id, a)) && ResultsKept(q, Join(q, id, a))
  {
    var b := q.builds[id];
    var b' := b.(fromGoal := b.fromGoal || a.fromGoal, requests := b.requests + Asked(a));
    OneBuildChanged(q, id, b');
    if a.fromGoal && a.goal.Some? {
      HoldInv(SetBuild(q, id, b'), id, a.goal.value);
    }
  }

  lemma AppendedIndexed(q: Queue, a: Ask)
    requires Inv(q)
    ensures Indexed(Appended(q, a)) && RetriesAddUp(Appended(q, a)) && ResultsKept(q, Appended(q, a))
  {
    ElementsConcat(q.order, [q.nextId]);
    assert forall i :: 0 <= i < |q.order| ==> q.order[i] in Elements(q.order);
  }

  lemma AppendedAgrees(q: Queue, a: Ask)
    requires Inv(q) && Existing(q, a.drv).None?
    ensures Deduplicated(Appended(q, a)) && HoldersAgree(Appended(q, a))
  {
    var q' := Appended(q, a);
    assert forall r :: HeldBy(q', r) == HeldBy(q, r);
    forall r, i | i in q'.builds
      ensures r in q'.builds[i].holders <==> i in HeldBy(q', r)
    {
      assert q.nextId !in q.byId;
    }
    forall i | Unfinished(q', i)
      ensures i in q'.byId && q'.builds[i].drv in q'.byPath && q'.byPath[q'.builds[i].drv] == i
    {
      if i != q.nextId {
        assert Unfinished(q, i);
      }
    }
  }

  lemma EnqueuedInv(q: Queue, a: Ask)
    requires Inv(q) && !Refuses(a)
    ensures Inv(Enqueued(q, a).0) && ResultsKept(q, Enqueued(q, a).0)
  {
    var noted := NoteJobs(q, a);
    NoteJobsInv(q, a);
    assert Existing(noted, a.drv) == Existing(q, a.drv);
    match Existing(q, a.drv) {
      case Some(id) => JoinInv(noted, id, a);
      case None =>
        AppendedIndexed(noted, a);
        AppendedAgrees(noted, a);
        if a.fromGoal && a.goal.Some? {
          HoldInv(Appended(noted, a), q.nextId, a.goal.value);
        }
    }
  }

  /** The build an ask ends on: unfinished, of that derivation, registered, and
      held by the goal that asked. Another ask for the derivation joins it. */
  lemma EnqueuedAnswers(q: Queue, a: Ask)
    requires Inv(q) && !Refuses(a)
    ensures Answers(Enqueued(q, a).0, Enqueued(q, a).1, a)
    ensures Enqueued(q, a).0.builds.Keys == (if Existing(q, a.drv).None? then q.builds.Keys + {q.nextId} else q.builds.Keys)
  {
    var noted := NoteJobs(q, a);
    match Existing(q, a.drv)
    case Some(id) => JoinAnswers(noted, id, a);
    case None => AddAnswers(noted, a);
  }

  ghost predicate Answers(q: Queue, id: BuildId, a: Ask) {
    && id in q.builds && q.builds[id].drv == a.drv
    && Existing(q, a.drv) == Some(id)
    && (a.fromGoal && a.goal.Some? ==> a.goal.value in q.builds[id].holders)
    && (a.request.Some? ==> a.request.value in q.builds[id].requests)
  }

  lemma JoinAnswers(q: Queue, id: BuildId, a: Ask)
    requires a.drv in q.byPath && q.byPath[a.drv] == id && Unfinished(q, id) && q.builds[id].drv == a.drv
    ensures Answers(Join(q, id, a), id, a) && Join(q, id, a).builds.Keys == q.builds.Keys
  {
  }

  lemma AddAnswers(q: Queue, a: Ask)
    ensures Answers(Add(q, a), q.nextId, a) && Add(q, a).builds.Keys == q.builds.Keys + {q.nextId}
  {
  }

  // ---- release ----

  lemma ReleasedHolder(q: Queue, r: RequestId, s: RequestId, id: BuildId)
    requires HoldersAgree(q) && id in q.builds
    ensures Released(q, r).builds[id].holders == q.builds[id].holders - {r}
    ensures HeldBy(Released(q, r), s) == if s == r then {} else HeldBy(q, s)
  {
    assert r in q.builds[id].holders <==> id in HeldBy(q, r);
    assert id in HeldBy(q, r) ==> id in q.byId;
  }

  lemma ReleasedAgrees(q: Queue, r: RequestId)
    requires Inv(q)
    ensures HoldersAgree(Released(q, r))
  {
    var q' := Released(q, r);
    forall s, i | i in q'.builds
      ensures s in q'.builds[i].holders <==> i in HeldBy(q', s)
    {
      ReleasedHolder(q, r, s, i);
      assert s in q.builds[i].holders <==> i in HeldBy(q, s);
    }
  }

  lemma ReleasedIndexed(q: Queue, r: RequestId)
    requires Inv(q)
    ensures Indexed(Released(q, r)) && Deduplicated(Released(q, r)) && RetriesAddUp(Released(q, r))
    ensures ResultsKept(q, Released(q, r))
  {
    var q' := Released(q, r);
    forall i | i in q.builds
      ensures SameIdentity(q.builds[i], q'.builds[i])
    {}
    forall i | Unfinished(q', i)
      ensures Unfinished(q, i)
    { assert SameIdentity(q.builds[i], q'.builds[i]); }
  }

  ghost predicate SameIdentity(b: Build, b': Build) {
    && b'.drv == b.drv && b'.retries == b.retries && b'.failures == b.failures
    && (b.Done() ==> b'.result == b.result)
  }

  lemma ReleasedInv(q: Queue, r: RequestId)
    requires Inv(q)
    ensures Inv(Released(q, r)) && ResultsKept(q, Released(q, r))
  {
    ReleasedAgrees(q, r);
    ReleasedIndexed(q, r);
  }

  /** A release ends exactly the unfinished builds whose only goal holder is
      the request, changes no other result, and leaves the request nowhere. */
  lemma ReleaseEndsExactly(q: Queue, r: RequestId, id: BuildId)
    requires Inv(q) && id in q.builds
    ensures var q' := Released(q, r);
            && (q'.builds[id].result != q.builds[id].result <==> Unfinished(q, id) && q.builds[id].holders == {r})
            && q'.builds[id].holders == q.builds[id].holders - {r}
            && r !in q'.held && r !in q'.givenUp && r !in q'.maxJobs
            && (forall s: RequestId :: s != r ==> HeldBy(q', s) == HeldBy(q, s) && (s in q'.givenUp <==> s in q.givenUp))
            && (forall w :: w in q'.cancelled - q.cancelled ==>
                  exists b :: Unfinished(q, b) && q.builds[b].holders == {r} && q.builds[b].worker == Some(w))
  {
    assert r in q.builds[id].holders <==> id in HeldBy(q, r);
    var q' := Released(q, r);
    forall w | w in q'.cancelled - q.cancelled
      ensures exists b :: Unfinished(q, b) && q.builds[b].holders == {r} && q.builds[b].worker == Some(w)
    {
      var b :| b in EndedBy(q.builds, HeldBy(q, r) * q.byId, r) && b in q.builds && w in ScopeOf(q.builds[b]);
      assert r in q.builds[b].holders;
      assert q.builds[b].holders == {r};
    }
  }

  // ---- prune ----

  lemma PrunedInv(q: Queue)
    requires Inv(q)
    ensures Inv(Pruned(q)) && ResultsKept(q, Pruned(q))
  {
    var q', doomed := Pruned(q), DoomedIds(q);
    assert forall r :: HeldBy(q', r) == HeldBy(q, r);
    forall r | r in q.held
      ensures q.held[r] <= q'.byId
    {
      forall id | id in q.held[r]
        ensures id in q'.byId
      {
        assert id in HeldBy(q, r);
        assert r in q.builds[id].holders;
      }
    }
    forall id | Unfinished(q', id)
      ensures id in q'.byId && q'.builds[id].drv in q'.byPath && q'.byPath[q'.builds[id].drv] == id
    { assert Unfinished(q, id); }
  }

  /** What a prune drops: exactly the finished builds that no request, holder or
      subscriber names. It drops a path's registration exactly when the build
      registered under it goes, so a newer build keeps its own. */
  lemma PruneDropsExactly(q: Queue, id: BuildId)
    requires Inv(q) && id in q.byId
    ensures id !in Pruned(q).byId
       <==> q.builds[id].Done() && q.builds[id].requests == {} && q.builds[id].holders == {}
            && q.builds[id].subscribers == map[]
    ensures Pruned(q).builds == q.builds && Pruned(q).held == q.held
    ensures forall p :: p in q.byPath ==>
              (p in Pruned(q).byPath <==> q.byPath[p] in Pruned(q).byId)
              && (p in Pruned(q).byPath ==> Pruned(q).byPath[p] == q.byPath[p])
  {
    assert forall i :: i in q.byId <==> i in q.order by {
      assert forall i :: i in q.order <==> i in Elements(q.order);
    }
  }

  lemma RequestDroppedInv(q: Queue, r: RequestId)
    requires Inv(q)
    ensures Inv(RequestDropped(q, r)) && ResultsKept(q, RequestDropped(q, r))
  {
    var q' := RequestDropped(q, r);
    assert forall s :: HeldBy(q', s) == HeldBy(q, s);
    forall s, i | i in q'.builds
      ensures s in q'.builds[i].holders <==> i in HeldBy(q', s)
    { assert s in q.builds[i].holders <==> i in HeldBy(q, s); }
    forall i | Unfinished(q', i)
      ensures i in q'.byId && q'.builds[i].drv in q'.byPath && q'.byPath[q'.builds[i].drv] == i
    { assert Unfinished(q, i); }
  }

  // ---- retries ----

  lemma {:induction false} TotalRemove(m: map<StoreId, nat>, k: StoreId)
    requires k in m
    ensures Total(m) == m[k] + Total(m - {k})
    decreases |m|
  {
    var l := Least(m.Keys);
    if l != k {
      var rest := m - {l};
      assert |rest.Keys| < |m.Keys| by { assert rest.Keys == m.Keys - {l}; }
      TotalRemove(rest, k);
      var other := m - {k};
      assert other - {l} == rest - {k};
      if |other.Keys| > 0 {
        assert |other.Keys| < |m.Keys| by { assert other.Keys == m.Keys - {k}; }
        TotalRemove(other, l);
      }
    }
  }

  lemma TotalCharge(m: map<StoreId, nat>, k: StoreId)
    ensures Total(m[k := (if k in m then m[k] else 0) + 1]) == Total(m) + 1
  {
    var charged := m[k := (if k in m then m[k] else 0) + 1];
    TotalRemove(charged, k);
    if k in m {
      TotalRemove(m, k);
      assert charged - {k} == m - {k};
    } else {
      assert charged - {k} == m;
    }
  }

  lemma ResetInv(q: Queue, id: BuildId, store: StoreId)
    requires Inv(q) && id in q.builds
    ensures var q' := SetBuild(q, id, ResetForRetry(q.builds[id], store)); Inv(q') && ResultsKept(q, q')
  {
    TotalCharge(q.builds[id].failures, store);
    OneBuildChanged(q, id, ResetForRetry(q.builds[id], store));
  }

  // ---- the object ----

  lemma ReleaseOneMore(builds: map<BuildId, Build>, ids: set<BuildId>, id: BuildId, r: RequestId)
    requires id in builds && id !in ids
    ensures ReleasedBuilds(builds, ids + {id}, r) == ReleasedBuilds(builds, ids, r)[id := ReleasedBuild(builds[id], r)]
    ensures ReleasedBuilds(builds, ids, r)[id] == builds[id]
    ensures EndedBy(builds, ids + {id}, r) == EndedBy(builds, ids, r) + (if EndsWith(builds[id], r) then {id} else {})
  {
  }

  /** The loop of a release over the builds the request held. */
  method ReleaseBuilds(builds0: map<BuildId, Build>, byId: set<BuildId>, mine: set<BuildId>, r: RequestId)
      returns (builds: map<BuildId, Build>, ended: set<BuildId>)
    requires byId <= builds0.Keys
    ensures builds == ReleasedBuilds(builds0, mine * byId, r)
    ensures ended == EndedBy(builds0, mine * byId, r)
  {
    builds, ended := builds0, {};
    var todo := mine;
    ghost var released: set<BuildId> := {};
    while todo != {}
      invariant released !! todo && released <= byId
      invariant forall id :: id in byId ==> (id in mine <==> id in released || id in todo)
      invariant builds == ReleasedBuilds(builds0, released, r)
      invariant ended == EndedBy(builds0, released, r)
      decreases |todo|
    {
      var id :| id in todo;
      todo := todo - {id};
      if id in byId {
        ReleaseOneMore(builds0, released, id, r);
        if EndsWith(builds[id], r) {
          ended := ended + {id};
        }
        builds := builds[id := ReleasedBuild(builds[id], r)];
        released := released + {id};
      }
    }
    assert released == mine * byId;
  }

  lemma DropOneMore(byPath: map<DrvPath, BuildId>, builds: map<BuildId, Build>, ids: set<BuildId>, id: BuildId)
    requires id in builds && id !in ids
    ensures var kept, drv := KeptPaths(byPath, builds, ids), builds[id].drv;
            KeptPaths(byPath, builds, ids + {id}) == if drv in kept && kept[drv] == id then kept - {drv} else kept
  {
    var kept, drv := KeptPaths(byPath, builds, ids), builds[id].drv;
    var less := KeptPaths(byPath, builds, ids + {id});
    forall p | p in byPath
      ensures p in less <==> p in kept && !(p == drv && kept[drv] == id)
    {}
  }

  /** The loop of a prune over the registered builds. */
  method DropIndices(byId0: set<BuildId>, byPath0: map<DrvPath, BuildId>, builds: map<BuildId, Build>, doomed: set<BuildId>)
      returns (byId: set<BuildId>, byPath: map<DrvPath, BuildId>)
    requires byId0 <= builds.Keys
    ensures byId == byId0 - doomed
    ensures byPath == KeptPaths(byPath0, builds, byId0 * doomed)
  {
    byId, byPath := byId0, byPath0;
    var todo := byId0;
    ghost var dropped: set<BuildId> := {};
    while todo != {}
      invariant dropped !! todo && todo <= byId0 && dropped <= doomed && dropped <= byId0
      invariant forall id :: id in byId0 && id in doomed ==> id in dropped || id in todo
      invariant forall id :: id in byId <==> id in byId0 && id !in dropped
      invariant byPath == KeptPaths(byPath0, builds, dropped)
      decreases |todo|
    {
      var id :| id in todo;
      todo := todo - {id};
      if id in doomed {
        DropOneMore(byPath0, builds, dropped, id);
        byId := byId - {id};
        var drv := builds[id].drv;
        if drv in byPath && byPath[drv] == id {
          byPath := byPath - {drv};
        }
        dropped := dropped + {id};
      }
    }
    assert dropped == byId0 * doomed;
    assert byId == byId0 - doomed;
  }

  class SharedQueue {
    var order: seq<BuildId>
    var byPath: map<DrvPath, BuildId>
    var byId: set<BuildId>
    var builds: map<BuildId, Build>
    var nextId: BuildId
    var givenUp: set<RequestId>
    var maxJobs: map<RequestId, Option<int>>
    var held: map<RequestId, set<BuildId>>
    var cancelled: set<ScopeId>

    ghost function State(): Queue
      reads this
    {
      Queue(order, byPath, byId, builds, nextId, givenUp, maxJobs, held, cancelled)
    }

    ghost predicate Valid()
      reads this
    {
      Inv(State())
    }

    constructor ()
      ensures State() == EMPTY && Valid()
    {
      order, byPath, byId, builds, nextId := [], map[], {}, map[], 1;
      givenUp, maxJobs, held, cancelled := {}, map[], map[], {};
      new;
      EmptyInv();
    }

    method HoldLocked(id: BuildId, r: RequestId)
      requires id in builds
      modifies this
      ensures State() == Hold(old(State()), id, r)
    {
      builds := builds[id := builds[id].(holders := builds[id].holders + {r})];
      held := held[r := (if r in held then held[r] else {}) + {id}];
    }

    method JoinExisting(id: BuildId, a: Ask)
      requires id in builds
      modifies this
      ensures State() == Join(old(State()), id, a)
    {
      var b := builds[id];
      builds := builds[id := b.(fromGoal := b.fromGoal || a.fromGoal, requests := b.requests + Asked(a))];
      if a.fromGoal && a.goal.Some? {
        HoldLocked(id, a.goal.value);
      }
    }

    method AddNew(a: Ask)
      modifies this
      ensures State() == Add(old(State()), a)
    {
      var id := nextId;
      builds := builds[id := NewBuild(a)];
      nextId := nextId + 1;
      order := order + [id];
      byPath := byPath[a.drv := id];
      byId := byId + {id};
      if a.fromGoal && a.goal.Some? {
        HoldLocked(id, a.goal.value);
      }
    }

    /** Add a build, or join the unfinished one of the same derivation. */
    method Enqueue(a: Ask) returns (id: Option<BuildId>)
      requires Valid()
      modifies this
      ensures Valid()
      ensures id == None <==> a.fromGoal && a.goal.None?
      ensures Refuses(a) ==> id == None && State() == old(State())
      ensures !Refuses(a) ==> State() == Enqueued(old(State()), a).0 && id == Some(Enqueued(old(State()), a).1)
    {
      if a.fromGoal && a.goal.None? {
        return None;
      }
      EnqueuedInv(State(), a);
      if a.goal.Some? {
        maxJobs := maxJobs[a.goal.value := JobsOf(a.options)];
      }
      assert State() == NoteJobs(old(State()), a);
      if a.drv in byPath && byPath[a.drv] in builds && !builds[byPath[a.drv]].Done() {
        var found := byPath[a.drv];
        JoinExisting(found, a);
        return Some(found);
      }
      var added := nextId;
      AddNew(a);
      return Some(added);
    }

    /** `complete`, and `fail` with a failing response. The error is a build
        the queue does not hold. */
    method Complete(id: BuildId, response: Response) returns (found: bool)
      requires Valid()
      modifies this
      ensures Valid()
      ensures found == Completed(old(State()), id, response).Some?
      ensures State() == if found then Completed(old(State()), id, response).value else old(State())
    {
      CompletedInv(State(), id, response);
      for k := 0 to |order|
        invariant State() == old(State())
        invariant id !in order[..k]
      {
        if order[k] == id {
          var b := builds[id];
          if b.Done() {
            return true;
          }
          builds := builds[id := b.(result := Some(response))];
          if !response.success && b.options.Some? && !b.options.value.keepGoing {
            givenUp := givenUp + b.holders;
          }
          return true;
        }
      }
      return false;
    }

    method CancelUnwanted(id: BuildId)
      requires Valid()
      modifies this
      ensures Valid() && State() == CancelledUnwanted(old(State()), id)
    {
      CancelledUnwantedInv(State(), id);
      if id in byId && !builds[id].Done() {
        cancelled := cancelled + ScopeOf(builds[id]);
        builds := builds[id := builds[id].(result := Some(CancelledResponse("")))];
      }
    }

    method Prune()
      requires Valid()
      modifies this
      ensures Valid() && State() == Pruned(old(State()))
    {
      PrunedInv(State());
      var doomed := set id | id in order && id in builds && Doomed(builds[id]);
      order := Without(order, doomed);
      byId, byPath := DropIndices(byId, byPath, builds, doomed);
    }

    method ReleaseLocked(r: RequestId)
      requires byId <= builds.Keys
      modifies this
      ensures State() == Released(old(State()), r)
    {
      var mine := if r in held then held[r] else {};
      held := held - {r};
      var after, ended := ReleaseBuilds(builds, byId, mine, r);
      cancelled := cancelled + ScopesOf(builds, ended);
      builds := after;
      givenUp := givenUp - {r};
      maxJobs := maxJobs - {r};
    }

    /** A goal request lets go of every build it holds, and is forgotten. */
    method ReleaseRequest(r: RequestId)
      requires Valid()
      modifies this
      ensures Valid() && State() == Pruned(Released(old(State()), r))
    {
      ReleasedInv(State(), r);
      ReleaseLocked(r);
      Prune();
    }
  }
}
