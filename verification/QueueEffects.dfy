/** What each queue operation changes, build by build and field by field, and that
    it changes nothing else. */
module QueueEffects {
  import opened Wrappers
  import opened Ordering
  import opened BuildQueue

  ghost predicate OthersKept(q: Queue, q': Queue, id: BuildId) {
    forall i :: i in q.builds && i != id ==> i in q'.builds && q'.builds[i] == q.builds[i]
  }

  ghost predicate ScopesKept(q: Queue, q': Queue) {
    q'.cancelled == q.cancelled && q'.nextId == q.nextId && q'.order == q.order
  }

  // ---- asking ----

  /** The goal's `max-jobs` is noted, and nobody gives up. */
  ghost predicate JobsNoted(q: Queue, q': Queue, a: Ask) {
    && q'.givenUp == q.givenUp
    && (forall r :: r in q'.maxJobs <==> r in q.maxJobs || a.goal == Some(r))
    && (forall r :: r in q'.maxJobs ==>
          q'.maxJobs[r] == if a.goal == Some(r) then (if a.options.None? then None else Some(a.options.value.maxJobs)) else q.maxJobs[r])
  }

  lemma NotedJobs(q: Queue, a: Ask)
    ensures var q' := NoteJobs(q, a); JobsNoted(q, q', a) && q' == q.(maxJobs := q'.maxJobs)
  {
  }

  /** Taking a hold touches the holders of the build and the list of the goal. */
  lemma HoldChanges(q: Queue, id: BuildId, a: Ask)
    requires id in q.builds
    ensures var q' := HoldIfGoal(q, id, a);
            && q' == q.(builds := q'.builds, held := q'.held)
            && OthersKept(q, q', id) && id in q'.builds
            && q'.builds[id] == q.builds[id].(holders := q'.builds[id].holders)
            && forall r :: r in q'.builds[id].holders <==> r in q.builds[id].holders || (a.fromGoal && a.goal == Some(r))
  {
  }

  lemma JoinChanges(q: Queue, id: BuildId, a: Ask)
    requires id in q.builds
    ensures var q' := Join(NoteJobs(q, a), id, a);
            OthersKept(q, q', id) && ScopesKept(q, q') && id in q'.builds && JoinedBuild(q.builds[id], q'.builds[id], a) && JobsNoted(q, q', a)
  {
    NotedJobs(q, a);
    var noted := NoteJobs(q, a);
    var b := q.builds[id];
    var joined := SetBuild(noted, id, b.(fromGoal := b.fromGoal || a.fromGoal, requests := b.requests + Asked(a)));
    HoldChanges(joined, id, a);
  }

  lemma AddChanges(q: Queue, a: Ask)
    requires q.nextId !in q.builds
    ensures var q', id := Add(NoteJobs(q, a), a), q.nextId;
            && OthersKept(q, q', id) && id in q'.builds && q'.nextId == id + 1
            && q'.order == q.order + [id] && q'.cancelled == q.cancelled && FreshBuild(q'.builds[id], a) && JobsNoted(q, q', a)
  {
    NotedJobs(q, a);
    var added := Appended(NoteJobs(q, a), a);
    HoldChanges(added, q.nextId, a);
    assert added.builds[q.nextId] == NewBuild(a);
  }

  /** An ask joins the unfinished build of its derivation and changes who wants
      it, nothing else about it; otherwise it makes a fresh one at the end of the
      queue. */
  lemma EnqueueChanges(q: Queue, a: Ask)
    requires Inv(q) && !Refuses(a)
    ensures var (q', id) := Enqueued(q, a);
            && OthersKept(q, q', id) && id in q'.builds && JobsNoted(q, q', a)
            && (if exists i :: i in q.builds && q.builds[i].drv == a.drv && q.builds[i].result.None? then
                  id in q.builds && q.builds[id].drv == a.drv && q.builds[id].result.None? && ScopesKept(q, q')
                  && JoinedBuild(q.builds[id], q'.builds[id], a)
                else
                  id !in q.builds && id == q.nextId && q'.nextId == id + 1
                  && q'.order == q.order + [id] && q'.cancelled == q.cancelled && FreshBuild(q'.builds[id], a))
  {
    UnfinishedIsRegistered(q, a.drv);
    match Existing(q, a.drv)
    case Some(id) => JoinChanges(q, id, a);
    case None => AddChanges(q, a);
  }

  lemma UnfinishedIsRegistered(q: Queue, drv: DrvPath)
    requires Inv(q)
    ensures Existing(q, drv).Some? <==> exists i :: i in q.builds && q.builds[i].drv == drv && q.builds[i].result.None?
    ensures Existing(q, drv).Some? ==> var i := Existing(q, drv).value; i in q.builds && q.builds[i].drv == drv && q.builds[i].result.None?
    ensures q.nextId !in q.builds
  {
    forall i | i in q.builds && q.builds[i].drv == drv && q.builds[i].result.None?
      ensures Existing(q, drv) == Some(i)
    { assert Unfinished(q, i); }
  }

  ghost predicate JoinedBuild(b: Build, b': Build, a: Ask) {
    && b'.drv == b.drv && b'.options == b.options && b'.result == b.result && b'.subscribers == b.subscribers
    && b'.cancelWhenUnsubscribed == b.cancelWhenUnsubscribed && b'.worker == b.worker && b'.store == b.store
    && b'.retries == b.retries && b'.failures == b.failures
    && b'.fromGoal == (b.fromGoal || a.fromGoal)
    && (forall r :: r in b'.requests <==> r in b.requests || a.request == Some(r))
    && (forall r :: r in b'.holders <==> r in b.holders || (a.fromGoal && a.goal == Some(r)))
  }

  ghost predicate FreshBuild(b: Build, a: Ask) {
    && b.drv == a.drv && b.options == a.options && b.result.None? && b.subscribers == map[] && !b.cancelWhenUnsubscribed
    && b.worker.None? && b.store.None? && b.retries == 0 && b.failures == map[] && b.fromGoal == a.fromGoal
    && (forall r :: r in b.requests <==> a.request == Some(r))
    && (forall r :: r in b.holders <==> a.fromGoal && a.goal == Some(r))
  }

  // ---- ending ----

  /** Completing or failing sets the result that was given, once. A failure makes
      exactly the goals that hold the build give up, unless the client that made
      it keeps going or there was none. */
  lemma CompleteChanges(q: Queue, id: BuildId, response: Response)
    requires Inv(q) && id in q.byId
    ensures Completed(q, id, response).Some?
    ensures var q' := Completed(q, id, response).value;
            && OthersKept(q, q', id) && ScopesKept(q, q') && q'.held == q.held && q'.maxJobs == q.maxJobs && id in q'.builds
            && (q.builds[id].result.Some? ==> q' == q)
            && (q.builds[id].result.None? ==>
                  && q'.builds[id] == q.builds[id].(result := Some(response))
                  && forall r :: r in q'.givenUp <==>
                       r in q.givenUp || (r in q.builds[id].holders && !response.success
                                          && q.builds[id].options.Some? && !q.builds[id].options.value.keepGoing))
  {
    assert id in Elements(q.order);
  }

  /** A build the pass gave up on ends with a failure, and its worker is
      cancelled; nobody gives up for it. */
  lemma CancelChanges(q: Queue, id: BuildId)
    requires Inv(q)
    ensures var q' := CancelledUnwanted(q, id);
            && OthersKept(q, q', id) && q'.givenUp == q.givenUp && q'.order == q.order
            && (id in q.byId && q.builds[id].result.None? ==>
                  && id in q'.builds && q'.builds[id].result.Some? && !q'.builds[id].result.value.success
                  && q'.builds[id].(result := None) == q.builds[id]
                  && forall w :: w in q'.cancelled <==> w in q.cancelled || q.builds[id].worker == Some(w))
            && (id !in q.byId || q.builds[id].result.Some? ==> q' == q)
  {
  }

  /** A release cancels exactly the workers of the builds it ends; those end with
      a failure. */
  lemma ReleaseChanges(q: Queue, r: RequestId, id: BuildId)
    requires Inv(q) && id in q.builds
    ensures var q' := Released(q, r);
            && id in q'.builds && q'.order == q.order && q'.nextId == q.nextId
            && q'.builds[id].(result := None, holders := {}, requests := {}) == q.builds[id].(result := None, holders := {}, requests := {})
            && (q.builds[id].result.None? && q.builds[id].holders == {r} ==>
                  && q'.builds[id].result.Some? && !q'.builds[id].result.value.success
                  && (q.builds[id].worker.Some? ==> q.builds[id].worker.value in q'.cancelled))
            && (forall s :: s in q'.builds[id].requests <==>
                  s in q.builds[id].requests && (s != r || r !in q.builds[id].holders || id !in q.byId))
            && (forall s :: s in q'.maxJobs <==> s in q.maxJobs && s != r)
            && (forall s :: s in q'.maxJobs ==> q'.maxJobs[s] == q.maxJobs[s])
            && q.cancelled <= q'.cancelled
  {
    assert r in q.builds[id].holders <==> id in HeldBy(q, r);
    if q.builds[id].result.None? && q.builds[id].holders == {r} && q.builds[id].worker.Some? {
      assert id in EndedBy(q.builds, HeldBy(q, r) * q.byId, r);
      assert q.builds[id].worker.value in ScopeOf(q.builds[id]);
    }
  }

  /** A prune keeps the order of what it leaves. */
  lemma {:induction false} PruneKeepsOrder(order: seq<BuildId>, doomed: set<BuildId>, i: nat, j: nat)
    requires NoDuplicates(order) && i < j < |Without(order, doomed)|
    ensures exists k, l :: 0 <= k < l < |order| && order[k] == Without(order, doomed)[i] && order[l] == Without(order, doomed)[j]
    decreases |order|
  {
    var front, last := order[..|order| - 1], order[|order| - 1];
    var r := Without(front, doomed);
    assert order == front + [last];
    if j < |r| {
      PruneKeepsOrder(front, doomed, i, j);
      var k, l :| 0 <= k < l < |front| && front[k] == r[i] && front[l] == r[j];
      assert order[k] == r[i] && order[l] == r[j];
    } else {
      assert r[i] in Elements(r) && r[i] in Elements(front);
      var k :| 0 <= k < |front| && front[k] == r[i];
      assert order[k] == r[i] && order[|order| - 1] == last;
    }
  }

  // ---- clients ----

  function Subscriptions(b: Build, c: Client): nat {
    if c in b.subscribers then b.subscribers[c] else 0
  }

  /** The same build, but for its subscriptions, the bond to its clients and its
      result. */
  ghost predicate SameButClients(b: Build, b': Build) {
    b'.(subscribers := map[], cancelWhenUnsubscribed := false, result := None)
    == b.(subscribers := map[], cancelWhenUnsubscribed := false, result := None)
  }

  /** A subscription counts one more; a first one whose replay fails counts
      nothing. */
  lemma SubscribeChanges(q: Queue, id: BuildId, client: Client, cancelOnLeave: bool, replayed: bool)
    requires Inv(q) && id in q.byId
    ensures var q' := Subscribed(q, id, client, cancelOnLeave, replayed);
            && OthersKept(q, q', id) && ScopesKept(q, q') && id in q'.builds
            && var b, b' := q.builds[id], q'.builds[id];
               && SameButClients(b, b') && b'.result == b.result
               && b'.cancelWhenUnsubscribed == (b.cancelWhenUnsubscribed || cancelOnLeave)
               && (forall c :: c in b'.subscribers <==> c in b.subscribers || (c == client && replayed))
               && (forall c :: Subscriptions(b', c) ==
                     Subscriptions(b, c) + if c == client && (replayed || client in b.subscribers) then 1 else 0)
  {
  }

  /** The client is the last one of an unfinished build that is bound to its
      clients. */
  predicate LastClient(b: Build, client: Client) {
    b.cancelWhenUnsubscribed && b.result.None? && b.subscribers.Keys == {client} && Subscriptions(b, client) <= 1
  }

  /** A client that leaves counts one less and goes with its last; the last client
      of a build that is bound to its clients takes the build with it: it fails
      and its worker is cancelled. */
  lemma UnsubscribeChanges(q: Queue, id: BuildId, client: Client)
    requires Inv(q) && id in q.byId && client in q.builds[id].subscribers
    ensures var q' := Unsubscribed(q, id, client);
            && OthersKept(q, q', id) && q'.order == q.order && q'.givenUp == q.givenUp && id in q'.builds
            && var b, b' := q.builds[id], q'.builds[id];
               && SameButClients(b, b') && b'.cancelWhenUnsubscribed == b.cancelWhenUnsubscribed && OneFewer(b, b', client)
               && (LastClient(b, client) ==>
                     b'.result.Some? && !b'.result.value.success
                     && forall w :: w in q'.cancelled <==> w in q.cancelled || b.worker == Some(w))
               && (!LastClient(b, client) ==> b'.result == b.result && q'.cancelled == q.cancelled)
  {
    var left := WithoutSubscriber(q.builds[id], client);
    OneFewerLeft(q.builds[id], client);
    AbandonedIff(q.builds[id], client);
    if Abandoned(left) { CancelledBuild(SetBuild(q, id, left), id); }
  }

  lemma AbandonedIff(b: Build, client: Client)
    requires client in b.subscribers
    ensures Abandoned(WithoutSubscriber(b, client)) <==> LastClient(b, client)
  {
    var left := WithoutSubscriber(b, client);
    assert left.subscribers == map[] <==> left.subscribers.Keys == {};
    if b.subscribers[client] > 1 { assert client in left.subscribers; }
  }

  lemma CancelledBuild(q: Queue, id: BuildId)
    requires id in q.builds && q.builds[id].result.None?
    ensures var q' := Cancel(q, id, "disconnected");
            && q' == q.(builds := q'.builds, cancelled := q'.cancelled) && OthersKept(q, q', id) && id in q'.builds
            && q'.builds[id] == q.builds[id].(result := q'.builds[id].result)
            && q'.builds[id].result.Some? && !q'.builds[id].result.value.success
            && forall w :: w in q'.cancelled <==> w in q.cancelled || q.builds[id].worker == Some(w)
  {
  }

  ghost predicate OneFewer(b: Build, b': Build, client: Client) {
    && (forall c :: c in b'.subscribers <==> c in b.subscribers && (c != client || b.subscribers[c] > 1))
    && (forall c :: Subscriptions(b', c) ==
          if c != client then Subscriptions(b, c) else if Subscriptions(b, c) > 1 then Subscriptions(b, c) - 1 else 0)
  }

  lemma OneFewerLeft(b: Build, client: Client)
    requires client in b.subscribers
    ensures OneFewer(b, WithoutSubscriber(b, client), client) && SameButClients(b, WithoutSubscriber(b, client))
    ensures WithoutSubscriber(b, client).cancelWhenUnsubscribed == b.cancelWhenUnsubscribed
    ensures WithoutSubscriber(b, client).result == b.result && WithoutSubscriber(b, client).worker == b.worker
  {
  }

  /** A client whose send failed goes the same way, and nothing ends. */
  lemma LossChanges(q: Queue, id: BuildId, client: Client)
    requires id in q.builds && client in q.builds[id].subscribers
    ensures var q' := SubscriberLost(q, id, client);
            && OthersKept(q, q', id) && ScopesKept(q, q') && id in q'.builds
            && var b, b' := q.builds[id], q'.builds[id];
               && SameButClients(b, b') && b'.cancelWhenUnsubscribed == b.cancelWhenUnsubscribed && b'.result == b.result
               && OneFewer(b, b', client)
  {
    OneFewerLeft(q.builds[id], client);
  }

  // ---- workers ----

  /** A retry charges one failure to the store and to no other, and frees the
      build. */
  lemma ResetChanges(b: Build, store: StoreId, t: StoreId)
    ensures var b' := ResetForRetry(b, store);
            && b'.FailuresOn(t) == b.FailuresOn(t) + (if t == store then 1 else 0)
            && b'.worker.None? && b'.retries == b.retries + 1
            && b'.(worker := None, retries := 0, failures := map[]) == b.(worker := None, retries := 0, failures := map[])
            && (b'.Blacklisted(t) <==> b.FailuresOn(t) >= 3 || (t == store && b.FailuresOn(t) == 2))
  {
  }
}
