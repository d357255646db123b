/** What a turn decides, in terms of stores, failures, room and slots: one
    equivalence for each decision. */
module SchedulerDecisions {
  import opened Wrappers
  import opened BuildQueue
  import opened Scheduler

  /** Nobody has started the build, and somebody may still want it. */
  predicate Open(q: Queue, b: Build) {
    b.worker.None? && (b.holders == {} || exists r :: r in b.holders && r !in q.givenUp)
  }

  /** Three failures on the store. */
  predicate WornOut(b: Build, store: StoreId) {
    store in b.failures && b.failures[store] >= 3
  }

  predicate LocalTakesIt(env: Env, b: Build) {
    env.local.healthy && !env.local.draining && b.drv in env.local.supports && !WornOut(b, LOCAL)
  }

  /** Where the build may start now: the ranked stores, or else the local one. */
  function Places(env: Env, b: Build): seq<Store> {
    if env.ranked != [] then env.ranked else if LocalTakesIt(env, b) then [env.local] else []
  }

  /** No other store supports the build, nor may one appear that does. */
  ghost predicate NoStoreForIt(env: Env, b: Build) {
    && b.drv !in env.dynamic
    && forall s :: s in env.stores && s.id != LOCAL && !s.noSchedule ==> b.drv !in s.supports
  }

  /** Every store that supports it has failed it three times. */
  ghost predicate EveryStoreFailedIt(env: Env, b: Build) {
    && (exists s :: s in env.stores && !s.noSchedule && b.drv in s.supports)
    && forall s :: s in env.stores && !s.noSchedule && b.drv in s.supports ==> WornOut(b, s.id)
  }

  /** Fewer builds run there, with those of this pass, than it may run. */
  predicate Roomy(p: Pass, s: Store) {
    (if s.id in p.running then p.running[s.id] else 0) + (if s.id in p.placed then p.placed[s.id] else 0) < s.limit
  }

  predicate FirstRoom(p: Pass, places: seq<Store>, k: nat) {
    k < |places| && Roomy(p, places[k]) && forall j :: 0 <= j < k ==> !Roomy(p, places[j])
  }

  /** The request may run one more build locally. */
  predicate MayRunOneMore(q: Queue, r: RequestId) {
    var running := set id | id in q.byId && id in q.builds && q.builds[id].worker.Some?
                            && q.builds[id].store == Some(LOCAL) && r in q.builds[id].holders;
    r in q.maxJobs && q.maxJobs[r].Some? ==> |running| < q.maxJobs[r].value || |running| < 1
  }

  /** Some goal that still wants the build has a local slot; a build that no goal
      holds needs one of its own client. */
  ghost predicate LocalSlotFree(q: Queue, p: Pass, b: Build) {
    if exists r :: r in b.holders && r !in q.givenUp then
      exists r :: r in b.holders && r !in q.givenUp && MayRunOneMore(q, r)
    else
      var running := (if LOCAL in p.running then p.running[LOCAL] else 0) + (if LOCAL in p.placed then p.placed[LOCAL] else 0);
      b.options.Some? ==> running < b.options.value.maxJobs || running < 1
  }

  lemma SkipIff(q: Queue, p: Pass, env: Env, b: Build)
    ensures Decide(q, p, env, b) == Skip <==> b.worker.Some?
  {
  }

  lemma OpenIff(q: Queue, b: Build)
    ensures Open(q, b) <==> b.worker.None? && !NobodyWants(q, b)
  {
  }

  lemma UnwantedIff(q: Queue, p: Pass, env: Env, b: Build)
    ensures Decide(q, p, env, b) == Unwanted <==>
              b.worker.None? && b.holders != {} && forall r :: r in b.holders ==> r in q.givenUp
  {
  }

  lemma PlacesAre(env: Env, b: Build)
    ensures Places(env, b) == [] <==> |env.ranked| == 0 && !LocalIsFallback(env, b)
    ensures Places(env, b) != [] ==> Places(env, b) == if |env.ranked| > 0 then env.ranked else [env.local]
  {
  }

  lemma {:induction false} FirstRoomyIs(p: Pass, places: seq<Store>)
    ensures FirstRoomy(p, places).None? <==> forall k :: 0 <= k < |places| ==> !Roomy(p, places[k])
    ensures forall k: nat :: FirstRoom(p, places, k) ==> FirstRoomy(p, places) == Some(places[k])
    ensures FirstRoomy(p, places).Some? ==> exists k: nat :: FirstRoom(p, places, k) && FirstRoomy(p, places) == Some(places[k])
    decreases |places|
  {
    if |places| > 0 {
      assert Roomy(p, places[0]) <==> HasBuildRoom(p, places[0]);
      if Roomy(p, places[0]) {
        assert FirstRoom(p, places, 0);
      } else {
        FirstRoomyIs(p, places[1..]);
        forall k: nat | FirstRoom(p, places, k)
          ensures FirstRoomy(p, places) == Some(places[k])
        { assert FirstRoom(p, places[1..], k - 1); }
        if FirstRoomy(p, places[1..]).Some? {
          var k: nat :| FirstRoom(p, places[1..], k) && FirstRoomy(p, places[1..]) == Some(places[1..][k]);
          assert FirstRoom(p, places, k + 1);
        }
        forall k | 0 <= k < |places| && FirstRoomy(p, places).None?
          ensures !Roomy(p, places[k])
        { if k > 0 { assert places[1..][k - 1] == places[k]; } }
      }
    }
  }

  lemma SlotIff(q: Queue, r: RequestId)
    ensures HasLocalSlot(q, r) <==> MayRunOneMore(q, r)
  {
    var running := set id | id in q.byId && id in q.builds && q.builds[id].worker.Some?
                            && q.builds[id].store == Some(LOCAL) && r in q.builds[id].holders;
    assert running == LocalRunning(q, r);
  }

  lemma LocalSlotIff(q: Queue, p: Pass, b: Build)
    ensures !LocalSlotIsFull(q, p, b) <==> LocalSlotFree(q, p, b)
  {
    forall r
      ensures HasLocalSlot(q, r) <==> MayRunOneMore(q, r)
      ensures r in LiveWanters(q, b) <==> r in b.holders && r !in q.givenUp
    { SlotIff(q, r); }
  }

  /** A build fails exactly when it can start nowhere and no store is left that
      could ever take it. */
  lemma HopelessIff(q: Queue, p: Pass, env: Env, b: Build)
    ensures Decide(q, p, env, b) == Hopeless <==>
              Open(q, b) && Places(env, b) == [] && (NoStoreForIt(env, b) || EveryStoreFailedIt(env, b))
  {
    OpenIff(q, b);
    PlacesAre(env, b);
    StoresLeft(env, b);
  }

  lemma StoresLeft(env: Env, b: Build)
    ensures HasCompatibleStore(env, b) <==> !NoStoreForIt(env, b)
    ensures AllBlacklisted(env, b) <==> EveryStoreFailedIt(env, b)
  {
    forall s: StoreId
      ensures b.Blacklisted(s) <==> WornOut(b, s)
    {}
  }

  lemma HeldIff(q: Queue, p: Pass, env: Env, b: Build)
    ensures Decide(q, p, env, b) == HeldByPressure <==>
              Open(q, b) && Places(env, b) != [] && forall s :: s in Places(env, b) ==> !Roomy(p, s)
  {
    OpenIff(q, b);
    PlacesAre(env, b);
    FirstRoomyIs(p, Places(env, b));
  }

  /** A build starts exactly on the first place with room, and on the local store
      only in a free slot. */
  lemma StartIff(q: Queue, p: Pass, env: Env, b: Build, store: StoreId)
    ensures Decide(q, p, env, b) == Start(store) <==>
              && Open(q, b)
              && (exists k: nat :: FirstRoom(p, Places(env, b), k) && Places(env, b)[k].id == store)
              && (store == LOCAL ==> LocalSlotFree(q, p, b))
  {
    OpenIff(q, b);
    PlacesAre(env, b);
    FirstRoomyIs(p, Places(env, b));
    LocalSlotIff(q, p, b);
  }

  /** A build waits exactly when some store could take it later, or when the first
      place with room is the local store and its slots are in use. */
  lemma WaitIff(q: Queue, p: Pass, env: Env, b: Build)
    ensures Decide(q, p, env, b) == Wait <==>
              && Open(q, b)
              && (|| (Places(env, b) == [] && !NoStoreForIt(env, b) && !EveryStoreFailedIt(env, b))
                  || ((exists k: nat :: FirstRoom(p, Places(env, b), k) && Places(env, b)[k].id == LOCAL)
                      && !LocalSlotFree(q, p, b)))
  {
    OpenIff(q, b);
    PlacesAre(env, b);
    StoresLeft(env, b);
    FirstRoomyIs(p, Places(env, b));
    LocalSlotIff(q, p, b);
  }
}
