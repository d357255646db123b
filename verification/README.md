# A verified model of pynixd

pynixd puts a scheduler, a build queue and a garbage collector between Nix
clients and a set of Nix daemons. This project models the parts of it where
many small steps have to add up: the garbage collector, the shared build queue
with its scheduling passes, the caches, and the codecs.

| part | modules |
|---|---|
| Garbage collection | `ReferrerFirst` (deletion order), `GcDelete` (deletion against a daemon that may answer anything), `StoreDb` (closures over the store database), `GcPlan` (planners, veto, closing a batch), `GcRun` (weights, target, the whole selection), `GcPass` (a whole pass, from the plan to the delete requests), `Liveness` (cached live set) |
| Build queue and scheduler | `BuildQueue` (queue operations), `QueueEffects` (what each of them changes), `Scheduler` (passes, workers and drains as one transition system), `SchedulerDecisions` (when a turn decides what), `SchedulerRuns` (what every reachable state keeps), `SchedulerAttempts` (starts per store), `SchedulerPasses` (when a pass reaches its end, and which events end a build), `SchedulerSlots` (`max-jobs`), `SchedulerLoad` (build limits, what a pass counts, drains), `SchedulerEnds` (builds nobody wants, and the runs in which a promise fails), `SchedulerVerdicts` (what happens between a decision of a pass and the queue lock) |
| Archives and wire | `Bytes`, `Nar` and `NarRead` (writer and parser), `NarScan`, `NarEnd`, `NarForwarder` and `NarStream` (finding the end of an archive), `Wire` (exact reads), `Framing` (framed streams) |
| Derivations | `DrvText` (quoted strings), `Drv` (text and parser), `DrvRoundTrip`, `DrvCounts` and `DrvPlain` (exactly which derivations come back), `DrvParser` (the parser object), `DrvPrint` (the printer loops), `DrvReplaced` (the text that is hashed), `DrvHash` (memoised hashing) |
| Arithmetic | `Pressure` (the build limit), `Nix32` (base-32 numerals) |
| Shared | `Wrappers`, `Sequences`, `Ordering`, `Closure` |

Code that updates state step by step is a method or a class here, proved against
a function on values; the properties are lemmas about those functions. The
daemon's answers, the transport's chunking, the ranker's choice, the walks of
the file system, the clock and SHA-256 are parameters or free choices. An
exception is `None` or `false`. Python's unbounded integers are Dafny's; the
64-bit length fields of the wire are written out. Averages, factors and times
are real numbers.

## Where the code does less than it seems to

Each of these has a lemma with the failing case and, beside it, the exact
condition under which the code keeps the promise.

- The veto of a collection falls back to its seeds when a seed is not a valid
  path or the daemon does not answer. A vetoed path can then come back through
  an added referrer (`GcPlan.FallbackVetoCanFail`). No slice brings one back
  exactly when the veto is closed under references inside the plan
  (`GcPlan.VetoHoldsIff`).
- The liveness fingerprint says that ids are never used again
  (`pynixd/liveness.py:418`), while `pynixd/db_migrations.py:98-101` says that
  SQLite may do so. The schema of Nix that the tests copy has `autoincrement`
  (`tests/unit/test_store_state_reader.py:47`), with which it may not. With a
  reused id the fingerprint misses a change
  (`Liveness.ReusedIdFoolsFingerprint`); with growing ids it misses none
  (`Liveness.FingerprintSound`).
- A liveness pass writes the roots first. If it fails after that, the next pass
  finds nothing dirty and can answer without a new root
  (`Liveness.FailedPassHidesARoot`); a second tracker on the same roots table
  does the same (`Liveness.SecondTrackerHidesARoot`). If it fails at the
  snapshot, a volatile set that comes back can be answered with the closure of
  another one (`Liveness.FailedSnapshotHidesAVolatilePath`). A row that lands
  between the fingerprint and the query can leave a path in the cached live set
  after it is gone (`Liveness.DisturbedRefreshKeepsAGonePath`). After any run with
  all of these, a pass covers the live set exactly when it recomputes or its
  cached set holds every valid root and volatile path of now
  (`Liveness.RefreshCoversIff`). It answers exactly the live set exactly when it
  recomputes or besides every valid path the cached set was computed from is live
  and the set names no path that is gone (`Liveness.RefreshExactIff`); when only
  completed passes came since the last recomputation, the gone paths alone
  decide.
- A pass decides to cancel a build nobody wants, and then waits for the queue
  lock. `cancel_unwanted` does not ask again, so a goal that joins the build in
  between loses it (`SchedulerVerdicts.WantedBuildIsCancelled`). The live requests
  a cancel takes a build from are exactly the goals that joined since the decision
  and have neither given up nor let go (`SchedulerVerdicts.CancelTakesFromIff`);
  when none joins, there are none
  (`SchedulerVerdicts.UndisturbedCancelTakesFromNobody`).
- A pass that finds a build hopeless waits for the lock too, and stops with an
  error when the build was pruned meanwhile. The builds behind it wait on, also
  one that nobody wants (`SchedulerEnds.UnwantedBuildSurvivesAStoppedPass`). A
  pass reaches its end exactly when every build had its turn, every decision was
  carried out, and none met a dropped build
  (`SchedulerPasses.PassReachesItsEndIff`); a prune is needed for the latter
  (`SchedulerPasses.UnprunedPassReachesItsEnd`). A pass that reaches its end has
  ended every build nobody wanted
  (`SchedulerEnds.UnwantedBuildEndsWithThePass`).
- A pass does not look at `is_done`, so a build that ends during a pass can
  still be given a worker (`SchedulerEnds.FinishedBuildIsStillStarted`). That
  happens exactly when its turn decides to start it and an event since the pass
  began has ended it (`SchedulerPasses.FinishedBuildIsStartedIff`); a pass during
  which no request lets go, no client leaves and no worker completes starts none
  (`SchedulerPasses.UndisturbedPassStartsNoFinishedBuild`).
- `reset_for_retry` clears the worker of a build whoever it is. A worker whose
  scope is not cancelled is always the recorded one, so three starts on one store
  are the limit in every run in which no cancelled worker asks for a retry
  (`SchedulerAttempts.RunBoundsStarts`); a cancelled worker that asks before a
  newer one is started does no harm either
  (`SchedulerAttempts.OwnRetriesBoundStarts`). In the source a cancel ends the
  worker at the next await that suspends, and the message before the reset
  (`pynixd/scheduler.py:716`) lies inside its scope. The transition system lets a
  cancelled worker take any step and so has a run with a fourth start
  (`SchedulerEnds.CancelledRetryAllowsAFourthStart`); it shows that the bound
  rests on the cancel, not that the program makes that run.
- The counter that looks for the end of a NAR reads names and targets that are
  parentheses, and the target `contents`, as structure. `NarEnd.FindsEndIff`
  says for every tree whether it finds the end. The name `contents` is harmless.
- A derivation field that is written without escapes comes back exactly when it
  has no quote and every backslash is followed by a character that is not a
  known escape; no other text is even read as itself (`DrvText.PlainIff`).
- A derivation comes back exactly when every field that is written without
  escapes is plain, no input is both plain and dynamic, and `is_dynamic` is true
  exactly for dynamic inputs (`DrvPlain.RoundTripIff`).

## Model

| member | source | states |
|---|---|---|
| `ReferrerFirst.Order` | pynixd/gc.py:172-195 | The counters and the heap give the greedy order: no duplicates, exactly the batch paths with no cycle among themselves and their transitive in-batch referrers, and each step the best-ranked ready path. |
| `ReferrerFirst.ReferrersComeFirst` | pynixd/gc.py:184-192 | Every in-batch referrer of an emitted path stands before it. |
| `ReferrerFirst.EmittedIffAcyclic` | pynixd/gc.py:184-195 | A path is emitted if and only if no cycle lies above it in the batch. |
| `ReferrerFirst.GreedyUnique` | pynixd/gc.py:180-192 | The promise fixes the result: two orders that meet it are equal. |
| `ReferrerFirst.FirstOccurrencesKeepOrder` | pynixd/gc.py:174-175 | Dropping repeated paths keeps the order of first occurrences. |
| `GcDelete.Delete` | pynixd/gc.py:628-766 | For every daemon a pass ends, and its report is what the answers say: a path is deleted if and only if an answer, a recheck of a refused group or the last recheck says so; spared if and only if a group that named it was deleted without it; unconfirmed if and only if its request was interrupted or could not be rechecked and nothing found it gone; refused if and only if the second lap refused it alone and nothing found it gone; the bytes are the sum of those answered. Every batch path is reported, and with a daemon that reports only named paths as deleted the sets split the batch. |
| `GcDelete.ReportedOnce` | pynixd/gc.py:718-766 | The answers determine the report: two reports of the same requests are equal. |
| `GcDelete.LapRequestBound` | pynixd/gc.py:675-727 | A lap over n paths makes at most 2n - 1 delete requests, whatever is answered. |
| `GcDelete.PassRequestBound` | pynixd/gc.py:672-737 | The same bound for each of the two laps of a pass. |
| `GcDelete.NeverNamedAgain` | pynixd/gc.py:684-727 | No request names a path that an earlier request of the lap settled. |
| `GcDelete.FirstLapNamesUnfinished` | pynixd/gc.py:684-727 | With an honest daemon no request of the first lap names a path known deleted, spared or interrupted. |
| `GcDelete.SecondLapNamesUnfinished` | pynixd/gc.py:672-737 | Nor does a request of the second lap, counting what the first lap found. |
| `GcDelete.NamedInOrder` | pynixd/gc.py:684-727 | At every request a lap path that stands before a named one is in the same request or was settled before. |
| `GcDelete.RetryInOrder` | pynixd/gc.py:714-727 | The single refusals come back for the second lap in the order of the first. |
| `GcDelete.LapNamesExactly` | pynixd/gc.py:675-727 | A lap names exactly its paths, a hundred at most in a request, the first hundred first. |
| `GcDelete.RefusalHalves` | pynixd/gc.py:697-713 | After a refusal of several paths the next request names the first half of those still valid, one at least. |
| `GcDelete.PassKeepsOrder` | pynixd/gc.py:672-737 | At every request of either lap, a batch path that stands before a named one is in the same request, was settled earlier in that lap, or was deleted, spared or left uncertain by the first lap. |
| `GcDelete.ReferrersNamedFirst` | pynixd/gc.py:591-605 | For a referrer-first batch the same holds of every in-batch referrer of a named path. |
| `GcDelete.PassSplit` | pynixd/gc.py:672-737 | With an honest daemon the reported sets are disjoint and together the batch. |
| `GcDelete.PassReported` | pynixd/gc.py:672-737 | With any daemon every batch path is in some reported set. |
| `GcDelete.ReportSplit` | pynixd/gc.py:729-766 | The last recheck moves unknown paths to the deleted ones and keeps the split. |
| `StoreDb.LiveClosed` | pynixd/liveness.py:378-401 | The live set is closed under references. |
| `StoreDb.LiveExactly` | pynixd/liveness.py:378-401 | The live set is the least set that holds the valid roots and volatile paths, what its paths reference, and the valid derivation of each of its paths. |
| `StoreDb.ReferrersOfDeadAreDead` | pynixd/local_store_db.py:111-119 | The referrer closure of paths outside a reference-closed set stays outside it. |
| `StoreDb.ReferrerClosureLeast` | pynixd/local_store_db.py:111-119 | The referrer closure is the least referrer-closed set over the valid seeds. |
| `StoreDb.ClosureLeast` | pynixd/store/queries.py:28-38 | The closure is the least reference-closed set over the valid seeds. |
| `StoreDb.DeriverReferencesRedundant` | pynixd/liveness.py:378-401 | The third arm of the live query adds nothing to references and derivations. |
| `GcPlan.DeferredPlanSafe` | pynixd/gc.py:444-489 | Over one snapshot the deferred plan is disjoint from the live set and closed under referrers. |
| `GcPlan.DeferredPlanExact` | pynixd/gc.py:444-489 | The deferred plan holds a path if and only if a `gc_defer` store confirms it, nothing unconfirmed reaches it and it is not alive; without the closure query only when every valid path is confirmed. |
| `GcPlan.LruPlanSafe` | pynixd/gc.py:491-528 | The age plan is disjoint from the live set and closed under referrers. |
| `GcPlan.LruPlanLeast` | pynixd/gc.py:491-528 | It is the least such plan that takes every stale dead path. |
| `GcPlan.LruPlanNeedsAnswers` | pynixd/gc.py:491-528 | A path is planned only when both queries answered and some dead path is stale. |
| `GcPlan.VetoIsClosedWhenSeedsAreValid` | pynixd/gc.py:327-353 | When each seed is a valid path and the daemon answers, the veto is the least reference-closed set over its seeds; otherwise it is the seeds alone. |
| `GcPlan.KeptClosed` | pynixd/gc.py:557-589 | A closed batch lies inside the plan and is closed under referrers. |
| `GcPlan.SeedKeptIff` | pynixd/gc.py:557-589 | A seed stays if and only if its referrer closure lies inside the plan. |
| `GcPlan.KeptLargest` | pynixd/gc.py:557-589 | A batch seed inside any referrer-closed part of the plan is kept. |
| `GcPlan.CloseBatch` | pynixd/gc.py:557-589 | The loop gives those paths without duplicates, seeds in batch order and then the joined referrers by path; nothing when a query does not answer. |
| `GcPlan.VetoHoldsIff` | pynixd/gc.py:252-295 | No slice brings a vetoed path back if and only if the veto is closed under references inside the plan. |
| `GcPlan.FallbackVetoCanFail` | pynixd/gc.py:347-353 | With the seeds alone as the veto, a vetoed path comes back through a referrer. |
| `GcRun.ByWeightDescends` | pynixd/gc.py:125-151 | The order falls by score, the path breaking ties. |
| `GcRun.PressureExtremes` | pynixd/gc.py:125-151 | Pressure zero collects oldest first and pressure one biggest first. |
| `GcRun.ScoreInterpolates` | pynixd/gc.py:125-151 | Every pressure blends the two extremes in proportion: the size against the biggest candidate, the age against the oldest. |
| `GcRun.TakeUntilBelowTarget` | pynixd/gc.py:154-169 | The shortest prefix that brings usage to the target, the whole order when none does, an error when the total is zero. |
| `GcRun.SelectBatch` | pynixd/gc.py:252-306 | Which batch: the planned, unvetoed, weighed paths by descending score, up to the first place where the target is met, the limit reached or the order at its end; all of it when that is the plan, and otherwise each seed with everything that references it where all of that is planned, in slice order and then by path, or nothing when a query fails. An error exactly for a zero total. The batch is also duplicate-free, disjoint from the live set and closed under referrers, and holds no vetoed path when the veto is closed under references inside the plan. |
| `GcRun.SelectedOnce` | pynixd/gc.py:252-306 | There is one such batch. |
| `GcRun.MetTargetTakesNothing` | pynixd/gc.py:154-169 | A target that is already met takes nothing. |
| `GcRun.OrderKeepsClosure` | pynixd/gc.py:591-605 | What the order emits of a referrer-closed batch is still referrer-closed. |
| `GcPass.Collect` | pynixd/gc.py:252-306 | From a safe plan to the report: the first lap names exactly the ordered part of the selected batch, the second exactly what the first left refused, and the report is what was answered. Every request names only planned, dead paths, no vetoed one when the veto is closed under references inside the plan, and every referrer of a named path is named with it or was done with before. |
| `GcPass.CollectFromRoots` | pynixd/gc.py:407-423 | The same from the roots on, for the plan of either rule, and an error exactly for a zero total with something to weigh: when the fresh seeds are valid paths and the daemon answers for them, every request names only valid paths that no root reaches and the veto does not hold, each with its referrers or after them. |
| `GcPass.OrderBatch` | pynixd/gc.py:591-605 | The greedy referrer-first order of the batch when every path info is there, and nothing otherwise. |
| `GcPass.OutcomeIsSafe` | pynixd/gc.py:628-766 | The same for every request of both laps over a closed, ordered batch, for any answers. |
| `Liveness.FingerprintSound` | pynixd/liveness.py:415-423 | Over any history of inserts with growing ids and deletes, an unchanged count and highest id mean unchanged rows. |
| `Liveness.SurvivorsStay` | pynixd/liveness.py:415-423 | When a history ends with the rows it began with, none of them left in between. |
| `Liveness.ReusedIdFoolsFingerprint` | pynixd/db_migrations.py:98-101 | With reused ids two different stores share a fingerprint. |
| `Liveness.RefreshNeverMissesALivePath` | pynixd/liveness.py:513-525 | After any run in which, since the last recomputation, no pass failed and no other tracker changed the roots, a pass answers at least the live set of a fresh computation. |
| `Liveness.RefreshIsExact` | pynixd/liveness.py:513-525 | When besides no write lands inside a pass, every pass answers exactly that set. |
| `Liveness.RefreshCoversIff` | pynixd/liveness.py:513-525 | After any run, with failed and disturbed passes and other trackers, a pass covers the live set if and only if it recomputes or the cached set holds every valid root and volatile path of now. |
| `Liveness.RefreshExactIff` | pynixd/liveness.py:513-525 | After any such run a pass answers exactly the live set if and only if it recomputes or besides the seeds of the cached set are live and it names no path that is gone; the last alone when only completed passes came since the recomputation. |
| `Liveness.HitCoversIff` | pynixd/liveness.py:518-519 | A cached answer holds every live path if and only if it holds the valid roots and volatile paths of now. |
| `Liveness.HitExactIff` | pynixd/liveness.py:518-519 | A cached answer is the live set if and only if it holds the valid seeds of now, every valid seed it was computed from is live now, and all its paths are still valid. |
| `Liveness.ValidLiveSetIsLive` | pynixd/liveness.py:378-401 | A live set over more rows whose paths are all valid over fewer is live over the fewer. |
| `Liveness.FailedPassHidesARoot` | pynixd/liveness.py:515-524 | After a pass that wrote the roots and failed, the next one answers without a path that is a root. |
| `Liveness.FailedSnapshotHidesAVolatilePath` | pynixd/liveness.py:520-524 | After a pass that failed at the snapshot, a volatile set that returns is answered without a path of it. |
| `Liveness.DisturbedRefreshKeepsAGonePath` | pynixd/liveness.py:513-525 | A write inside a pass can leave a path that is gone in the answer. |
| `Liveness.SecondTrackerHidesARoot` | pynixd/gc.py:425-442 | With a second tracker on the roots table a refresh misses a root. |
| `Liveness.Database.RefreshRoots` | pynixd/liveness.py:426-456 | The table becomes the walked links, and the answer is whether it changed. |
| `Liveness.RootsTracker.Refresh` | pynixd/liveness.py:513-525 | The object refines the pass on values, with roots, cache, epoch and snapshot in each of its outcomes: a hit, a recomputation, a failure before the query and one at the snapshot. |
| `BuildQueue.EnqueuedInv` | pynixd/build_queue.py:563-647 | Enqueueing keeps the indices in agreement, one unfinished build per derivation, holders and request lists equal, and every result that is set. |
| `BuildQueue.EnqueuedAnswers` | pynixd/build_queue.py:563-647 | The ask ends on the registered unfinished build of its derivation, held by the goal that asked. |
| `BuildQueue.ReleaseEndsExactly` | pynixd/build_queue.py:676-717 | A release ends exactly the unfinished builds whose only holder is the request, and leaves the request nowhere. |
| `BuildQueue.ReleasedInv` | pynixd/build_queue.py:676-717 | A release keeps the queue invariant. |
| `BuildQueue.CompletedInv` | pynixd/build_queue.py:743-833 | Completing and failing set the given result once and keep the invariant; an unknown id is the error. |
| `BuildQueue.CancelledUnwantedInv` | pynixd/build_queue.py:854-913 | Cancelling an unwanted build keeps the invariant and every other result. |
| `BuildQueue.PruneDropsExactly` | pynixd/build_queue.py:915-942 | A prune drops exactly the finished builds nobody names, and a path registration only with its build. |
| `BuildQueue.PrunedInv` | pynixd/build_queue.py:915-942 | A prune keeps the invariant. |
| `BuildQueue.UnsubscribedInv` | pynixd/build_queue.py:661-670 | Losing a subscriber keeps the invariant and every result that is set. |
| `BuildQueue.ResetInv` | pynixd/build_queue.py:221-233 | A retry keeps `retries` equal to the sum of the failures per store. |
| `QueueEffects.EnqueueChanges` | pynixd/build_queue.py:563-647 | An ask joins the unfinished build of its derivation, changing only who wants it, or makes a fresh one at the end of the queue; it notes the `max-jobs` of its goal and changes nothing else. |
| `QueueEffects.CompleteChanges` | pynixd/build_queue.py:743-833 | The result is the one given, once; exactly the holders of a failed build give up, unless its client keeps going or there is none. |
| `QueueEffects.CancelChanges` | pynixd/build_queue.py:854-913 | An unwanted build fails and its worker is cancelled; nobody gives up and nothing else changes. |
| `QueueEffects.ReleaseChanges` | pynixd/build_queue.py:676-717 | The builds a release ends fail and their workers are cancelled; the request leaves every build and list. |
| `QueueEffects.UnsubscribeChanges` | pynixd/build_queue.py:661-670 | A client that leaves counts one less and goes with its last; the last client of an unfinished build bound to its clients makes it fail and cancels its worker. |
| `QueueEffects.SubscribeChanges` | pynixd/build_queue.py:649-659 | A subscription counts one more, a first one only when its replay succeeds. |
| `QueueEffects.PruneKeepsOrder` | pynixd/build_queue.py:915-942 | A prune keeps the order of what it leaves. |
| `BuildQueue.ReleaseBuilds` | pynixd/build_queue.py:676-717 | The loop over the held builds computes the release on values. |
| `BuildQueue.DropIndices` | pynixd/build_queue.py:915-942 | The loop of a prune computes the surviving indices. |
| `BuildQueue.SharedQueue.Enqueue` | pynixd/build_queue.py:563-647 | The object's new state is the enqueue on values, and the invariant holds. |
| `BuildQueue.SharedQueue.ReleaseRequest` | pynixd/build_queue.py:676-717 | The object's new state is the release on values, and the invariant holds. |
| `BuildQueue.SharedQueue.Complete` | pynixd/build_queue.py:743-807 | The result is set once; the error is a build the queue does not hold. |
| `BuildQueue.SharedQueue.CancelUnwanted` | pynixd/build_queue.py:854-882 | An unfinished queued build ends, and anything else is left alone. |
| `BuildQueue.SharedQueue.Prune` | pynixd/build_queue.py:915-942 | The object's new state is the prune on values, and the invariant holds. |
| `Scheduler.EligibleStores` | pynixd/allocator.py:162-189 | The filter keeps exactly the healthy, schedulable, supporting stores that are not local, not draining and have failed the build fewer than three times. |
| `Scheduler.StartIsAllowed` | pynixd/scheduler.py:383-492 | A turn starts a build only on a store that may take it and has room, on the local one only as the fallback and in a free slot. |
| `Scheduler.HopelessBuildsFail` | pynixd/scheduler.py:437-459 | A build that every supporting store has given up on fails instead of waiting. |
| `SchedulerDecisions.HopelessIff` | pynixd/scheduler.py:437-489 | A build fails if and only if it may start nowhere and either no other store supports it or may appear that does, or every supporting store has failed it three times. |
| `SchedulerDecisions.StartIff` | pynixd/scheduler.py:450-478 | It starts on a store if and only if that is the first in the ranker's order with room, the local one only as the fallback and in a free slot. |
| `SchedulerDecisions.HeldIff` | pynixd/scheduler.py:450-458 | It is held by pressure if and only if it may start somewhere and no place has room. |
| `SchedulerDecisions.WaitIff` | pynixd/scheduler.py:460-489 | It waits if and only if a store could take it later, or the first place with room is the local one and its slots are in use. |
| `SchedulerDecisions.UnwantedIff` | pynixd/scheduler.py:425-428 | It is given up if and only if it has holders and all of them have given up. |
| `Scheduler.RequestHasALocalSlot` | pynixd/scheduler.py:569-588 | The count decides whether a request holds fewer running local builds than its `max-jobs`, one at least. |
| `SchedulerRuns.StepInv` | pynixd/scheduler.py:168-202 | Every event keeps the queue invariant, the records of workers and of the pass, and every result; a cancel or a failure that a pass decided is an event of its own, and so are a stopped pass, a completion after a retry and a lost subscriber. |
| `SchedulerRuns.RunInv` | pynixd/scheduler.py:383-492 | In every reachable state, over all interleavings of clients, workers and drains with the steps of a pass, also between a decision and the lock, the invariant holds and no result was ever changed. |
| `SchedulerAttempts.RunBoundsStarts` | pynixd/scheduler.py:437-478 | In every run in which no cancelled worker asks for a retry, each worker that still works is the one its build records, and no build starts on one store more than three times. |
| `SchedulerAttempts.RunBoundsAttempts` | pynixd/allocator.py:172-182 | In such a run a build has at most 3 * \|S\| attempts over a set S of stores. |
| `SchedulerAttempts.OwnRetriesBoundStarts` | pynixd/build_queue.py:221-233 | The bound of three in every run whose retries, by cancelled workers too, find their own worker recorded or none. |
| `SchedulerAttempts.RetryClearsItsOwnWorker` | pynixd/build_queue.py:221-233 | In such a run a retry clears the worker that asked for it and leaves that of every other build. |
| `SchedulerAttempts.ExitClearsOnlyAFinishedBuild` | pynixd/build_queue.py:202-206 | In every run the end of a worker leaves every other recorded worker, and the one it clears belongs to a finished build. |
| `SchedulerPasses.PassReachesItsEndIff` | pynixd/scheduler.py:446-448 | A pass reaches its end if and only if every build had its turn, every decision was carried out, and no build was dropped from the queue by the time its failure had the lock. |
| `SchedulerPasses.UnprunedPassReachesItsEnd` | pynixd/build_queue.py:780-807 | So when nothing is pruned during a pass, the turns and the carried-out decisions alone decide. |
| `SchedulerPasses.StepEndsIff` | pynixd/scheduler.py:383-492 | Exactly which events end an unfinished build: the release by its last holder, its last client leaving, the decision of a pass on it carried out, whoever wants it by then, and its worker completing. |
| `SchedulerPasses.LeavingEndsIff` | pynixd/build_queue.py:661-670 | A client that leaves ends a build if and only if it was its last client and the build is bound to clients. |
| `SchedulerPasses.FinishedBuildIsStartedIff` | pynixd/scheduler.py:401-478 | A turn gives a worker to a finished build if and only if it decides to start it and an event since the pass began has ended it. |
| `SchedulerPasses.UndisturbedPassStartsNoFinishedBuild` | pynixd/scheduler.py:401-478 | A pass during which no request lets go, no client leaves and no worker completes starts no finished build. |
| `SchedulerSlots.RunRespectsSlots` | pynixd/scheduler.py:550-588 | In every run the running local builds started on a request's slot and still held by it stay within its `max-jobs`, one at least. |
| `SchedulerSlots.RunRespectsMaxJobs` | pynixd/scheduler.py:460-478 | When no build is shared or joined while it runs, each request runs at most that many local builds. |
| `SchedulerLoad.RunRespectsLimits` | pynixd/scheduler.py:493-505 | In every run, a store on which a pass starts a build then runs at most as many unfinished builds as its limit was at that turn. |
| `SchedulerLoad.PassCountsExactly` | pynixd/scheduler.py:397-478 | A pass counts exactly the builds it started on each store, and remembers exactly those it found no room for. |
| `SchedulerLoad.DrainFrees` | pynixd/scheduler.py:168-202 | After a drain nothing unfinished runs on the store; exactly the unfinished builds last given to it are charged a failure there and lose their worker, which is cancelled. |
| `SchedulerLoad.FinishGives` | pynixd/scheduler.py:700-727 | A worker gives its build the daemon's answer, and a failure makes its holders give up unless its client keeps going. |
| `SchedulerLoad.VerdictGives` | pynixd/scheduler.py:603-635 | A verdict makes its build fail; the holders of a hopeless one give up, those of an unwanted one had already. |
| `SchedulerEnds.UnwantedBuildEndsWithThePass` | pynixd/build_queue.py:835-882 | A waiting build whose holders had all given up when a pass began is finished when the pass reaches its end, unless a live goal joins it before its turn. |
| `SchedulerEnds.FinishedBuildIsStillStarted` | pynixd/scheduler.py:383-492 | A build that ends between the start of a pass and its turn is still given a worker. |
| `SchedulerEnds.UnwantedBuildSurvivesAStoppedPass` | pynixd/scheduler.py:284-297 | A run from the empty system in which a build is pruned after its turn, the pass stops at it, and an unwanted build behind it stays unfinished. |
| `SchedulerVerdicts.CancelTakesFromIff` | pynixd/build_queue.py:854-882 | A decided cancel ends an unfinished build; a live request holds it then if and only if it joined since the decision and has neither given up nor let go. |
| `SchedulerVerdicts.UndisturbedCancelTakesFromNobody` | pynixd/scheduler.py:425-428 | So it takes a build from nobody when no live goal joins between the decision and the lock. |
| `SchedulerVerdicts.WantedBuildIsCancelled` | pynixd/scheduler.py:425-428 | A run from the empty system that ends with a build cancelled as unwanted while a live request holds it. |
| `SchedulerEnds.CancelledRetryAllowsAFourthStart` | pynixd/scheduler.py:714-718 | In the transition system without the condition on cancelled workers there is a run with four starts of one build on one store. |
| `Nar.WriteNar` | pynixd/nar.py:70-139 | The writer gives the fields of the tree, and refuses exactly a name or target beyond ASCII and a length beyond 64 bits. |
| `NarRead.ParseWrite` | pynixd/nar.py:152-235 | `parse_nar(write_nar(t))` is t for every tree that can be written. |
| `NarRead.ParsedCanBeWritten` | pynixd/nar.py:225-235 | Whatever parses can be written, and then parses to the same tree. |
| `NarRead.Parse` | pynixd/nar.py:164-235 | The loops over a threaded offset read what the recursive definition reads, errors included. |
| `NarRead.ParseNode` | pynixd/nar.py:164-222 | The same for one node, for every offset of every byte string. |
| `NarScan.ScanConserves` | pynixd/nar.py:309-374 | What was forwarded and what is left are the input, in order. |
| `NarScan.ScanSplit` | pynixd/nar.py:350-374 | Scanning in two pieces, cut anywhere, is scanning the whole. |
| `NarScan.ScanFields` | pynixd/nar.py:330-348 | The scan takes fields until the counter ends the archive and goes on behind them when it does not. |
| `NarEnd.FindsEndIff` | pynixd/nar.py:330-348 | For every writable tree: the end is found before every suffix if and only if the names and targets read as structure cancel out and never close more than is open. |
| `NarEnd.CleanTreeFindsEnd` | pynixd/nar.py:330-348 | It is found when no name is a parenthesis and no target is a parenthesis or `contents`. |
| `NarEnd.OneKindMissesEnd` | pynixd/nar.py:341-348 | With opening or closing ones alone it is found if and only if there are none. |
| `NarEnd.OrderDecides` | pynixd/nar.py:341-348 | With both kinds the order decides: one pair of names works and its reverse does not. |
| `NarForwarder.Forwarder.Feed` | pynixd/nar.py:350-374 | A feed forwards exactly the fields of one scan over what was held and what came; a finished forwarder takes nothing. |
| `NarForwarder.ForwardNar` | pynixd/nar.py:376-393 | What goes out depends on the bytes alone, not on the pieces they came in. |
| `NarForwarder.NarSize` | pynixd/nar.py:396-408 | The length of what the scan forwards, or an error when it does not end. |
| `NarStream.StreamParseNar` | pynixd/wire.py:519-601 | It succeeds if and only if the scan ends, and then consumed, forwarded and captured exactly what the scan takes. |
| `Wire.StreamReader.ReadExactly` | pynixd/wire.py:250-286 | For any chunking it succeeds if and only if the stream holds n more bytes, returns the next slice, and keeps `bytes_read` equal to delivered plus buffered bytes until a call fails. |
| `Wire.StreamReader.ReadThrough` | pynixd/wire.py:183-189 | The same for a read at least as large as the read-ahead. |
| `Framing.UnframeFrames` | pynixd/wire.py:724-742 | A reader takes non-empty frames as their concatenation. |
| `Framing.FramingCarriesNoMeaning` | pynixd/wire.py:604-667 | Any two framings of one payload read the same, to the same end. |
| `Framing.ForwardFramed` | pynixd/wire.py:604-667 | For any input frames and chunk size the payload goes out in non-empty frames and one terminator, the sizes reported are theirs, all but the last reach the chunk size, and the source stands behind its terminator. |
| `Framing.FramedReader.ReadExactly` | pynixd/wire.py:724-742 | It succeeds if and only if the frames hold n more bytes, returns them, and takes nothing when it fails. |
| `Framing.FramedReader.EnsureEof` | pynixd/wire.py:744-761 | It succeeds if and only if the stream is closed and then leaves the source behind the terminator. |
| `DrvText.EscapeStep` | pynixd/drv_parser.py:139-144 | The five sequential replacements are one substitution, character by character. |
| `DrvText.ReadEscaped` | pynixd/drv_parser.py:702-728 | Reading an escaped string gives it back, for every text. |
| `DrvText.EscapeTable` | pynixd/drv_parser.py:702-728 | The eight escapes and the characters they stand for; any other backslash stands for itself. |
| `DrvText.PlainIff` | pynixd/drv_parser.py:416-423 | A text written without escapes comes back if and only if it is plain, and no other text is read as itself. |
| `DrvRoundTrip.ParseUnparse` | pynixd/drv_parser.py:904-1006 | What the parser makes of every printed derivation with plain unescaped fields, nested nodes included. |
| `DrvRoundTrip.OutputsComeBackOnlyIfPlain` | pynixd/drv_parser.py:504-521 | Whatever the other fields are, outputs that come back are plain. |
| `DrvRoundTrip.OutputsInNameOrder` | pynixd/drv_parser.py:507 | The printed outputs are the outputs, sorted by name. |
| `DrvPlain.RoundTripIff` | pynixd/drv_parser.py:466-602 | Every derivation, with any text behind it, comes back as it was with its outputs in name order if and only if every field written without escapes is plain, no input is both plain and dynamic and the flag is right. |
| `DrvPlain.ComesBackOnlyIfPlain` | pynixd/drv_parser.py:416-423 | A derivation that comes back is plain, also where quotes in its fields could have been read as structure. |
| `DrvPlain.StringPays` | pynixd/drv_parser.py:702-728 | Every string read from any text costs two quotes and one for each in it, and a backslash for each quote and backslash in it; with no backslash to spare, a string without quotes is plain. |
| `DrvCounts.RowsAtMost` | pynixd/drv_parser.py:533-560 | The printed input rows count no more than the input dictionaries. |
| `DrvRoundTrip.NodeReads` | pynixd/drv_parser.py:793-839 | Every printed `ChildMapNode` tree reads back, whatever follows it. |
| `Drv.PathReadsBack` | nix-daemon-protocol/src/nix_daemon_protocol/store_path.py:55-71 | A printed store path reads back to its base name. |
| `Drv.PathReadIff` | nix-daemon-protocol/src/nix_daemon_protocol/store_path.py:55-71 | A text is read as a base name if and only if it is that name behind the store directory, or that name and no absolute path. |
| `Drv.LastInputRowWins` | pynixd/drv_parser.py:904-1006 | Of several rows for one input the last decides. |
| `Drv.PathsKeepOrder` | pynixd/drv_parser.py:538-539 | Sorting by the whole path is sorting by the base name. |
| `DrvParser.ParseDrv` | pynixd/drv_parser.py:664-1006 | The parser object with its loops reads what the recursive definition reads, errors included. |
| `DrvParser.Parser.ParseString` | pynixd/drv_parser.py:702-728 | The chunked loop reads what the character-wise definition reads. |
| `DrvParser.Parser.ParseChildren` | pynixd/drv_parser.py:811-839 | The recursive loop over children reads what the definition reads. |
| `DrvPrint.UnparseDerivation` | pynixd/drv_parser.py:466-602 | The appending loops give the printed text, masked or not, with its own inputs or with replacements. |
| `DrvPrint.MaskingBlanks` | pynixd/drv_parser.py:515-598 | The masked text is the text of the derivation with its output paths blanked in the outputs and the environment. |
| `DrvReplaced.MaskedIgnoresPaths` | pynixd/drv_parser.py:515-598 | Two derivations that differ only in output paths, in the outputs and in the environment, have the same masked text. |
| `DrvReplaced.ReplacedComesBack` | pynixd/drv_parser.py:525-560 | The text with replacement inputs reads back as the derivation with these as its inputs, blanked when masked. |
| `DrvReplaced.InputRowsAscend` | pynixd/drv_parser.py:538-539 | Inputs are printed in strictly ascending order, one row for each path. |
| `DrvReplaced.EnvRowsAscend` | pynixd/drv_parser.py:585-587 | So is the environment, each key with its value. |
| `DrvPrint.AppendList` | pynixd/drv_parser.py:504-521 | The loop with its first-item flag gives the comma-separated list. |
| `DrvPrint.NodeText` | pynixd/drv_parser.py:444-464 | The text of a node does not depend on what follows it. |
| `DrvHash.OutputHashes` | pynixd/drv_hash.py:60-78 | The memoised evicting walk answers the masked hash of the derivation over a list that names, for every hash, exactly the outputs read that have it, plain inputs before dynamic ones, in order; each input hashes the same way, unmasked. It answers if and only if such lists exist, also while other walks write the cache. |
| `DrvHash.ExplainedIsUnique` | pynixd/drv_hash.py:81-135 | Whatever table of such lists is given, the hashes of a path are those of plain recursion. |
| `DrvHash.WalkClosure` | pynixd/drv_hash.py:81-95 | The same for one input derivation; the cache stays sound and within 20000 entries. |
| `DrvHash.WalkInputs` | pynixd/drv_hash.py:98-135 | The loop over the inputs collects what plain recursion collects. |
| `DrvHash.Cache.Remember` | pynixd/drv_hash.py:53-57 | The entry is kept; at the limit exactly the oldest quarter goes first, and the rest keeps its order. |
| `DrvHash.AnswersIff` | pynixd/drv_hash.py:81-135 | Plain recursion answers if and only if every derivation it needs can be read and has the outputs named. |
| `DrvHash.AddedNames` | pynixd/drv_hash.py:129-134 | Each hash collects exactly the names of the outputs that have it, in order. |
| `Pressure.BuildLimit.Observe` | pynixd/pressure.py:65-95 | The object refines the step on values, the limit stays in 1..ceiling, and the answer is true if and only if the limit ended higher. |
| `Pressure.ObservedInRange` | pynixd/pressure.py:65-101 | Every sample keeps the limit in 1..ceiling. |
| `Pressure.ObservedHigher` | pynixd/pressure.py:65-95 | The limit ends higher if and only if a monitored sample rises or an unmonitored one lifts it to the ceiling. |
| `Pressure.LimitMoves` | pynixd/pressure.py:65-95 | Where the limit goes for every sample: the ceiling without a signal, a cut past a high mark once per `settle`, doubling in the slow start and the step after it for a steady sample under full load, and no move otherwise. |
| `Pressure.FirstLimit` | pynixd/pressure.py:97-101 | The first signal begins with the configured limit, the whole cores or one, within one and the ceiling. |
| `Pressure.CutIsTheShare` | pynixd/pressure.py:79-81 | A fall leaves the whole part of the factor's share of the builds that run, one at least. |
| `Pressure.FallsAreApart` | pynixd/pressure.py:79-84 | In every run two falls are at least `settle` apart. |
| `Pressure.RisesWait` | pynixd/pressure.py:89-95 | In every run no monitored rise comes within `settle` of an earlier fall or rise. |
| `Pressure.GrowthAfterAFallIsAdditive` | pynixd/pressure.py:89-95 | After a fall, while monitored, the limit grows by the step alone. |
| `Pressure.VerdictMarks` | pynixd/pressure.py:103-126 | A fall needs a signal past its high mark; a sample is steady if and only if every known signal is under its low mark. |
| `Nix32.Nix32Encode` | pynixd/utils.py:11-30 | The shifting and masking loop gives the base-32 numeral of the little-endian number, most significant digit first, of length ceil(8n/5). |
| `Nix32.CutIsDigit` | pynixd/utils.py:22-29 | The five bits cut out of two bytes are the digit at that place. |
| `Nix32.TextInjective` | pynixd/utils.py:11-30 | Byte strings of one length with the same text are equal. |

## Left out

- Wire.StreamReader.ReadExactly: after a call has failed, the bytes it dropped stay counted in `bytes_read`; the equality is stated for the calls before.
- Framing.ForwardFramed: success is promised for payloads under 2^64 bytes; a longer outgoing frame has a length that cannot be written.
- Nar.WriteNar: what stands in the buffer after a refusal is not stated.
- Pressure.BuildLimit.Observe: asks for a ceiling of one or more, a factor in 0..1, a step of one or more and a positive settle time; the configuration does not check them.
- SchedulerAttempts.RunBoundsStarts: holds for runs in which no cancelled worker asks for a retry; how the cancel reaches an await is not part of the model, which lets a cancelled worker take any step.
- SchedulerAttempts.RunBoundsAttempts: the same.
- DrvRoundTrip.ParseUnparse: what an unescaped field that is not plain is read as is not stated; that it is not read as itself is.
- GcDelete.Delete: a pass that raises while it takes a connection, retires idle ones or tells its client has made some of these requests and reports nothing.
- DrvReplaced.ReplacedComesBack: for derivations without dynamic inputs and plain replacement rows, which is what the hash builds; the dynamic format with replaced inputs is covered by the printed text alone.
- Drv.PathReadsBack: the store directory is the constant `/nix/store/`, not a setting.
- The order of `get_pending`, which a pass follows, is any order of the waiting builds.
- A running build whose store has left the table: `_filter_schedulable` fails on the missing key; the model counts it like any other.
- Log replay and fan-out, waiting messages, `SchedulerBuildRequest` bookkeeping and the shutdown of the worker group.
- Preparing a build, copying inputs and collecting outputs: a worker's outcome is a free choice.
- Store ranking scores and telemetry: the ranker is any ordered choice of eligible stores.
- The walks for roots, temporary-root locking, disk usage and physical byte counts: their results are inputs.
- Freed bytes, the roots report and the marking of used closures.
- Python's recursion limit in the NAR and derivation parsers.
- `compress_hash`, SHA-256, signatures and the classification of outputs.
- The handshake, operation dispatch, SSH, HTTP and SFTP servers, metrics, configuration and the command line.
