# Dedicated-line monitor: a verified model

The monitor keeps a pool of router connections, pulls its list of lines from a
configuration server, schedules pings for each line and hands the results to handlers in
batches. This project models the concurrent and the algorithmic core of that program and
proves what it guarantees, and exactly where a guarantee ends.

A protocol is a set of atomic steps (one step for each lock section, channel operation or
atomic operation) over any number of threads and objects. `Behaviour` describes a whole
run, an invariant is kept by every step, and the theorems speak about every state of every
run. What the driver, the pool, the network, the clock or a context does is a free choice of
the step. Code that updates objects in place is a class whose methods are proved against the
same value functions that the steps use.

| file | part of the program |
|---|---|
| `ConnectionStates.dfy`, `PooledConnections.dfy` | state machine and locked sections of one connection |
| `PoolProtocol.dfy`, `PoolTheorems.dfy`, `PoolLooks.dfy`, `PoolProgress.dfy`, `PoolMarks.dfy`, `PoolTightness.dfy`, `PoolWitnesses.dfy` | borrowing, checking, rebuilding, cleaning and warming up, interleaved |
| `BatchRebuild.dfy` | worker pool of the batch rebuild |
| `TemplateChains.dfy`, `TemplateOrders.dfy`, `TemplatePairs.dfy`, `MacroMerges.dfy`, `NearestMacros.dfy` | template hierarchy and macro precedence |
| `Lines.dfy`, `LineChanges.dfy`, `DiffMerges.dfy`, `IntervalQueues.dfy` | configuration diff, manager, interval queues |
| `Subscribers.dfy`, `NotificationRuns.dfy` | subscriptions and notifications |
| `TaskPipeline.dfy`, `TaskStops.dfy`, `TaskEnds.dfy`, `TaskOrders.dfy`, `PingPaths.dfy` | interval queues' workers, semaphore, connections and task queue of the pings; when a stop is safe and when it returns; why each ping ends |
| `Aggregators.dfy`, `AggregatorRuns.dfy`, `AggregatorStops.dfy` | batching of results |
| `CircuitBreakers.dfy`, `BreakerTrials.dfy`, `Retries.dfy`, `RealProducts.dfy` | circuit breaker, backoff, retrier |
| `OperationMetrics.dfy` | lock-free duration statistics |
| `Totals.dfy`, `Options.dfy` | sums over a crew of threads, optional values |

## Where the code and its documentation differ

The model follows the code. Each of these is proved below, with the exact condition where
there is one.

- The configured maximum does not bound the pool: a creation fits into the window of a
  rebuild (`PoolWitnesses.MaximumCanBeExceeded`). The real bound is `PoolTheorems.PoolBounded`,
  and it is reached for every configuration (`PoolTightness.BoundIsExact`).
- A rebuild can close a connection that somebody owns. It does so if and only if the
  connection is not Idle when it begins to close it, a guard that the code checks earlier and
  does not repeat (`PoolTheorems.ClosesOwnedIff`, `PoolTheorems.GateDecidesOwnership`).
- A rebuild mark can be won a second time, on a connection that is already closed and out of
  the pool: if and only if, when the rebuild completes, a thread already stands at its verdict,
  between seeing the connection idle and asking whether it is being rebuilt, or in a check
  whose failure would mark (`PoolMarks.MarkWonAgainIff`).
- The recorded depth of a template is the length of the path on which the search first met
  it, not of the shortest one. The order in which the server lists parents decides; every
  order records the documented depths if and only if every parent path without repetition is
  a shortest one (`TemplateOrders.AlwaysExactIff`). A far definition can win over a near one
  (`MacroMerges.FarDefinitionCanWin`); the exact condition is
  `NearestMacros.NearestWinsInEveryOrderIff`.
- Merging the macros of a host without templates fails with an index error
  (`MacroMerges.MergeMacros`).
- Creations are held back after every synchronisation that starts from an empty
  configuration, not only after the first (`LineChanges.SyncCarriesManager`); an update
  that moves a line to another router is lost (`LineChanges.MovedLineIsLost`); and a full
  synchronisation never takes over an empty configuration (`LineChanges.Manager.FullSync`).
- Each synchronisation sends its events on its own, and the manager ignores their versions.
  What two in a row send can arrive interleaved or the later ones first; the exact condition
  under which the manager follows all the same is `DiffMerges.EveryMergeAgreesIff`. A line
  created and then updated, or updated twice without a move, does not meet it.
- A stop during a submission can send on the closed task channel. After the channel is closed
  this can still happen if and only if a ping is getting a connection or submitting, or, with
  the router's context live and some slot not held by a queued ping, a ping is on its way or
  the worker of an interval queue can still begin one (`TaskStops.CrashAfterCloseIff`).
- The same stop can wait for ever for the worker of an interval queue, as long as the router's
  context lives: a ping that then waits at the semaphore does so for ever if and only if every
  slot is held by a ping left in the executor's queue (`TaskEnds.WaitsForEverIff`). Some run
  comes to that if and only if there is an interval queue and there are no more slots than ten
  times the workers (`TaskEnds.SomeStopHangsIff`).
- A half-open circuit breaker with the default settings closes again only if 26 trials can be
  in flight at once, requests from before it opened included
  (`BreakerTrials.DefaultRecoversIff`); with requests made one after the
  other it never does (`CircuitBreakers.DefaultStaysHalfOpenInSequence`). `MaxRequests` does
  not limit the requests in flight (`CircuitBreakers.TrialsInFlightIff`).
- The jitter is at most 5 %, not 10 % (`Retries.JitterIsSmall`), and can lift a delay above
  the limit (`Retries.JitterKeepsIff`); the first delay ignores the limit
  (`Retries.WithinLimitIff`).
- A sample of zero resets the recorded minimum: one call after the other
  (`OperationMetrics.RecordedMinIff`), and interleaved calls can then leave any of the samples
  as the minimum (`OperationMetrics.CanLeaveIff`).

## Model

| member | source | states |
|---|---|---|
| ConnectionStates.GetValidTransitions | connection/state_manager.go:84-100 | returns exactly the states reachable in one transition, each once; said again target by target, for example Idle from Acquired and Checking only |
| ConnectionStates.ClosingIsForever | connection/state_manager.go:47-81 | on any walk through the state machine, once Closing a connection stays Closing or Closed and moves at most once more |
| PooledConnections.PooledConnection.TransitionState | connection/pooled_connection.go:384-407 | moves if and only if the transition is allowed and otherwise changes nothing |
| PooledConnections.PooledConnection.TryAcquireForTask | connection/pooled_connection.go:64-102 | succeeds if and only if the connection is unused, Idle, not Unhealthy and not under rebuild; then it is Acquired and nothing else changes |
| PooledConnections.PooledConnection.Release | connection/pooled_connection.go:105-125 | returns an Acquired connection to Idle and leaves any other alone; its fall-back to Closing is never taken |
| PooledConnections.PooledConnection.RecordHealthCheck | connection/pooled_connection.go:153-235 | counts straight failures; after a failure the connection is Unhealthy from the unhealthy threshold on, Degraded between the thresholds and Healthy below both; the mark is set exactly by Unhealthy and Degraded where configured; Checking ends |
| PooledConnections.PooledConnection.MarkForRebuild | connection/pooled_connection.go:318-340 | the mark is set afterwards; only the caller that found it clear wins |
| PooledConnections.PooledConnection.BeginRebuild | connection/pooled_connection.go:454-477 | passes if and only if no rebuild is running and the connection is not on its way out |
| PooledConnections.PooledConnection.CompleteRebuild | connection/pooled_connection.go:480-503 | ends the rebuild; only a successful one clears the mark |
| PooledConnections.PooledConnection.BeginClose | connection/pooled_connection.go:506-517 | moves to Closing exactly from the operational states |
| PooledConnections.PooledConnection.CompleteClose | connection/pooled_connection.go:520-537 | moves from Closing to Closed and from nowhere else |
| PooledConnections.PooledConnection.BeginHealthCheck | connection/pooled_connection.go:410-424 | moves to Checking exactly when the state machine allows it |
| PoolProtocol.LocalStepKeeps | connection/pool_enhanced.go:2748-2845 | each step of a borrower, checker, rebuilder, evaluator or cleaner leaves its connection well formed and no other thread's view of it broken |
| PoolProtocol.PublishKeepsInv | connection/pool_enhanced.go:601-662 | creating, inserting and acquiring a new connection under the second check keeps the pool invariant |
| PoolProtocol.ReplacementKeepsInv | connection/pool_enhanced.go:796-849 | inserting the replacement of a closed connection keeps the pool invariant |
| PoolProtocol.NextKeepsInv | connection/pool_enhanced.go:546-662 | every step of every thread keeps the pool invariant |
| PoolProtocol.Reachable | connection/pool_enhanced.go:546-1081 | the pool invariant holds in every state of every run |
| PoolTheorems.AtMostOneOwner | connection/pool_enhanced.go:546-598 | in every interleaving a connection has at most one owner |
| PoolTheorems.OwnershipDecidesState | connection/pool_enhanced.go:2748-2845 | an owned connection is in use or on its way out, an unowned one is Idle and unused or on its way out: no failed execute or check leaks one |
| PoolTheorems.HistoryIsAWalk | connection/state_manager.go:47-81 | in every run, what one connection goes through is a walk through the state machine: no interleaving of lock sections makes a forbidden transition |
| PoolTheorems.MembersChangeIff | connection/pool_enhanced.go:601-849 | a connection leaves the pool exactly in the removal step of a rebuilder or a cleaner, and joins it exactly as a new one under the limit, as a replacement or as warm-up |
| PoolTheorems.HealthFollowsChecks | connection/pooled_connection.go:153-235 | in every run: the count is the length of the failure run at the end of the check history and never exceeds the threshold; Unknown, Unhealthy and Degraded each hold exactly as history and thresholds say; an Unhealthy or Degraded connection that is not closed is marked where configured |
| PoolTheorems.UnhealthyIsNotTouched | connection/pool_enhanced.go:1191-1253 | no step checks an Unhealthy connection or changes its status |
| PoolTheorems.UnhealthyIsForever | connection/pooled_connection.go:80-84 | once Unhealthy a connection stays so and is never checked again |
| PoolTheorems.HistoryIsTrue | connection/pool_enhanced.go:729-849 | the history fields of a connection equal the numbers of gate passages, replacements and mark wins in the run |
| PoolTheorems.RebuiltAtMostOnce | connection/pool_enhanced.go:729-849 | over a whole run at most one rebuild of a connection passes the gate and it gets at most one replacement; its mark is cleared only once it has been replaced, cleared or won again only when it is Closed and out of the pool, and won at most twice (when it is won again: PoolMarks.MarkWonAgainIff) |
| PoolTheorems.RebuilderAlwaysCloses | connection/pool_enhanced.go:756-790 | a rebuilder that passed the gate can always begin to close: the "abnormal state" exit is unreachable |
| PoolTheorems.StepWithinBudget | connection/pool_enhanced.go:601-649 | each step keeps pool members and promised replacements together within the maximum plus rebuilds at once plus warm-up; a rebuild counts from the moment it has chosen its connection |
| PoolTheorems.PoolBounded | connection/pool_enhanced.go:601-649 | the pool never exceeds the maximum plus the largest number of connections chosen for a rebuild or under rebuild at once plus the warm-up total |
| PoolTightness.BoundIsReached | connection/pool_enhanced.go:796-849 | for every positive maximum, every number k of rebuilds at once and every warm-up w, a run ends with exactly maximum + k + w pooled connections |
| PoolTightness.BoundIsExact | connection/pool_enhanced.go:601-649 | a number bounds the pool in all runs with at most k rebuilds at once and a warm-up of w if and only if it is at least maximum + k + w; the maximum itself if and only if k and w are zero |
| PoolTheorems.ClosesOwnedIff | connection/pool_enhanced.go:740-790 | in every run, a rebuild closes its connection under an owner if and only if the connection is not Idle at that step |
| PoolTheorems.GateDecidesOwnership | connection/pooled_connection.go:454-477 | a connection that is Idle when a rebuild passes the gate is never owned afterwards, and one that is not is owned at that moment |
| PoolTheorems.NeverOwnedAgain | connection/pooled_connection.go:64-102 | once a rebuild of an unowned connection has passed the gate it stays unowned for the rest of the run |
| PoolLooks.EveryLookWasMade | connection/pool_enhanced.go:729-760 | in every run a rebuilder comes to the gate only after finding the connection Idle and then unused, an evaluator to its verdict only after finding it unmarked, there, Idle and not under rebuild, and an owner executes only after finding it Acquired, each by a look of its own |
| PoolLooks.RoomWasSeen | connection/pool_enhanced.go:601-649 | in every run a thread sets out to create a connection only after finding the pool below its limit |
| PoolProgress.NobodyWaits | connection/pool_enhanced.go:546-1253 | from every state of every run each thread can end within five steps of its own while all others stand still |
| PoolMarks.NoNewMarker | connection/rebuild_manager.go:276-300 | after a rebuild has cleared the mark no thread newly gets to a place from which it could mark: its verdict, between the idle look and the rebuild look that precede it, or a check whose failure would mark |
| PoolMarks.MarkWonAgainIff | connection/pooled_connection.go:318-340 | a cleared mark can be won again in some continuation if and only if some thread already stands at its verdict, has seen the connection idle and not yet asked whether it is being rebuilt, or is in a check whose failure would mark |
| PoolMarks.WonOnceIfClearedAlone | connection/pooled_connection.go:480-503 | in every run in which no such thread is about when a rebuild clears the mark, the mark is won at most once |
| PoolWitnesses.MaximumCanBeExceeded | connection/pool_enhanced.go:796-840 | a run with maximum 1 and no warm-up that ends with two pooled connections |
| PoolWitnesses.BorrowerExecutes | connection/pool_enhanced.go:2748-2845 | a run in which a borrower executes on a connection and gives it back as good as new |
| PoolWitnesses.RebuildCanCloseOwned | connection/pool_enhanced.go:743-775 | a run in which a rebuild closes a connection borrowed after the idle check, the case of PoolTheorems.ClosesOwnedIff |
| PoolWitnesses.MarkCanBeWonTwice | connection/rebuild_manager.go:36-66 | a run in which an evaluator that judged too early wins the mark a second time |
| PoolWitnesses.EarlyLookCanMarkAgain | connection/rebuild_manager.go:276-300 | a run in which, after the clear, no thread is at its verdict or in a check, and one that had only seen the connection idle wins the mark a second time |
| PoolWitnesses.CheckCanMarkAgain | connection/pooled_connection.go:153-235 | a run in which a check that was under way during the rebuild wins the mark a second time |
| BatchRebuild.NoSendBlocks | connection/pool_enhanced.go:2316-2420 | in no reachable state does a send on the task or the result channel have to wait |
| BatchRebuild.ResultsDistinct | connection/pool_enhanced.go:2340-2446 | results always concern distinct connections of the batch and are never more than it |
| BatchRebuild.CompleteUnlessCancelled | connection/pool_enhanced.go:2316-2446 | without cancellation a finished batch has handled every connection exactly once |
| BatchRebuild.Terminates | connection/pool_enhanced.go:2316-2446 | every run is finite, with an explicit bound on its steps |
| BatchRebuild.NeverStuck | connection/pool_enhanced.go:2316-2446 | as long as the batch is not finished the dispatcher or a worker can move |
| BatchRebuild.PlacesStep | connection/pool_enhanced.go:2316-2420 | a step other than a send neither loses nor duplicates a connection |
| BatchRebuild.ReceivedInOrder | connection/pool_enhanced.go:2316-2401 | the workers receive the connections in the order of the batch, and the channel holds those sent and not received |
| BatchRebuild.ResultsAreTrue | connection/pool_enhanced.go:2336-2370 | in every run each result is what happened: a success was rebuilt successfully, a failure failed to rebuild or was skipped under a cancelled context |
| BatchRebuild.CancelledWorkerLeaves | connection/pool_enhanced.go:2336-2347 | a worker that finds the context cancelled reports that connection as failed, takes no other and leaves |
| BatchRebuild.AllCanBeSkipped | connection/pool_enhanced.go:2376-2401 | for every batch and crew a cancelled run finishes without a single result |
| BatchRebuild.Reachable | connection/pool_enhanced.go:2316-2420 | in every run every connection sent is in one place, and the crew is as large as configured, three by default, and never larger than the batch |
| BatchRebuild.DispatchOrder | connection/pool_enhanced.go:2376-2401 | the nested batch loops hand out every connection once and in order |
| BatchRebuild.Collect | connection/pool_enhanced.go:2408-2456 | successes and failures add up to the results; an error is returned exactly when there are results and none succeeded |
| TemplateChains.BuildTemplateChain | syncer/syncer.go:235-304 | the recursive search with its shared set and list computes the reference search, and each node carries the parents of its template and exactly the macros of its list, the last entry of a name counting |
| TemplateChains.ChainBuilder.Build | syncer/syncer.go:239-290 | one recursive call computes the reference visit of one template, on any store |
| TemplateChains.MacroMapCarries | syncer/syncer.go:272-275 | the map built from a list of macros has exactly the names of the list, each with the value of the last entry of that name |
| TemplateChains.ChainIsReachableSet | syncer/syncer.go:235-304 | on any graph, cycles included: it succeeds if and only if every reachable template can be fetched, and then the chain holds exactly the reachable templates, each once, at the length of a real parent path; a failure names a reachable template |
| TemplateChains.DepthsAreDistances | syncer/syncer.go:223-304 | a recorded depth is never below the distance, and all are distances if and only if no link of the chain is a shortcut |
| TemplateChains.UniquePathsGiveDistances | syncer/syncer.go:235-304 | when paths are unique, recorded depths are distances |
| TemplateOrders.RecordableIff | syncer/syncer.go:235-304 | some order of the parent lists records a template at depth n if and only if a parent path of length n without repetition leads to it |
| TemplateOrders.AlwaysExactIff | syncer/syncer.go:223-304 | every order of the parent lists records the distances if and only if every parent path without repetition is a shortest one |
| TemplatePairs.TogetherIsCompatible | syncer/syncer.go:235-304 | the depths one search records for two templates are the lengths of compatible paths: where the paths part, one does not lead to the end of the other |
| TemplatePairs.RecordableTogetherIff | syncer/syncer.go:235-304 | some order records two templates at given depths in one search if and only if compatible paths of these lengths exist |
| MacroMerges.MergeMacros | syncer/syncer.go:305-337 | fails exactly on an empty chain; otherwise every macro has the value its last entry in the host's list gives it, else that of a least-depth template defining it, else that of the global list, and no other macro is there |
| MacroMerges.MergeDecidesByLists | syncer/syncer.go:268-337 | on a chain that the search has built, that precedence holds on the macro lists of host, templates and globals themselves |
| MacroMerges.SortedOverlayEffective | syncer/syncer.go:313-337 | overwriting in any order of descending depth yields that precedence for every name |
| MacroMerges.NearestWins | syncer/syncer.go:170-176 | on a chain without shortcuts no reachable definition is nearer than the winning one |
| MacroMerges.NearestAlwaysWinsIff | syncer/syncer.go:305-337 | for one chain and given distances, the nearest definition wins for all macro contents if and only if recorded depths respect the distances |
| NearestMacros.NearestWinsIff | syncer/syncer.go:235-337 | on one hierarchy the definition at the least true distance wins for all macro contents if and only if every nearer template is recorded at a smaller depth |
| NearestMacros.NearestWinsInEveryOrderIff | syncer/syncer.go:170-176 | for all macro contents and all orders of the parent lists the nearest definition wins, as documented, if and only if of two compatible paths the one to the nearer template is always shorter |
| NearestMacros.ShortestPathsSuffice | syncer/syncer.go:170-176 | in particular it wins where every parent path without repetition is a shortest one |
| MacroMerges.ShortcutChain | syncer/syncer.go:235-304 | the chain the search builds for a host with a shortcut |
| MacroMerges.FarDefinitionCanWin | syncer/syncer.go:170-176 | a host whose directly linked template is recorded at depth 3 and loses to one two levels up, against the documented priority |
| LineChanges.ConfigSyncer.DetectChanges | syncer/syncer.go:475-497 | one event for each changed IP, of the right kind and with the right line, and none for unchanged ones |
| LineChanges.DiffIsRight | syncer/syncer.go:475-497 | a series of events is a diff if and only if each tells of a line that came, went or changed its digest, with the right line, each IP once, and no such IP is missing |
| LineChanges.ConfigSyncer.Sync | syncer/syncer.go:73-126 | stores the new lines, counts the version, and sends nothing from an empty configuration and the diff otherwise, each event with the new version |
| LineChanges.Manager.ProcessLineEvent | manager/manager.go:566-632 | only the list of the named router changes: an unknown line is appended by a creation, the first line with the IP is overwritten by an update and taken out by a deletion; a duplicate creation, an unknown update and an unknown deletion change nothing |
| LineChanges.Manager.ExpireRouter | manager/manager.go:640-664 | the delayed removal drops only a router whose list is empty, so no list changes |
| LineChanges.Manager.FullSync | manager/manager.go:435-496 | takes over the first configuration that is not empty among the first look and 150 checks, every line in its router's list, once; when the look fails or all are empty the lists stay as they were |
| LineChanges.Manager.GroupByRouter | manager/manager.go:478-485 | grouping by router puts every line in its router's list, once |
| LineChanges.AppliedAgrees | manager/manager.go:566-632 | one event keeps the lists in agreement with the configuration they stand for |
| LineChanges.AgreesIsFunctional | manager/manager.go:566-632 | the lists determine the configuration they agree with |
| LineChanges.DiffThenPatch | syncer/syncer.go:475-497 | applying the events of a diff takes lists agreeing with the old configuration to lists agreeing with the new one, if and only if equal digests mean equal lines and no updated line changes its router |
| LineChanges.DiffInAnyOrder | syncer/syncer.go:475-497 | every reordering of a diff is a diff, so the order of events does not matter |
| LineChanges.SyncCarriesManager | syncer/syncer.go:73-126 | what one synchronisation sends carries a manager along if and only if, besides, the old configuration was not empty or the new one is |
| DiffMerges.AppliedCell | manager/manager.go:566-632 | an event changes the lists for the router and the IP it names and for no other, and keeps every list free of doubles and foreign lines |
| DiffMerges.EveryMergeAgreesIff | syncer/syncer.go:73-126 | what two synchronisations in a row send takes the manager to the last configuration in every interleaving if and only if at each IP both orders of the two changes are safe: at most one change that finds its line, an update and a deletion without a move, a deletion and a creation under another router, or an update away and one back |
| LineChanges.LateCreationIsLost | syncer/syncer.go:73-126 | a line added after the configuration ran empty never arrives |
| LineChanges.MovedLineIsLost | manager/manager.go:598-612 | a line moved to another router stays in its old list with its old value |
| IntervalQueues.IntervalTaskQueue.Add | manager/interval_queue.go:117-121 | appends the line |
| IntervalQueues.IntervalTaskQueue.Remove | manager/interval_queue.go:81-90 | removes the first line with the IP, if any |
| IntervalQueues.IntervalTaskQueue.Contains | manager/interval_queue.go:92-101 | true if and only if a line with the IP is queued |
| IntervalQueues.IntervalTaskQueue.UpdateTask | manager/interval_queue.go:124-134 | replaces the first line with the same IP, if any |
| IntervalQueues.IntervalTaskQueue.ReplaceAll | manager/interval_queue.go:137-143 | holds exactly the new lines afterwards |
| IntervalQueues.RouterScheduler.OnLineCreated | manager/router_scheduler.go:434-457 | refines the creation step, which adds exactly this line if its IP is unknown (QueuedAfterCreate) |
| IntervalQueues.RouterScheduler.OnLineUpdated | manager/router_scheduler.go:468-501 | refines the update step, which leaves exactly the new value queued (QueuedAfterUpdate) |
| IntervalQueues.RouterScheduler.OnLineDeleted | manager/router_scheduler.go:504-515 | refines the deletion step, which takes out exactly this line (QueuedAfterDelete) |
| IntervalQueues.RouterScheduler.ExpireQueue | manager/router_scheduler.go:521-531 | drops exactly the queue of this interval if it is empty; no line is lost and no known line forgotten |
| IntervalQueues.RouterScheduler.OnLineReset | manager/router_scheduler.go:536-559 | refines the reset step, after which exactly the given lines are queued (QueuedAfterReset), on fresh queues |
| IntervalQueues.RouterScheduler.InitializeQueues | manager/router_scheduler.go:141-180 | distributes the lines, and the mismatch it checks for never occurs |
| IntervalQueues.RouterScheduler.CountQueued | manager/router_scheduler.go:161-169 | the queue sizes add up to the number of lines |
| IntervalQueues.DistributionIsByInterval | manager/router_scheduler.go:141-158 | the queue of an interval holds exactly its lines, in their order, and exists only if there are any |
| IntervalQueues.MovingUpdateKeepsIff | manager/router_scheduler.go:468-501 | an update that changes the interval keeps the partition if and only if the line is known and not queued under a third interval |
| IntervalQueues.AlwaysPartition | manager/router_scheduler.go:434-559 | along any sequence of create, update, delete, reset and expiry every queued line is in the queue of its interval, no IP is queued twice and every queued IP is known |
| IntervalQueues.QueuedAfterUpdate | manager/router_scheduler.go:468-501 | the new value takes the place of the old one in the right queue, no stale value stays queued and all other lines are untouched |
| IntervalQueues.QueuedAfterReset | manager/router_scheduler.go:536-559 | exactly the given lines are queued |
| Subscribers.ListIsTheOpenChannels | syncer/syncer.go:499-544 | in any interleaving the list is exactly the open channels, no channel is closed twice and nobody sends to a closed one |
| Subscribers.AllOrNothing | syncer/syncer.go:436-459 | a finished notification has attempted, on each channel, all its events once and in order, or none |
| Subscribers.AllSubscribersServed | syncer/syncer.go:436-459 | a notification that has gone through its events has attempted all of them on every listed channel |
| Subscribers.DeliveredInOrder | syncer/syncer.go:436-459 | at any moment what a channel has from one notification is an in-order subsequence of its events, none twice |
| Subscribers.DropsOnlyAtFullChannel | syncer/syncer.go:441-456 | in every run an event is dropped for a subscriber only after the same notification found that channel, at that event, holding 1000 events |
| Subscribers.DeliveredIsReceived | syncer/syncer.go:436-459 | in every run what was delivered to a channel has been received or waits in it, and never more than 1000 events wait |
| NotificationRuns.LogIsTrue | syncer/syncer.go:436-459 | in every run the log of a channel is exactly the sequence of sends and drops on it |
| NotificationRuns.NeverStuck | syncer/syncer.go:436-459 | a notification under way can always move, even when no subscriber receives |
| NotificationRuns.NotificationEnds | syncer/syncer.go:436-459 | from any moment on, a notification takes at most (2m + 1) steps for each event left and 2m + 2 more, with m subscribers |
| NotificationRuns.ClosedForGood | syncer/syncer.go:529-544 | a closed subscription stays closed and unlisted for the rest of the run and is not closed again |
| NotificationRuns.StoppedForGood | syncer/syncer.go:59-70 | the stop closes every channel, empties the list, happens once, and none of those channels is listed again |
| NotificationRuns.OneOfTwoServed | syncer/syncer.go:436-544 | a run with a subscriber that is served and one that has left before |
| Subscribers.Hub.Subscribe | syncer/syncer.go:499-521 | a new open channel joins the list |
| Subscribers.Hub.Close | syncer/syncer.go:529-544 | closes and unlists a listed channel, and does nothing to any other, so it is idempotent |
| Subscribers.Hub.Stop | syncer/syncer.go:59-70 | closes every listed channel and empties the list |
| Subscribers.KeptDelivers | syncer/syncer.go:436-459 | what a subscriber gets is the events at exactly the positions not dropped for it, in increasing order |
| Subscribers.Hub.NotifyAll | syncer/syncer.go:436-459 | every subscriber receives, after what it had, exactly the events at the positions not dropped for it, in order and each once |
| TaskPipeline.ReleasedExactlyOnce | manager/router_scheduler.go:303-398 | on every path a ping gives back its connection and its slot at most once, never before taking it, and by its end exactly as often as it took it |
| TaskPipeline.SlotsAreExact | manager/router_scheduler.go:303-398 | the slots taken are those of the pings in progress, giving one back never waits, connections held and tasks queued or executing never exceed the slots |
| TaskPipeline.OneAtATime | manager/router_scheduler.go:183-300 | every ping not submitted yet belongs to a queue of the scheduler, and no two of them to the same one |
| TaskPipeline.QueueFullIff | task/async_executor.go:82-104 | a submission finds the queue full in some run if and only if there are more slots than ten times the workers and an interval queue exists |
| TaskPipeline.NeverStuck | task/async_executor.go:131-153 | while the executor is not stopped an unfinished ping means that some ping can move |
| TaskPipeline.WorkIsBounded | task/async_executor.go:131-210 | pings take at most twelve steps each, so every ping finishes |
| TaskPipeline.OnlyQueuedAreLeft | task/async_executor.go:63-79 | after the stop no worker holds a ping, and once the scheduler's side is done exactly the queued pings keep a slot and a connection |
| TaskEnds.ListsAreDoneInFull | manager/router_scheduler.go:236-300 | in every run the worker of a queue ends a list of n lines after exactly n pings |
| TaskEnds.EverySignalIsHeardOnce | manager/interval_queue.go:40-60 | in every run the signals a ticker found room for are those heard and those waiting, and never more than 200 wait |
| TaskEnds.AlwaysInOrder | manager/router_scheduler.go:401-427 | queue workers leave only after the scheduler's stop signal, which precedes the executor's, its context's end and the close of its channel |
| TaskEnds.SilentForGood | manager/interval_queue.go:103-115 | a stopped queue sends no signal for the rest of the run |
| TaskEnds.StopCanReturn | manager/router_scheduler.go:401-427 | for every configuration some run's stop returns with everybody gone and no crash possible |
| TaskEnds.WaitsForEverIff | manager/router_scheduler.go:303-325 | after the close of the task channel a ping at the semaphore waits for ever under a live context, and the stop with it, if and only if every slot is held by a ping left in the queue |
| TaskEnds.SomeStopHangsIff | manager/router_scheduler.go:401-427 | some run's stop waits for ever if and only if there is an interval queue and there are no more slots than ten times the workers |
| TaskEnds.CancelFrees | manager/router_scheduler.go:303-313 | once the router's context is done a ping at the semaphore can end at once |
| TaskOrders.BegunInOrder | task/async_executor.go:82-153 | the workers begin the pings in the order of their submission, and what they have not begun is in the queue |
| TaskOrders.EveryEndIsExplained | manager/router_scheduler.go:303-398 | in every run a ping that ends without a slot or a connection saw the context done or was refused by the pool, and one that had a connection was executed or refused by the executor |
| TaskStops.CrashAfterCloseIff | task/async_executor.go:63-104 | from the close of the task channel on, some continuation sends on it if and only if a ping is getting a connection or submitting, or the context is live, some slot is not held by a queued ping, and a ping is on its way or a queue's worker can still begin one |
| TaskStops.SafeCloseNeverCrashes | task/async_executor.go:63-79 | a run whose stop closed the channel in any other state never sends on it; so too once all queue workers have left and no ping is on its way |
| TaskStops.SomeRunCrashesIff | manager/router_scheduler.go:401-427 | some run of a configuration sends on the closed channel if and only if it has a slot and an interval queue |
| TaskStops.CrashNeedsStop | task/async_executor.go:63-79 | a send on the closed task channel needs a stopped executor, a closed channel, a slot and an interval queue |
| TaskStops.StopCanCrash | manager/router_scheduler.go:401-427 | for every configuration with a slot and an interval queue, a run in which a ping sends on the channel the stop has closed |
| PingPaths.PingRunner.Submit | task/async_executor.go:82-104 | queues the task if there is room and the stop does not win; never waits |
| PingPaths.PingRunner.ExecuteIndividualPing | manager/router_scheduler.go:303-398 | ends queued with one slot and one connection, or finished with neither, and exactly when |
| PingPaths.PingRunner.ProcessTask | task/async_executor.go:156-210 | whatever the task answers and even if the callback panics afterwards, connection and slot are given back once |
| Aggregators.Aggregator.Submit | task/aggregator.go:146-160 | accepts exactly when there is room and the cancellation does not win, and never waits |
| Aggregators.Aggregator.ProcessEvent | task/aggregator.go:224-251 | without interference the buffer is below its size afterwards and a full one has gone to every handler |
| Aggregators.Aggregator.Flush | task/aggregator.go:278-324 | empties the buffer and gives it to every handler |
| Aggregators.Aggregator.HandleEvents | task/aggregator.go:327-369 | every handler receives the batch once |
| Aggregators.Aggregator.UpdateStats | task/aggregator.go:372-381 | counts the event once, as a success or as a failure |
| AggregatorRuns.PlacesStep | task/aggregator.go:191-369 | no step but an accepted submission adds a copy of an event, and none loses one, seen from any handler |
| AggregatorRuns.ExactlyOnce | task/aggregator.go:191-369 | for every handler the accepted copies of an event are queued, in one thread's hands, buffered or delivered; deliveries never exceed acceptances, whatever other handlers answer |
| AggregatorRuns.OnlyQueuedAreLost | task/aggregator.go:106-143 | after Stop each handler has received exactly the accepted events that nobody left in the queue |
| AggregatorRuns.NobodyReadsAClosedQueue | task/aggregator.go:106-143 | the queue is closed only when no worker and no timer is left |
| AggregatorStops.NeverStuck | task/aggregator.go:191-324 | somebody can move whenever a called Stop has not returned, or events are queued and there is a worker |
| AggregatorStops.WorkIsBounded | task/aggregator.go:191-324 | each event, tick and Stop costs at most as many steps as there are handlers plus six, under any interleaving |
| AggregatorStops.StopReturns | task/aggregator.go:106-143 | from every state of every run Stop, once called, returns without any further event or tick |
| AggregatorStops.NoEmptyBatch | task/aggregator.go:278-324 | no handler is ever called with an empty batch |
| AggregatorStops.TimerDelivers | task/aggregator.go:254-276 | a run in which an event that does not fill the buffer reaches every handler by the timer alone |
| AggregatorRuns.BufferBounded | task/aggregator.go:224-242 | the buffer never holds more than its size less one, plus one event for each worker |
| AggregatorRuns.BoundIsReached | task/aggregator.go:224-242 | for every configuration with a worker a run reaches that bound |
| AggregatorRuns.StatisticsAreExact | task/aggregator.go:372-402 | total equals success plus failed and lags behind the accepted events by the queue and at most one event for each worker |
| AggregatorRuns.StatisticsByOutcome | task/aggregator.go:372-381 | in every run the counter of successes, and that of failures, follows the accepted events of that outcome, behind by those queued and at most one for each worker |
| AggregatorRuns.ReceivedInOrder | task/aggregator.go:146-222 | the workers receive the events in the order of their submission, and what they have not received is in the queue |
| CircuitBreakers.CircuitBreaker.AllowRequest | connection/resilience.go:269-294 | admits when closed, when open past the retry time, and when half-open below the limit; only the second changes anything, to a fresh half-open phase |
| CircuitBreakers.CircuitBreaker.RecordResult | connection/resilience.go:297-351 | ignores late results when open; counts when closed and opens exactly on a failure that completes the run or the rate; when half-open a failure opens and the last needed success closes |
| CircuitBreakers.CircuitBreaker.Execute | connection/resilience.go:258-266 | runs the operation only if admitted, and then records its own outcome (ExecutionsMeanHistory) |
| CircuitBreakers.CountersMeanHistory | connection/resilience.go:269-368 | in any interleaving of admissions and results the counters are functions of the results since the last reset, and mode and admission are what these call for |
| CircuitBreakers.ExecutionsMeanHistory | connection/resilience.go:258-266 | after executions with any outcomes, one after the other, the breaker is what the outcomes of the admitted ones call for |
| CircuitBreakers.StaysClosedIff | connection/resilience.go:258-351 | a new breaker stays closed through a series of executions if and only if no failure among them completes a run of MaxFailures or, from MinRequests on, a share of failures at the threshold |
| CircuitBreakers.ClosedIsHealthy | connection/resilience.go:338-351 | in any interleaving, a breaker that is closed after a failure has fewer straight failures than the limit, and a share below the threshold or too few requests |
| CircuitBreakers.RefusesUntilTimeout | connection/resilience.go:278-286 | an open breaker ignores late results, refuses everything up to its retry time and admits the first request after it |
| CircuitBreakers.ClosesExactly | connection/resilience.go:316-325 | when the configuration allows it, the trial closes the breaker after exactly max(1, MinRequests) straight successes and admits every request before |
| CircuitBreakers.SequentialRecoversIff | connection/resilience.go:288-325 | successful executions one after the other can close a half-open breaker if and only if MinRequests is at most 1 or at most MaxRequests |
| CircuitBreakers.SpentRefusesMeanwhile | connection/resilience.go:288-289 | a half-open breaker that has used up its requests refuses everything as long as no result arrives |
| CircuitBreakers.NeverClosesInSequence | connection/resilience.go:288-325 | with MinRequests above both 1 and MaxRequests no number of successful executions one after the other closes it, and after max(1, MaxRequests) of them it is used up |
| CircuitBreakers.DefaultStaysHalfOpenInSequence | connection/resilience.go:489-495 | the default configuration refuses after five good trials made one after the other |
| BreakerTrials.OverlappingRecoversIff | connection/resilience.go:288-325 | when every result answers an admitted request, some of them admitted before the breaker opened, all are good and at most m are in flight, some run closes the breaker if and only if MinRequests is at most MaxRequests - 1 + m; where MaxRequests is not positive, if and only if it is at most m and at most one more than those early requests |
| BreakerTrials.SequentialIsOneInFlight | connection/resilience.go:258-325 | executions one after the other are the case of one request in flight |
| BreakerTrials.DefaultRecoversIff | connection/resilience.go:489-495 | under the default configuration the breaker can close again if and only if 26 requests can be in flight at once, however many of them are late |
| BreakerTrials.SpentRecoversIff | connection/resilience.go:288-325 | good results close a used-up breaker if and only if something is in flight and completes MinRequests; otherwise it refuses for ever |
| CircuitBreakers.TrialsInFlightIff | connection/resilience.go:288-289 | while no result arrives any number of trials is admitted, if and only if MaxRequests is at least 1 |
| Retries.ShouldRetry | connection/resilience.go:39-56 | true if and only if attempts are left and the error is retryable |
| Retries.NextDelay | connection/resilience.go:58-110 | zero before the first attempt, the interval of a fixed policy, the backoff of an exponential one, and with jitter within a twentieth of it |
| Retries.BackoffSteps | connection/resilience.go:58-72 | the backoff is the base first, then the delay before grown once, and the limit as soon as a step grows beyond it and ever after |
| Retries.GrowthRounds | connection/resilience.go:64-65 | a step multiplies by the factor and drops the fraction toward zero |
| Retries.EarlyExitIff | connection/resilience.go:63-70 | without jitter, leaving the loop early equals clamping at every step if and only if the factor is at least 1, the limit is 0 or the second delay is within the limit |
| Retries.MonotoneIff | connection/resilience.go:63-70 | without jitter and with a factor of at least 1 the delays never fall, if and only if the base is within the limit |
| Retries.JitterIsSmall | connection/resilience.go:73-76 | jitter changes a delay by at most a twentieth |
| Retries.JitterKeepsIff | connection/resilience.go:73-76 | jitter never lifts a delay, and so never above a limit it has reached, if and only if the delay is below 20 nanoseconds |
| Retries.Execute | connection/resilience.go:146-192 | calls the operation at most MaxAttempts times, and which calls are made and what is returned is decided by the first success, cancellation or final failure |
| Retries.AnswerIsUnique | connection/resilience.go:146-192 | the specified answer is unique and no call follows a success |
| OperationMetrics.QuiescentValues | connection/metrics.go:236-265 | under any interleaving of the compare-and-swap loops a quiescent state holds the sum and the maximum of the samples, and their minimum if all are positive |
| OperationMetrics.FailureMeansProgress | connection/metrics.go:243-264 | among positive samples a swap fails exactly when another one succeeded since the load, and then the value is strictly better than the one loaded |
| OperationMetrics.RetriesBounded | connection/metrics.go:243-264 | in every run no call's swaps of the minimum, or of the maximum, fail more often than there are calls |
| OperationMetrics.Metrics.RecordOperationDuration | connection/metrics.go:236-265 | with one thread: the new sum, minimum and maximum |
| OperationMetrics.RecordedMinIff | connection/metrics.go:243-252 | samples taken one after the other leave their minimum if and only if all are positive or the last one is zero |
| OperationMetrics.CanLeaveIff | connection/metrics.go:243-252 | the values that interleaved calls can leave as the minimum: exactly the minimum if all samples are positive, and every one of the samples if one is zero |

## Supporting facts

Short facts that follow directly from the definitions and carry the results above.

- `ConnectionStates.OperationalCanClose`: exactly the operational states can begin to close,
  and every state but Closed can be closed at once.
- `PoolMarks.MarkIsWonExactly`: a clear mark is won exactly by an evaluator that marks after its
  verdict or by a check that fails into a marking grade.
- `IntervalQueues.QueuedAfterCreate`, `IntervalQueues.QueuedAfterDelete`: exactly the new line is
  added if its IP was unknown; exactly the line with this IP and interval is taken out.
- `IntervalQueues.QueuedAfterExpiry`: an expiry changes nothing about what is queued.
- `IntervalQueues.InPlaceUpdateKeeps`: an update that keeps the interval keeps the partition.
- `IntervalQueues.DeletedIpIsNotRequeued`: a deleted IP stays known, so creating it again is
  ignored and it is queued nowhere.
- `CircuitBreakers.ClosedBelowLimit`: a closed breaker has fewer straight failures than the limit.
- `Retries.WithinLimitIff`: without jitter, from the second delay on the limit holds; it holds for
  all delays if and only if the base is within it.

## Left out

- Drivers, factories, the configuration server client, the result sender, logging, the configuration builder and the commands: input and output; their results are free choices of the steps.
- Real time, tickers, contexts: a step may find a timer fired or a context done whenever the code could.
- Shutdown of the connection pool, which closes connections under their owners: the pool theorems speak about runs before it.
- Connection ids are fresh, so the branch for a duplicate id in the creation code has no step.
- Driver pointers cleared by a rebuild, use statistics (`ActiveConnections`, warm-up failure count), traces and events of the pool.
- The thresholds of the rebuild strategies and of the cleaner: an evaluator may mark any idle connection it judged and a cleaner may drop any connection it sees, which covers every strategy.
- `MonitoredDriver.Connect`, `completeHealthCheck`, `replaceConnection`, `markConnectionForClosing`: unused paths; the state Connecting is therefore never entered.
- How batches are spaced in time in the batch rebuild; the outcome of each single rebuild is a free choice there.
- The digest of a line: an opaque number in the model; where equal digests must mean equal lines the lemma says so.
- Parsing of macro values and durations, the host and proxy queries around the template search.
- A failed fetch during a synchronisation, which changes nothing.
- MacroMerges.SortByDepthDescending: the library sort is replaced by an insertion sort; only its contract is used, so the merge is proved for every order of templates of equal depth. The reordering of the caller's slice in place is not modelled.
- LineChanges.Manager.FullSync: the refresh of the schedulers that follows the grouping is left out; the waiting between checks is a step of the caller's clock.
- NearestMacros.NearestWinsInEveryOrderIff: macros are placed on the recorded chain, whose shape does not depend on them; hosts on which some reachable template cannot be fetched get no chain and are excluded.
- BreakerTrials.OverlappingRecoversIff: failures, which open the breaker again, are not part of these runs; CountersMeanHistory covers them.
- LineChanges.Manager.ProcessLineEvent: the calls to the schedulers and the creation and removal of schedulers are not part of it; the interval queues are modelled on their own.
- IntervalQueues.RouterScheduler.OnLineUpdated: the slice that scheduler and manager share is a value of the scheduler here, so changes of the manager that show through it are not captured.
- TaskPipeline.OneAtATime: the contents of the interval queues are not tied to the pings: how many lines a worker finds at a signal is a free choice, and so is when its ticker fires. The queues are those that exist when the scheduler starts; the source gives later ones no worker.
- TaskPipeline.ReleasedExactlyOnce: a panic inside a task, which ends the program, is not a step.
- SubmitWithTimeout, the middlewares of the executor and the text parsers of the ping task.
- Aggregators.Aggregator.HandleEvents: the answer of a handler is only logged by the source, so it is no part of the result; in the interleavings it is a free choice.
- AggregatorRuns.NobodyReadsAClosedQueue: a submission after Stop may choose the closed queue and panic; submissions after the queue is closed are not steps of the model, and Stop is called once.
- Subscribers.DeliveredInOrder: the retry after a full channel is a step of its own, its time limit is a free choice.
- CircuitBreakers.CircuitBreaker.RecordResult: failure rates are exact rationals instead of floating-point numbers, and the state-change callback is left out.
- Retries.NextDelay: delays are exact reals rounded toward zero; rounding and overflow of the 64-bit types are not modelled.
- Retries.EarlyExitIff: negative delays and factors, which no configuration uses, are excluded there and in the monotonicity law.
- OperationMetrics.QuiescentValues: negative samples, which the clock does not give, are excluded. Overflow of the 64-bit sum is not modelled.
- DiffMerges.EveryMergeAgreesIff: events dropped on a full channel are not part of it (Subscribers.Hub.NotifyAll has them), and more than two synchronisations under way at once are not either.
- Counters and gauges of the metrics, their snapshots and exporters, load balancers, adapters, registry and error types: easy members.
