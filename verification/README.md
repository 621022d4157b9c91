# Verified model of kapture

kapture mirrors HTTP traffic into object storage and replays it, on one cluster or, through a hub and its spokes, on
many. This project models the parts of it in which something can go wrong that no single function shows, and proves
what the system promises about them with the Dafny verifier (Dafny 4.11, `dafny verify dfyconfig.toml`).

## What is modelled

**Distributed load tests** (`LoadTest*.dfy`, `Runs.dfy`, `Collections.dfy`). A transition system: the stored
resource with its compare-and-swap updates, the reconciler as a sequence of steps that can be abandoned anywhere,
the hub's registry with a bounded buffer per registration, the directive streams, the spokes with their shards, the
published list of load tests and the orphan collector. Users, hub restarts, re-registrations, lost directives, late
reports and the passage of time interleave freely. One load test is followed; directives for anything else appear as
`Other` and take up buffer space. A directive in the queue of a registration that has been replaced is not gone: the
watcher of that queue chooses between `done` and the queue at random (internal/hub/grpc_server.go:295-308), and a
sender may have looked the registration up before it was replaced (internal/hub/grpc_server.go:335-344). So a send
is two steps in the model, a look-up and an attempt to queue; a replaced queue lives on as long as its watcher, in
the memory of the hub's process; a crash of the hub leaves only what was already sent. Two processes of a spoke can
watch at the same time, as in a rolling update: each on a registration of its own, or both on the same one, whose
queue they then share (internal/hub/grpc_server.go:288-293, internal/spoke/hub_client.go:260-312). So a registration
has any number of streams, each in order and all of them drawing on one queue. Reads of the resource are fresh, and
one reconcile is in flight at a time, as the controller runtime arranges it.

The server keeps the reports of all load tests under string keys; the protocol has one phase per shard index.
`LoadTestRegistry.dfy` connects the two: the server's state, seen from one load test, is the protocol's hub, and
registering, deregistering, looking up, watching, queueing, taking, reporting and clearing are steps or runs of the
protocol. `LoadTestServer.dfy` makes the calls on the server itself, in any sequence, and sends with any calls
between the look-up and the attempt; every call ends with server and protocol in step. The names keep load tests and
shards apart (`HubServer.ReplayShardNameInjective`, `HubServer.ReplayKeyInjective`).

**The hub's registry** (`HubServer.dfy`, `Distribution.dfy`, `OrphanGC.dfy`, `Sums.dfy`). The RPC methods as a class
over the map of spokes and the channels of its registrations, the counters, the choice of spokes, the numbering of
shards, the split of the rate, the abort test and the collector's deletions.

**The data plane** (`Sharding.dfy`, `Preshard.dfy`, `PreshardRaw.dfy`, `PreshardOptions.dfy`, `Pacing.dfy`,
`ReplayEngine.dfy`). The 64-bit FNV-1a hash (section 2 of draft-eastlake-fnv) and the partition it makes of a
capture, presharding into slices, replaying slices with bounds, filters and limits, the two read loops with their
pacing, and the engine with one reader and many senders as a transition system.

**Writing and reading captures** (`Capture.dfy`, `Calendar.dfy`, `Text.dfy`, `Options.dfy`, `ObjectWriter.dfy`,
`CaptureReader.dfy`, `ReadFilters.dfy`, `RoundTrip.dfy`, `RoundTripCases.dfy`, `CapturePipeline.dfy`,
`Checkpoint.dfy`). Object keys and their sort order, the buffering writer under failing uploads, listing, pruning
and scanning, the agent's queue and drainer, and the checkpointer with every disk state a crash can find.

**Pipeline validation** (`Validation.dfy`). The five passes of the constraint checker.

Time is a number of nanoseconds, 0 being the zero time. Strings are sequences of characters; comparing them
character by character is the same as comparing their UTF-8 bytes. JSON is a pair of functions that are inverse to
each other and produce no line break (`Capture.Lawful`); compression is taken away again on reading and does not
appear. Clock readings, upload results, failures and the order in which maps are visited are parameters or choices.

## Where the code decides

- The comment on `splitRate` says that the shard rates sum exactly to the aggregate. They do only if there is at
  least one request per second and shard (`Distribution.RatesAddUp`).
- The comment in `Reconcile` calls the abort conditions monotonic. The duration is, the error rate is not; its totals
  can even fall, when a spoke registers anew (`Distribution.DurationAbortIsStable`,
  `Distribution.ErrorAbortSurvives`, `Distribution.ErrorAbortIsNotStable`).
- An accepted STOP does not by itself keep a spoke clean. `LoadTestScenario.AbortedYetReplaying` is a run in which
  the watcher of a replaced queue delivers its START afterwards, `LoadTestScenario.AbortedYetSharing` one in which two
  processes share a registration and the START overtakes the STOP on the other stream. `LoadTestExact.HarmlessExactly`
  gives the exact condition for any streams, `LoadTestExact.HarmlessExactlyAlone` the one for a single stream.
- The comment in `readLoop` says that all shards together reproduce the recorded aggregate. Each shard reproduces its
  own timeline, but starts it with its own first request (`Pacing.ShardTimeline`, `Pacing.ShardRunsAhead`).
- The feeder takes io.EOF for a normal end and the engine does not (`Pacing.BothPacers`).
- Objects are dated by their upload, not by their requests, so a read with time bounds can miss requests captured
  before midnight: it is complete if and only if no object that the bounds prune holds a matching request
  (`RoundTrip.ReadsWhatWasWritten`, `RoundTripCases.HiddenAtMidnight`).
- An upload that stored its object but reported an error is harmless only if it is repeated on the same date
  (`RoundTrip.ReadBackExactIff`, `RoundTripCases.ReadTwiceAfterRetry`), and keys sort in write order only until a
  number outgrows its six digits within a day (`RoundTrip.KeysAscendIff`, `RoundTripCases.MillionKeysOutOfOrder`).
- A failed checkpoint write is forgotten, since `dirty` was cleared before it
  (`Checkpoint.FailedFlushIsForgotten`, `Checkpoint.Checkpointer.Stop`).
- The slices of a presharded capture lie inside the capture's own directory and are listed with it, so after the run
  the raw capture reads every request twice (`PreshardRaw.RawReadDoubles`, `PreshardRaw.OneRequestReadTwice`).
- A limit counts before the hash filter but after the choice of a slice, and slices are dated by the presharding run,
  so a worker on a slice agrees with its hash-filtering twin only under a condition on limit and bounds
  (`PreshardOptions.WorkersAgreeIff`, `PreshardOptions.UnboundedWorkersAgreeIff`, `PreshardOptions.LimitPerSlice`).

## Model

| member | source | states |
|---|---|---|
| `LoadTestStop.StopSafety` | internal/hub/loadtest_controller.go:85-115 | In every reachable state after Aborted was persisted, or the finalizer released through a running server: every assigned spoke took the STOP or was not registered. On a spoke that kept the registration which took it, lost no STOP and had no START left from a replaced registration, working off the queue leaves no shard: in order, if the registration never had two streams at once; in any order and over any number of streams, if at the time of the answer no START was in the queue and none on a stream without a STOP behind it there. |
| `LoadTestStop.AbortedWasStopped` | internal/hub/loadtest_controller.go:219-248 | The Aborted phase is persisted only after a complete pass of accepted STOPs. |
| `LoadTestStop.OverForever` | internal/hub/loadtest_controller.go:109-115 | Once the load test has a terminal phase or is gone, no later step of any run queues a START. |
| `LoadTestExact.HarmlessExactly` | internal/hub/grpc_server.go:288-308 | When the load test is over, a registered spoke is rid of it in all continuations that keep the registration and lose no STOP, whatever streams are opened, if and only if no START is in the queue and none on a stream without a STOP behind it there, existing shards have a STOP coming, and no START is left from a replaced registration: none in a replaced queue that still has its watcher, and none already sent. |
| `LoadTestExact.HarmlessExactlyAlone` | internal/hub/grpc_server.go:295-308 | The same for the continuations in which the registration has one stream at a time: if and only if its queue, in order, leaves no shard and no START is left from a replaced registration. |
| `LoadTestExact.LeftStartIsDangerous` | internal/hub/grpc_server.go:295-308 | From any state with such a START there is a run to a state with an empty queue, the same registration, no loss, and a shard. |
| `LoadTestQueue.AfterLoss` | internal/hub/grpc_server.go:303-306 | Losing dequeued directives other than STOP never leaves more shards behind. |
| `LoadTestQueue.HandledLive` | internal/spoke/replay_directives.go:53-95 | START adds its shard if it is missing, STOP removes all shards of the load test on its spoke, and neither touches another spoke. |
| `LoadTestShards.HandledShards` | internal/spoke/replay_directives.go:53-95 | START creates a missing shard, waiting and born now, and leaves an existing one exactly as it is; STOP takes the shards of its spoke; no other shard changes. |
| `LoadTestShards.BornOfStart` | internal/spoke/replay_directives.go:65-72 | A shard appears only in a step in which a START for it arrives, with that START's count. |
| `LoadTestShards.LivesOn` | internal/spoke/replay_directives.go:82-95 | Over any run without a STOP or a collection on its spoke a shard goes on living. |
| `LoadTestShards.ShardEndures` | internal/spoke/replay_directives.go:77-79 | As long as a shard lives, over any steps of any party, resent STARTs among them, its count and birth stay, and once it is done or broken nothing about it changes. |
| `LoadTestShards.PhaseIsItsOwn` | internal/spoke/replay_directives.go:77-79 | Its phase changes at no step but its own. |
| `LoadTestShards.ResentStart` | internal/spoke/replay_directives.go:77-79 | A START resent for a running shard, concretely. |
| `LoadTestStop.FreshAck` | internal/hub/grpc_server.go:330-351 | A queued STOP settles its spoke: on one stream it undoes everything in front of it, and on several streams everything that already had a STOP behind it. |
| `LoadTestStop.StepKeepsStop` | internal/hub/loadtest_controller.go:410-431 | Every step of every party keeps the invariant behind stop safety. |
| `LoadTestScenario.AbortedYetReplaying` | internal/hub/grpc_server.go:173-176 | A concrete reachable state: aborted, STOP taken by a kept registration, nothing lost, queue worked off, and a shard of the load test. |
| `LoadTestScenario.AbortedYetSharing` | internal/hub/grpc_server.go:288-293 | The same with nothing left from a replaced registration: two streams share the registration, one has the START and the other the STOP, and the START is handled last. |
| `LoadTestPlan.PlanStability` | internal/hub/loadtest_controller.go:153-210 | In every reachable state all STARTs ever queued follow the one persisted plan; two for the same shard have the same spoke and count, and every shard stems from one. |
| `LoadTestPlan.PlanNeverReplaced` | internal/hub/loadtest_controller.go:155-189 | Over any run, crashes and failed updates included, a recorded plan is never replaced. |
| `LoadTestPlan.StepKeepsPlan` | internal/hub/loadtest_controller.go:326-337 | Every step keeps plan, STARTs, directives, shards and reports consistent. |
| `LoadTestAssignment.DistributionIsWellPlanned` | internal/hub/loadtest_controller.go:307-322 | What planning computes is a plan as the protocol needs it. |
| `LoadTestCompletion.CompletionSoundness` | internal/hub/loadtest_controller.go:435-532 | In every reachable state completed + failed is at most the number of shards, and Completed means that every shard has completed on the spoke that owns it. |
| `LoadTestCompletion.AggregateTruthful` | internal/hub/loadtest_controller.go:505-531 | There is at most one status per shard index, and aggregation enters Completed exactly when every shard has one and it is completed. |
| `LoadTestCompletion.AggregateDecides` | internal/hub/loadtest_controller.go:505-532 | Completed when every shard is done, Failed when every shard is over and one is broken, Running when neither holds and some shard is active, done or broken, otherwise no change; the counters are the numbers of shard indexes in the two phases. |
| `LoadTestCompletion.AggregateIff` | internal/hub/loadtest_controller.go:505-532 | The same as if-and-only-if conditions on the outcome. |
| `LoadTestCompletion.ReconcileDecides` | internal/hub/loadtest_controller.go:212-213 | In every reachable state the aggregation decides like that, with nothing assumed about the statuses. |
| `LoadTestCompletion.OneBrokenIsRunning` | internal/hub/loadtest_controller.go:519-530 | Three shards, one broken and one active: Running, with one failed shard. |
| `LoadTestReconcile.PassResends` | internal/hub/loadtest_controller.go:191-210 | A pass, interleaved with any steps of anybody, tries to send a START exactly once, in index order, for each shard that had no status when it began, and for no other. |
| `LoadTestReconcile.StartQueued` | internal/hub/loadtest_controller.go:326-337 | What an accepted START puts into its owner's queue, last in line, and that nothing else changes in the registry. |
| `LoadTestReconcile.StopPass` | internal/hub/loadtest_controller.go:404-432 | A pass of STOPs tries every assigned spoke once, in order, and is complete if and only if no full buffer refused one. |
| `LoadTestReconcile.OnlyGoingIsAborted` | internal/hub/loadtest_controller.go:541-545 | In every reachable state an abort is under way only if the load test was distributing or running by the statuses just read. |
| `LoadTestReconcile.DecisionStands` | internal/hub/loadtest_controller.go:219-263 | A load test found completed or failed is saved as such or the reconcile is given up. |
| `LoadTestReconcile.RefusedOrWaiting` | internal/hub/loadtest_controller.go:117-170 | A denied target is persisted as Failed, a missing server or spoke as Pending. |
| `LoadTestReconcile.PlannedIsPersisted` | internal/hub/loadtest_controller.go:171-189 | An accepted plan is persisted, with the phase Distributing, before anything is sent for it. |
| `LoadTestReconcile.VerdictIsFinal` | internal/hub/loadtest_controller.go:109-115 | Once Completed, Failed or Aborted is persisted, phase, plan and counters never change again in any run. |
| `LoadTestReconcile.FailureIsReal` | internal/hub/loadtest_controller.go:519-528 | In every run without a denied target, Failed means that every shard was over on its spoke and one was broken. |
| `LoadTestCompletion.Pigeonhole` | internal/hub/loadtest_controller.go:462-490 | Terminal statuses never outnumber the shards, and as many completed ones as shards means one for each. |
| `LoadTestCleanup.CollectorSparesTheLiving` | internal/spoke/orphan_gc.go:39-77 | In every reachable state a collection on a list read at most the minimum age ago deletes no shard of a load test that still exists. |
| `LoadTestCleanup.CleanupAfterDeletion` | internal/spoke/orphan_gc.go:14-26 | Every fair unending run in which the load test is deleted ends without a directive or shard of it, whatever was lost and whoever restarted, also when directives vanish with a crashed hub or a replaced queue. |
| `LoadTestCrash.CleanupAfterCrash` | internal/spoke/orphan_gc.go:14-26 | There is such a fair run in which the hub crashes after the deletion: the queued STOP is gone, the shard survives the crash, and the collector takes it. |
| `LoadTestCrash.FairFromThere` | internal/spoke/orphan_gc.go:14-26 | Every finite run that ends with the load test gone, nothing in flight, a server and its one spoke registered goes on as a fair unending one. |
| `LoadTestCleanup.GoneShrinks` | internal/hub/grpc_server.go:255-275 | After the deletion no step adds a directive, every delivery or loss takes one away, and only a delivery can add a shard. |
| `LoadTestCleanup.RegistryInFlight` | internal/hub/grpc_server.go:134-200 | Starting, stopping and crashing hubs, registering and deregistering never add to the directives that may still reach a spoke. |
| `LoadTestCleanup.GoneCollect` | internal/hub/controller.go:317-334 | A collection on a list read after the deletion takes every shard of its spoke that is old enough. |
| `LoadTestCollector.CollectRefines` | internal/spoke/orphan_gc.go:39-77 | What the collector does to the replays in a cluster, seen from one load test, is the protocol's collection on that list. |
| `LoadTestCollector.HeardWhenPublished` | internal/hub/grpc_server.go:213-216 | A spoke hears the list that is published at that moment, and only if it is registered. |
| `LoadTestCollector.NothingHeardBeforePublishing` | internal/hub/grpc_server.go:236-252 | From any reachable state without a server no spoke hears a list before the next one is published. |
| `LoadTestCleanup.NextKeepsTime` | internal/hub/grpc_server.go:245-253 | What a published list can show fits the times at which the load test was created and removed. |
| `LoadTestRegistry.KeyTells` | internal/hub/grpc_server.go:791-793 | The key of a report tells whether it is about the load test and about which of its shards. |
| `LoadTestRegistry.PhasesReported` | internal/hub/grpc_server.go:430-432 | Seen by shard index, one report changes the phase of just its shard, and nothing if it is about another load test. |
| `LoadTestRegistry.StartRefines` | internal/hub/grpc_server.go:81-92 | In every reachable state without a server, a new server with its empty registry corresponds to the protocol's step. |
| `LoadTestRegistry.RegisterRefines` | internal/hub/grpc_server.go:161-200 | Registering, also over an existing registration, is the protocol's step, and the states still correspond. |
| `LoadTestRegistry.DeregisterRefines` | internal/hub/grpc_server.go:256-275 | The same for deregistering. |
| `LoadTestRegistry.LookUpShown` | internal/hub/grpc_server.go:335-341 | The look-up finds the protocol's registration or nobody, and what it finds is the spoke's. |
| `LoadTestRegistry.QueueRefines` | internal/hub/grpc_server.go:343-350 | The attempt to queue is the protocol's step with the same answer, whether the registration is still the spoke's or was replaced since the look-up. |
| `LoadTestRegistry.WatchRefines` | internal/hub/grpc_server.go:288-293 | A new stream on the registration that was found, next to others or not, is the protocol's step. |
| `LoadTestRegistry.TakeRefines` | internal/hub/grpc_server.go:295-308 | A watcher that takes a directive, from the present queue or a replaced one, alone or next to others, makes the protocol's step on its stream. |
| `LoadTestRegistry.ReportsRefine` | internal/hub/grpc_server.go:411-436 | The reports of one call, on whatever load tests, are a run of the protocol's reporting steps of that spoke, which ends in the state that either RPC leaves behind, caches, captures and heartbeat included. |
| `LoadTestRegistry.ClearRefines` | internal/hub/grpc_server.go:771-783 | Clearing the statuses of the load test is the protocol's; clearing those of another one changes nothing for it. |
| `LoadTestRegistry.StatusesAreView` | internal/hub/grpc_server.go:748-766 | The returned list has exactly one entry for every shard in the protocol's view, with its phase, and no other. |
| `LoadTestRegistry.CountStatuses` | internal/hub/loadtest_controller.go:462-477 | The counting loop finds the numbers of completed, failed and running shards of the protocol's view. |
| `LoadTestServer.Start` | internal/hub/grpc_server.go:81-92 | Server and protocol start in step, in every reachable state without a server. |
| `LoadTestServer.RegisterSpoke` | internal/hub/grpc_server.go:161-200 | The call on the server is the protocol's step, none if it is refused, and the two stay in step. |
| `LoadTestServer.DeregisterSpoke` | internal/hub/grpc_server.go:256-275 | The same for deregistering. |
| `LoadTestServer.Heartbeat` | internal/hub/grpc_server.go:203-243 | The call on the server is a run of reports of that spoke, and the answer carries the published list. |
| `LoadTestServer.ReportReplayStatus` | internal/hub/grpc_server.go:411-436 | The same for replay reports. |
| `LoadTestServer.ReportCaptureStatus` | internal/hub/grpc_server.go:382-408 | Capture reports are no step of the protocol. |
| `LoadTestServer.ClearOther` | internal/hub/grpc_server.go:771-783 | Neither is clearing the statuses of another load test. |
| `LoadTestServer.ClearOnRelease` | internal/hub/loadtest_controller.go:85-93 | Clearing them after the STOPs for the deletion were taken is the protocol's step towards the release. |
| `LoadTestServer.ServeAll` | internal/hub/grpc_server.go:161-436 | Whatever calls the server takes in whatever order, the protocol has a run that ends in step with it, and no registration ever changes its owner. |
| `LoadTestServer.QueueAcross` | internal/hub/grpc_server.go:330-351 | With any calls between the look-up and the attempt, a directive goes to the registration that was found, whatever became of it, with the protocol's answer; the empty name is refused. |
| `LoadTestServer.OpenStream` | internal/hub/grpc_server.go:288-293 | Watching is the protocol's step on the registration found, and none if there is no registration. |
| `LoadTestServer.TakeNext` | internal/hub/grpc_server.go:295-308 | Taking from the channel of the registration that was found, replaced or not, is the protocol's step on that stream. |
| `LoadTestServer.ReadAndCount` | internal/hub/loadtest_controller.go:194-213 | Reading the statuses from the server and counting them gives the numbers that decide the phase. |
| `OrphanGC.Cluster.Collect` | internal/spoke/orphan_gc.go:39-77 | Deletes exactly the replays whose load test is not on the list and that are old enough, except where the deletion is refused; replays without a load test stay; a failed listing changes nothing. |
| `OrphanGC.KeysAreExact` | internal/spoke/orphan_gc.go:45-48 | The keys of the active set tell load tests apart. |
| `HubServer.ReplayShardNameInjective` | internal/spoke/replay_directives.go:203-207 | Shards with the same name are the same shard of the same load test. |
| `HubServer.ReplayKeyInjective` | internal/hub/grpc_server.go:791-793 | Reports with the same key are about the same replay of the same load test. |
| `HubServer.Server.RegisterSpoke` | internal/hub/grpc_server.go:161-200 | Closes the channel of a previous registration, never one that is closed already, and starts afresh: an entry with the given cluster, cell and time, no reports and counts of 0, and an empty queue; the replaced queue stays as it is. |
| `HubServer.Server.DeregisterSpoke` | internal/hub/grpc_server.go:256-275 | Removes the registration and closes its channel; a registration is in the map exactly as long as its channel is open. |
| `HubServer.Server.Heartbeat` | internal/hub/grpc_server.go:203-243 | Merges the reports, keeps the cached number of active replays equal to a recount, and answers with the published list. |
| `HubServer.Server.SetActiveLoadTests` | internal/hub/grpc_server.go:248-253 | Publishes the list and whether it is complete, and touches nothing else. |
| `HubServer.Server.ReportReplayStatus` | internal/hub/grpc_server.go:411-436 | The same for replay reports; empty and unknown senders change nothing. |
| `HubServer.Server.ReportCaptureStatus` | internal/hub/grpc_server.go:382-408 | The same for capture reports. |
| `HubServer.Server.LookUp` | internal/hub/grpc_server.go:335-341 | Finds the spoke's open registration, if it has one. |
| `HubServer.Server.TrySend` | internal/hub/grpc_server.go:343-350 | Queues last in line, never beyond the buffer, in the channel of the registration that was found, even if it has been replaced. |
| `HubServer.Server.TakeDirective` | internal/hub/grpc_server.go:303-306 | A watcher gets what has waited longest. |
| `HubServer.Server.QueueDirective` | internal/hub/grpc_server.go:330-351 | The two together, with nothing in between: says which of the three failures it was. |
| `HubServer.Server.ClearReplayStatuses` | internal/hub/grpc_server.go:771-783 | Every spoke forgets the load test and nothing else, and the caches are right again. |
| `HubServer.Server.ReplayStatuses` | internal/hub/grpc_server.go:748-766 | Returns every status of the load test, each once, for any order of the maps. |
| `HubServer.MergedLast` | internal/hub/grpc_server.go:430-432 | Of several reports on a replay in one call the last one counts. |
| `HubServer.MergedUntouched` | internal/hub/grpc_server.go:430-432 | A replay without a report keeps its status. |
| `HubServer.CaptureKeyInjective` | internal/hub/grpc_server.go:787-789 | Capture reports with the same key are about the same capture. |
| `HubServer.MergedCaptureLast` | internal/hub/grpc_server.go:399-402 | Of several reports on a capture in one call the last one counts. |
| `HubServer.MergedCaptureUntouched` | internal/hub/grpc_server.go:399-402 | A capture without a report keeps its status. |
| `HubServer.ForgottenExactly` | internal/hub/grpc_server.go:771-783 | What a spoke has left after clearing: exactly the statuses of other load tests, with a right count. |
| `HubServer.CountActiveReplays` | internal/hub/grpc_server.go:796-806 | Counts the replays that are neither completed nor failed, for any order of the map. |
| `HubServer.ConnectedSpokeCount` | internal/hub/grpc_server.go:592-604 | The number of spokes heard from within the timeout. |
| `HubServer.ActiveCaptureCount` | internal/hub/grpc_server.go:607-616 | The sum of all captures. |
| `HubServer.ActiveReplayCount` | internal/hub/grpc_server.go:620-629 | The sum of all active replays. |
| `HubServer.CellStatuses` | internal/hub/grpc_server.go:670-701 | One row per cell in name order, each with the numbers of just its spokes. |
| `HubServer.CellsAddUp` | internal/hub/grpc_server.go:592-701 | At one instant the rows of the cells add up to the three global counters. |
| `HubServer.Server.SelectSpokes` | internal/hub/grpc_server.go:713-738 | On the server's own map: the connected spokes of the wanted cells, in ID order, up to the maximum. |
| `HubServer.ChosenIff` | internal/hub/grpc_server.go:713-738 | Without a maximum a spoke is chosen, with its cell, if and only if it was heard from within the timeout and its cell is one of the wanted ones, however many these are. |
| `HubServer.RegisterAndSelect` | internal/hub/grpc_server.go:161-200 | A spoke that has just registered is chosen, with the cell it registered under, if and only if that cell is wanted or any will do, for 90 seconds. |
| `HubServer.HeartbeatAndSelect` | internal/hub/grpc_server.go:218-221 | A heartbeat keeps a spoke eligible for another 90 seconds. |
| `HubServer.SelectedAreConnected` | internal/hub/grpc_server.go:670-738 | Without a maximum, planning takes exactly as many spokes of a cell as its row of the cell statuses counts as connected. |
| `HubServer.AllSelectedAreConnected` | internal/hub/grpc_server.go:592-604 | Without cells either, exactly as many as the global counter. |
| `Distribution.SelectSpokes` | internal/hub/grpc_server.go:713-738 | The first eligible spokes in ID order, up to the maximum, for any order of the registry. |
| `Distribution.SelectionUnique` | internal/hub/grpc_server.go:709-712 | The selection depends on the registry alone. |
| `Distribution.PlanDistribution` | internal/hub/loadtest_controller.go:307-322 | Spoke i gets the indexes from i times the workers on, as many as there are workers. |
| `Distribution.CountShards` | internal/hub/loadtest_controller.go:589-595 | The number of shards is the number of owners. |
| `Distribution.DenseIndexes` | internal/hub/loadtest_controller.go:283-284 | The indexes are 0 to spokes times workers - 1, each carried by exactly one assignment, whose spoke owns it. |
| `Distribution.ExactlyOneWorker` | internal/plugin/replay/engine.go:212-222 | Every request is replayed by exactly one shard on exactly one of the distinct selected spokes. |
| `Distribution.RatesAddUp` | internal/hub/loadtest_controller.go:572-587 | The shard rates add up to the larger of the aggregate and the number of shards, and so to the aggregate if and only if it is not the smaller one. |
| `Distribution.RatesAreEven` | internal/hub/loadtest_controller.go:569-587 | No two shard rates differ by more than 1, the larger ones are on the lower indexes, and none is below 1. |
| `Distribution.TenByFour` | internal/hub/loadtest_controller.go:569-587 | Ten requests per second for four shards are 3, 3, 2 and 2. |
| `Distribution.TooLongExactly` | internal/hub/loadtest_controller.go:547-552 | A run is too long from the first moment after its maximum on, and never without one. |
| `Distribution.TooManyErrorsExactly` | internal/hub/loadtest_controller.go:554-567 | The error test holds exactly when the percentage, as a quotient, is above the limit in a large enough sample. |
| `Distribution.DurationAbortIsStable` | internal/hub/loadtest_controller.go:547-552 | An abort for duration stays one. |
| `Distribution.ErrorAbortSurvives` | internal/hub/loadtest_controller.go:554-567 | An abort for errors survives a change of the totals, upwards or downwards, if and only if the change does not use up its excess and leaves a large enough sample. |
| `Distribution.ErrorAbortIsNotStable` | internal/hub/loadtest_controller.go:217-218 | An input on which an abort for errors is taken back. |
| `Sharding.Fnv1aVectors` | internal/plugin/replay/engine.go:206-210 | The hash has two published values of FNV-1a. |
| `Sharding.Fnv1aOfTwo` | internal/plugin/replay/engine.go:206-210 | A published value for two bytes. |
| `Sharding.Utf8Reads` | internal/plugin/replay/engine.go:208 | The bytes that are hashed are UTF-8: every character can be read back from them (section 3 of RFC 3629). |
| `Sharding.ShardIsRemainder` | internal/plugin/replay/engine.go:209 | The shard is the remainder of the hash by the number of shards. |
| `Sharding.ExactlyOneOwner` | internal/plugin/replay/engine.go:217-231 | Exactly one shard owns a request, and it is the one the index function names. |
| `Sharding.SlicesDisjoint` | internal/plugin/replay/engine.go:212-216 | No request is in the slices of two shards. |
| `Sharding.SlicesPartition` | internal/plugin/replay/engine.go:203-206 | The slices together are the capture, each request as often as it was captured. |
| `Preshard.Preshard` | internal/dataset/preshard.go:52-120 | A successful run has read the selection once and without an error, and closed every slice over exactly the requests its shard owns, in order, with the right counts. |
| `Preshard.SliceReadsFiltered` | internal/dataset/preshard.go:34-40 | Reading slice i of n gives exactly what the hash filter keeps of the source, in the same order. |
| `Preshard.WorkersAgree` | internal/spoke/replay_runner.go:232-236 | After a run over a capture, a worker on a slice without options replays what its hash-filtering twin replays from the capture as it was before the run. |
| `PreshardOptions.WorkersAgreeIff` | internal/spoke/replay_runner.go:148-263 | With any time bounds, filters and limit the two replay the same if and only if, of the shard's matching requests, those the twin gets to lie on the same side of the bounds in both places, and the slice shows none of the rest or the shard's requests alone fill the limit. |
| `PreshardOptions.UnboundedWorkersAgreeIff` | internal/plugin/replay/reader_s3.go:135-139 | Without time bounds: if and only if the limit is out of reach, or the first requests up to it are all the shard's, or all of the shard's are among them. |
| `PreshardOptions.BoundedRead` | internal/plugin/replay/reader_s3.go:315-338 | A readable capture, read with any options, gives the matching requests whose objects are dated within the bounds. |
| `PreshardOptions.LateSlicesAreEmpty` | internal/plugin/replay/reader_s3.go:315-338 | A worker whose slice was written outside its time bounds replays nothing. |
| `PreshardOptions.LimitPerSlice` | internal/plugin/replay/reader_s3.go:135-139 | Two requests, two shards, limit 1: the second shard's slice gives its request, the hash filter gives it none. |
| `Preshard.CountsAddUp` | internal/dataset/preshard.go:42-46 | The counts add up to the total, and the slices together are the source. |
| `Preshard.SlicePrefixesDisjoint` | internal/dataset/preshard.go:38-40 | No key lies under two slice prefixes of a capture. |
| `Preshard.SliceNames` | internal/spoke/replay_runner.go:151-154 | The names of slices, concretely. |
| `PreshardRaw.RawReadDoubles` | internal/plugin/replay/reader_s3.go:297-310 | After a run, a reader of the raw capture gets every request of it twice, and no error. |
| `PreshardRaw.RawReadUnchangedIff` | internal/dataset/preshard.go:34-40 | So the raw capture reads as before if and only if it is empty. |
| `PreshardRaw.AllSlicesHold` | internal/dataset/preshard.go:42-46 | The objects of all slices together hold the source, each request as often as it was captured. |
| `PreshardRaw.OneRequestReadTwice` | internal/dataset/preshard.go:38-40 | A concrete store: one request, two slices, and the raw capture reads it twice. |
| `Pacing.ReadLoop` | internal/plugin/replay/engine.go:233-318 | Emits the transformed requests of the shard in order, each waiting for its predecessor among those emitted; skipped and dropped requests count but do not move the clock. |
| `Pacing.Feed` | internal/replayengine/feeder.go:117-194 | Sends the requests of the shard in order, with the same waits if it paces and with offsets from the first known time. |
| `Pacing.BothPacers` | internal/replayengine/feeder.go:127-150 | Without transformers engine and paced feeder agree on requests, waits, skips and outcome if and only if the reader does not end with io.EOF. |
| `Pacing.PacersAgree` | internal/replayengine/feeder.go:149-194 | The emitted sequences and waits are the same. |
| `Pacing.OneTickEach` | internal/plugin/replay/engine.go:289-296 | At a constant rate every request takes exactly one tick, and nothing sleeps. |
| `Pacing.NoWaiting` | internal/plugin/replay/engine.go:236-242 | Without a rate, or unlimited, nothing is waited for. |
| `Pacing.UnpacedFeeder` | internal/replayengine/feeder.go:149-194 | A feeder that leaves pacing to its engine waits for nothing. |
| `Pacing.OffsetsAt` | internal/replayengine/feeder.go:149-194 | The k-th offset counts from the first request with a known time, and is 0 for an unknown one. |
| `Pacing.TotalGapIsElapsed` | internal/plugin/replay/engine.go:296-309 | The waits emitted add up to the recorded time. |
| `Pacing.Timeline` | internal/plugin/replay/engine.go:258-261 | With known times the k-th request of a shard never comes early, and comes exactly on time if and only if the recorded times up to it never go back. |
| `Pacing.SleepsAtScale` | internal/plugin/replay/engine.go:296-309 | Every sleep is for the gap to the request before, at the configured scale. |
| `Pacing.ScaledTimeline` | internal/plugin/replay/engine.go:296-309 | With the time scale: what the loop sleeps until the k-th request is at least the scaled recorded time since the first, with equality if and only if the recorded times never go back. |
| `Pacing.LastingIsProduct` | internal/plugin/replay/engine.go:300 | A recorded time at a scale lasts their product. |
| `Pacing.ShardTimeline` | internal/plugin/replay/engine.go:258-261 | On a capture in order, a shard is ahead of an unsharded replay by the difference of their first times, and so in step with it if and only if these are equal. |
| `Pacing.ScaledShardTimeline` | internal/plugin/replay/engine.go:296-309 | With the time scale, it is ahead by the scaled difference. |
| `Pacing.ShardRunsAhead` | internal/plugin/replay/engine.go:258-261 | Two requests a second apart: a shard with only the second one sends it a second too early. |
| `ReplayEngine.ReplayConservation` | internal/plugin/replay/engine.go:146-190 | For every interleaving of the reader and any number of senders: skipped and filtered are the numbers of requests with that verdict, errors and sent the numbers of answers with and without an error, and together they are what was read; every forwarded request has exactly one result; as many results are failures as answers came without a result or with a failed one. |
| `ReplayEngine.InCaptureOrder` | internal/plugin/replay/engine.go:154-175 | Senders take requests in the order in which they were forwarded, and a single sender also records its results in it. |
| `ReplayEngine.NeverFarAhead` | internal/plugin/replay/engine.go:155-156 | With n senders at most 3n + 1 forwarded requests are without a result at any time. |
| `ReplayEngine.NextKeeps` | internal/plugin/replay/engine.go:320-348 | Every step keeps each forwarded request in exactly one place and the counters right. |
| `ReplayEngine.NextProgresses` | internal/plugin/replay/engine.go:164-175 | Every step lowers a measure, so no run goes on for ever. |
| `ReplayEngine.NotStuck` | internal/plugin/replay/engine.go:155-177 | Until all senders have left, some step is possible. |
| `ReplayEngine.ForwardedIsRead` | internal/plugin/replay/engine.go:256-285 | What the interleaved engine forwards, skips and filters is what the read loop on its own emits, skips and filters. |
| `ReplayEngine.Summarize` | internal/plugin/replay/plugin.go:346-390 | The total is the number of results and the sum of successes and failures; every status code and error category has exactly its count. |
| `ObjectWriter.BufferedObjectWriter.Write` | internal/storage/interface.go:113-135 | Appends one line and flushes when the buffer is full or the interval over; the invariant of the writer holds whatever becomes of the upload. |
| `ObjectWriter.BufferedObjectWriter.Flush` | internal/storage/interface.go:137-146 | Uploads the buffer as the next object or leaves everything as it was. |
| `ObjectWriter.BufferedObjectWriter.Close` | internal/storage/interface.go:148-162 | Closes only over an empty buffer. |
| `ObjectWriter.FlushKeepsValid` | internal/storage/interface.go:164-184 | A flush, successful, refused or stored with an error, keeps numbers, contents and backend consistent. |
| `ObjectWriter.NothingLost` | internal/storage/interface.go:113-184 | The uploaded texts in sequence order followed by the buffer are all accepted lines. |
| `ObjectWriter.LifetimeValid` | internal/storage/interface.go:100-184 | The invariant holds over any sequence of calls with any upload results, and a closed writer has nothing buffered. |
| `ObjectWriter.LifetimeAccepts` | internal/storage/interface.go:113-135 | The accepted requests are those of the writes made while the writer was open. |
| `ObjectWriter.WriteUploadsIff` | internal/storage/interface.go:113-135 | A Write uploads if and only if the buffer is full with its line or the last flush is too long ago; then everything buffered is one object, or stays buffered if the upload fails. |
| `ObjectWriter.BufferStaysSmall` | internal/storage/interface.go:128-132 | As long as uploads succeed the buffer stays below its limit over any calls. |
| `ObjectWriter.FlushRestartsClock` | internal/storage/interface.go:164-184 | A flush restarts the clock, also with nothing to upload, but not if the upload fails. |
| `ObjectWriter.ClosedIsFinal` | internal/storage/interface.go:122-154 | A closed writer refuses writes and flushes, may be closed again, and never changes. |
| `ObjectWriter.CloudNamesSeparate` | internal/storage/interface.go:225-249 | Object keys with different numbers differ, whatever the dates. |
| `ObjectWriter.FilesystemNamesSeparate` | internal/storage/interface.go:237-249 | The same for the names of the filesystem backend. |
| `Capture.NextKeyOrder` | internal/storage/interface.go:243-249 | Consecutive keys sort in write order if and only if the date moved on or the number does not grow longer. |
| `Text.PaddedSuccessor` | internal/storage/interface.go:248 | A zero-padded number sorts before its successor if and only if the successor is not longer. |
| `Capture.TrimOnly` | internal/storage/interface.go:226 | Trimming takes away nothing but the given characters, and only at the ends. |
| `Capture.PodNames` | internal/storage/interface.go:243-248 | A blank agent name becomes unknown-agent, any other loses the blanks around it. |
| `Capture.LineEnds` | internal/plugin/replay/reader_s3.go:273-279 | Carriage returns at line ends are dropped, and lines from 10 MiB on are too long. |
| `Calendar.CivilIsGregorian` | internal/storage/interface.go:232 | The date of a day agrees with the Gregorian day count. |
| `Calendar.ParseFormat` | internal/plugin/replay/reader_s3.go:321-322 | The date written into a key is the date read from it. |
| `Calendar.FormatOrder` | internal/storage/interface.go:232 | Printed dates sort as the days they stand for. |
| `RoundTrip.LifetimeRoundTrip` | internal/plugin/replay/reader_s3.go:116-163 | After any calls and flush points with uploads that fail without storing, dates that do not go back, fewer than a million objects and a successful Close, a reader gets exactly the written requests in write order. |
| `RoundTrip.ReadsWhatWasWritten` | internal/plugin/replay/reader_s3.go:183-219 | With any options, time bounds included, a reader gets exactly the accepted requests that match, in order, if and only if no object that the bounds prune holds a matching request. |
| `RoundTrip.ReadsAllOfTheDay` | internal/plugin/replay/reader_s3.go:315-338 | So with any options, when every request was uploaded on the date it was captured on. |
| `RoundTrip.LifetimeReadIff` | internal/plugin/replay/reader_s3.go:315-338 | Over a whole lifetime: with any options the matching requests come back if and only if none of them was uploaded on a date outside the bounds. |
| `RoundTripCases.HiddenAtMidnight` | internal/plugin/replay/reader_s3.go:315-338 | A request captured just before midnight and uploaded just after it matches the bounds and is not read. |
| `RoundTrip.KeysAscendIff` | internal/plugin/replay/reader_s3.go:217 | The keys of one writer sort in write order if and only if no number outgrows its padding within a day. |
| `RoundTripCases.MillionKeysOutOfOrder` | internal/storage/interface.go:248 | A million objects on one date do not sort in write order. |
| `RoundTrip.RetryExtends` | internal/storage/interface.go:175-183 | A retry on the same date overwrites the object of an upload that stored it and failed with an extension of its content. |
| `RoundTrip.ReadBackExactIff` | internal/storage/interface.go:164-184 | With such uploads every request is read back once if and only if each was overwritten by its retry. |
| `RoundTripCases.ReadTwiceAfterRetry` | internal/storage/interface.go:164-184 | An upload that stored its object with an error and was retried on the next date: one request accepted, more than one read. |
| `CaptureReader.ListObjects` | internal/plugin/replay/reader_s3.go:183-219 | The kept data keys of all pages, in ascending order. |
| `CaptureReader.ManifestsAreSkipped` | internal/plugin/replay/reader_s3.go:199-207 | Manifests are never listed, whatever the options. |
| `CaptureReader.Reader.Open` | internal/plugin/replay/reader_s3.go:97-114 | A reader is opened once, and then has everything in the listed objects before it. |
| `CaptureReader.Reader.Next` | internal/plugin/replay/reader_s3.go:116-163 | Hands out the next matching well-formed request, or ends at the limit, at a line too long, at an object that cannot be opened, or after the last object. |
| `CaptureReader.Drain` | internal/plugin/replay/reader_fs.go:78-122 | Calling Next again and again ends, and gives the first Limit matching lines of the sorted objects. |
| `ReadFilters.PathFilter` | internal/plugin/replay/reader_s3.go:356-358 | With only a path prefix a line is handed out if and only if its path is the prefix followed by some text. |
| `ReadFilters.VerbFilter` | internal/plugin/replay/reader_s3.go:359-370 | With only verbs: if and only if its verb is one of them up to the case of ASCII letters. |
| `ReadFilters.TimeFilters` | internal/plugin/replay/reader_s3.go:350-355 | With only a time bound: if and only if its time is not before the start, or not after the end. |
| `ReadFilters.AllFilters` | internal/plugin/replay/reader_s3.go:349-373 | Any options hand out exactly what each of the four filters hands out. |
| `ReadFilters.FilteredRoundTrip` | internal/plugin/replay/reader_s3.go:116-163 | A finished capture read with any options gives exactly the written requests that were asked for, in order, if and only if none of them was uploaded on a date outside the bounds. |
| `ReadFilters.PathExamples` | internal/plugin/replay/reader_s3.go:356-358 | Prefix /api: /api/users is read, / is not. |
| `ReadFilters.VerbExamples` | internal/plugin/replay/reader_s3.go:359-370 | Verbs POST and GET: get is read, PUT is not. |
| `ReadFilters.TimeExamples` | internal/plugin/replay/reader_s3.go:350-355 | The bounds themselves are inside. |
| `CaptureReader.PruningLosslessIff` | internal/plugin/replay/reader_s3.go:315-338 | Pruning keeps the object of a request under all options the request matches if and only if its key carries no date or the date of the request. |
| `CaptureReader.WrittenKeyDate` | internal/plugin/replay/reader_s3.go:320-333 | The date a reader finds in a written key is the date of the upload, unless the prefix or capture ID has a date in it. |
| `CapturePipeline.PipelineInvariant` | internal/agent/handler.go:77-129 | For every interleaving: finished calls = filtered + dropped + enqueued, and the drainer has passed exactly the first requests that entered, in order. |
| `CapturePipeline.CountersTellWhatHappened` | internal/agent/handler.go:77-129 | Over any run each of the counters for arrivals, filtered, dropped and enqueued requests is the number of such steps. |
| `CapturePipeline.RoomDecides` | internal/agent/asyncwriter.go:64-76 | A request is enqueued if there is room, dropped if there is none, and refused once Close has begun. |
| `CapturePipeline.StorageErrors` | internal/agent/writer.go:71-95 | A write error is counted if storage refuses the write or the flush its batch calls for, not for the ticker's flushes; a batch is flushed when it is full, and not before. |
| `CapturePipeline.BatchesStaySmall` | internal/agent/writer.go:83-90 | Unless a flush is due, fewer writes are pending than make a batch. |
| `CapturePipeline.ClosedStoresEverything` | internal/agent/asyncwriter.go:97-137 | When Close returns no error the committed objects hold every request ever enqueued, once and in order, also those whose write was counted as an error. |
| `CapturePipeline.CaptureRoundTrip` | internal/agent/writer.go:71-116 | What the handlers enqueued is what a reader of the finished capture gets. |
| `CapturePipeline.NoStrays` | internal/storage/s3.go:84-122 | Uploads that fail without storing leave no object behind. |
| `Checkpoint.CrashAtomicity` | internal/plugin/replay/checkpoint.go:221-256 | A crash of a running checkpointer, in any disk state it went through, finds no checkpoint or one complete snapshot: the progress of some earlier time. |
| `Checkpoint.RenameMayBeUndone` | internal/plugin/replay/checkpoint.go:245-249 | After the rename a crash finds the file from before or the new one, so both are covered. |
| `Checkpoint.UnsyncedMayBeTorn` | internal/plugin/replay/checkpoint.go:236-243 | A crash can find a torn file exactly if the contents were not synced, which the steps exclude. |
| `Checkpoint.PersistedNeverGoesBack` | internal/plugin/replay/checkpoint.go:221-256 | The file is never replaced by earlier progress, so its counters never go down as long as no update lowers one. |
| `Checkpoint.Checkpointer.WriteStep` | internal/plugin/replay/checkpoint.go:230-249 | One step of writing, completed or failed, with updates in between: the file changes only at the rename, and then to the copy that was taken. |
| `Checkpoint.Checkpointer.BeginFlush` | internal/plugin/replay/checkpoint.go:207-219 | Copies the progress and clears the flag before anything is written. |
| `Checkpoint.Checkpointer.Update` | internal/plugin/replay/checkpoint.go:154-162 | Any progress is recorded, also between two steps of a flush, and marks the checkpoint as unwritten. |
| `Checkpoint.Checkpointer.Stop` | internal/plugin/replay/checkpoint.go:165-179 | When Stop reports success, the file is the latest progress if and only if it was still unwritten or its write had not failed. |
| `Checkpoint.FailedFlushIsForgotten` | internal/plugin/replay/checkpoint.go:207-220 | For every stage a flush can fail at, a following Stop reports success with no checkpoint on disk. |
| `Validation.ValidatePipeline` | internal/plugin/validation/registry.go:62-90 | Every error is real, every conflict and every contended resource is reported, and there is no error if and only if the pipeline is valid. |
| `Validation.CheckUnknown` | internal/plugin/validation/registry.go:107-124 | No error if and only if every plugin is registered. |
| `Validation.CheckConfigs` | internal/plugin/validation/registry.go:126-142 | No error if and only if every config is accepted. |
| `Validation.CheckConflicts` | internal/plugin/validation/registry.go:144-180 | Every pair of plugins present that conflicts, by the declaration of either, has exactly one error, and so there is none if and only if no two conflict. |
| `Validation.CheckOrdering` | internal/plugin/validation/registry.go:182-224 | No error if and only if every position respects every before and after constraint. |
| `Validation.CheckResources` | internal/plugin/validation/registry.go:226-276 | Every pair of plugins of which one claims for itself what the other claims too has exactly one error, and so there is none if and only if there is no such pair. |
| `Validation.AcceptedIsAcyclic` | internal/plugin/validation/registry.go:182-224 | In a valid pipeline the ordering constraints among the plugins present form no cycle. |

## Left out

- Re-creating a load test under the name of a deleted one: the protocol follows one incarnation of the resource.
- LoadTestCleanup.CleanupAfterDeletion: assumes that after the deletion directives in flight do not stay there for ever (they are delivered, lost, or gone with a crash of the hub or a replaced queue) and that a spoke with shards keeps collecting on ever newer lists; a spoke that never comes back keeps its shards.
- LoadTestCleanup.CollectorSparesTheLiving: creation times are as precise as the clock; Kubernetes cuts them to seconds.
- Spec edits other than a change of version, conditions, events, request counters and start times of a load test; that the abort policy strikes is a choice in the protocol.
- The shard controller's jobs: a shard moves freely between waiting and running until it is done or broken.
- HubServer.Server: broadcasts, listing RPCs and certificates; entries are values in the map, and only the channels outlive a registration.
- LoadTestRegistry.ReportsRefine: assumes that a spoke reports phases its shards have been in, under the names their STARTs gave them, as internal/spoke/replay_controller.go:331-345 arranges it.
- LoadTestServer.Heartbeat: the same assumption about its reports.
- LoadTestServer.ReportReplayStatus: the same assumption about its reports.
- LoadTestServer.ServeAll: the same assumption about reports; the reconciler's clearing of the load test itself is a step of its own (LoadTestServer.ClearOnRelease), not one of the calls that may come at any time.
- ReadFilters.VerbFilter: beyond ASCII, `strings.EqualFold` also folds the case of other letters.
- PreshardOptions.WorkersAgreeIff: equal requests in objects on both sides of the time bounds; with one of each the two workers could agree by replaying one for the other.
- Distribution.PlanDistribution: 32-bit overflow of indexes and counts, and negative worker numbers, which the resource's schema excludes.
- Pacing.ReadLoop: cancellation, tickers and the rounding of scaled delays to nanoseconds.
- Pacing.Feed: failing sends; the report folded from engine events.
- ReplayEngine.ReplayConservation: cancelled runs, and senders that return neither a result nor an error. A sender may return a result without error together with an error, so sent need not equal the successes.
- ReplayEngine.Summarize: times, bytes, mean and percentiles.
- CapturePipeline.PipelineInvariant: a Write in flight while Close begins, AsyncWriter.Flush, body truncation and header redaction. Handler, queue and writer are one transition system rather than classes, because their steps interleave.
- Preshard.Preshard: manifests, digests, and what a failed run leaves behind.
- ObjectWriter.BufferedObjectWriter: encoding and compression errors; a second writer of the same capture and pod, whose numbers start again.
- CaptureReader.Reader: stores that change while they are read, resuming from a key, and manifests.
- Key cleaning: `path.Join` and `filepath.Join` also remove empty, `.` and `..` components, which the keys here are taken not to have.
- Checkpoint.Checkpointer: the JSON text, and directories that do not take a rename as a whole.
- Plugin registration, the error messages of the checker, and how often an unknown or misplaced plugin is reported.
- Adapters for other engines, mirror filters, deployments, dashboards, command lines and history databases.
