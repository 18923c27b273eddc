# ESPHome Device Builder: verified models

Dafny models of the parts of the ESPHome Device Builder where protocols and graph
algorithms live, with the properties they are meant to have.  `dafny verify
dfyconfig.toml` checks the whole project.

Asyncio code runs without interruption between two awaits.  Each concurrent
component is therefore a step machine, one step per stretch of code between awaits,
with the steps of all its tasks interleaved freely; where a class is given too, its methods
are proved to be steps of the machine.  Algorithms that loop and mutate are methods with loops, proved against
functions and predicates of their inputs.

| module | models |
|---|---|
| `WakeWorker` | the background worker: request, start, stop, drain cycle |
| `DeviceIndex`, `DeviceScanner` | the four-map device index, the directory scan and its change events |
| `ListenerLifecycle` | the remote-build listener: converge, teardown, reload, shutdown, backed-off retry |
| `EditorSession` | the editor's warm validator process, its pipe and its result cache |
| `BrokerElection`, `MonitorRegistry` | which login broadcasts to a broker, when silence counts, and which monitors run |
| `RequiresClosure`, `FullSetupBundles` | prerequisites and full-setup bundles of the board catalog |
| `LightSchemas` | which light schema a platform's source leads to |
| `Survivors` | which extracted candidates land in an imported manifest |
| `BusLift`, `BusSeeds`, `BusDeps`, `ExpanderHubs`, `LocalIds` | lifting buses and I/O-expander hubs from a device page |
| `ValidationGate` | repairing or refusing imported boards until they validate |
| `Lists`, `Optional`, `TextOrder` | shared vocabulary |

## What does not hold

Each of these has a lemma or method that exhibits it, and a theorem that says exactly when the property holds.

- A worker started while a `stop` is still waiting escapes that `stop`, and two workers can then lose a request
  (`WakeWorker.SpawnDuringStopOrphans`, `WakeWorker.OverlappingStartLosesItem`).
- A client that stores a setting or a pairing and disconnects before its converge has decided leaves the listener as it
  was, with nothing left to correct it (`ListenerLifecycle.DisconnectKeepsListener`); a pairing put back to pending converges
  nothing at all (`ListenerLifecycle.DemotedPairingKeepsListener`).  A retry that is owed survives every disconnect (`ListenerLifecycle.RetryIsSingleAndOwed`).
- `reload_identity` runs the converge outside the handler that arms the retry; if reading the settings raises, a wanted
  listener stays down (`ListenerLifecycle.RaisingReloadStrands`).  `ListenerLifecycle.SettledMatchesPolicy` has the exact condition for all of these.
- A disconnect while the old runner is cleaned up leaves pin and port of a closed listener advertised
  (`ListenerLifecycle.DisconnectKeepsAdvertising`; exactly then by `ListenerLifecycle.LockFreeConsistency`).
- A cancellation that lands in the cleanup of a failed validation, at the drain of the exit line and so before stdin is closed,
  frees the session with a line owed; the next caller can then get the previous text's verdict, and after no other cancellation
  (`EditorSession.CancelledCleanupMisanswers`, `EditorSession.CancelBeforeCloseMisanswers`).
- Resuming the coordinator while one of its stops waits for the lock or runs without it can orphan a monitor, and that or
  resuming during a teardown whose keys were cleared can make the pass raise (`MonitorRegistry.ResumeDuringStopOrphans`,
  `MonitorRegistry.EmptiedRegistryRaises`; exactly then by `MonitorRegistry.ResumeOrphansIff`, `MonitorRegistry.ResumeRaisesIff`).
- On a cycle, a flattened prerequisite list can place a component before something it requires indirectly
  (`RequiresClosure.FullyOrderedIffAcyclic`, `RequiresClosure.CycleBreaksDeepOrder`).
- An item's own id can read like the number a later item falls back to, which `_assign_local_id` does not check against the ids
  in use; the earlier one can then survive without its reference (`Survivors.SharedLocalLosesReference`; exactly
  when by `Survivors.LocalsCollideIff` and `Survivors.ReferencesSurviveIff`).
- A leaf that names no bus loses its prerequisite when the sole bus was lifted by its id before, for another leaf or
  for a bus that rides on it (`BusDeps.TwoLeavesOnOneBus`; exactly then by `BusDeps.UnnamedIsStampedIff`).
- Two pins that name one id-less hub by two ids leave one of them unresolved (`ExpanderHubs.MaterializeHubs`, `ExpanderHubs.TwoNamesForOneBlock`).

## Model

| member | source | states |
|---|---|---|
| `WakeWorker.NothingLost` | esphome_device_builder/controllers/_wake_worker.py:33-151 | a requested item stays in one of the two sets until a pop that happens after the request, over every interleaving of requests, starts, stops, cancellations, crashes and restarts in which no worker is spawned while a stop is in flight |
| `WakeWorker.HeldIff` | esphome_device_builder/controllers/_wake_worker.py:33-151 | in those runs the two sets hold exactly what was requested and not popped since; nothing is popped that nobody asked for |
| `WakeWorker.NoLostWakeup` | esphome_device_builder/controllers/_wake_worker.py:117-151 | the two sets never overlap; outside a drain cycle the draining set is empty and pending work has the wake flag set |
| `WakeWorker.WakesAreEarned` | esphome_device_builder/controllers/_wake_worker.py:117-151 | the worker does not spin: between two wake-ups some step armed the flag |
| `WakeWorker.IdleMeansDone` | esphome_device_builder/controllers/_wake_worker.py:94-100 | under a registered worker the idle flag means nothing is queued, batched or in hand |
| `WakeWorker.DoneMeansIdle` | esphome_device_builder/controllers/_wake_worker.py:94-151 | conversely, once every request was popped and the worker is back at its wait, or there is no worker, idle is set, so `wait_idle` returns |
| `WakeWorker.InHandKeepsWaiters` | esphome_device_builder/controllers/_wake_worker.py:94-151 | `wait_idle` does not return while the worker has an item in hand |
| `WakeWorker.StartParksWaiters` | esphome_device_builder/controllers/_wake_worker.py:52-66 | nobody waiting after a `start` gets past it before the worker has come up |
| `WakeWorker.AtMostOneWorker` | esphome_device_builder/controllers/_wake_worker.py:52-81 | there is never a second live worker, and `stop` can reach the one there is |
| `WakeWorker.StopLeavesNoWorker` | esphome_device_builder/controllers/_wake_worker.py:68-81 | when a `stop` that found a worker returns, no worker is left and nobody is kept waiting |
| `WakeWorker.StopHaltsTheWorker` | esphome_device_builder/controllers/_wake_worker.py:68-81 | from the call of `stop` on, the worker it found takes no further item |
| `WakeWorker.StopCanReturn` | esphome_device_builder/controllers/_wake_worker.py:68-81 | a `stop` in flight can always return |
| `WakeWorker.WorkerCanReach` | esphome_device_builder/controllers/_wake_worker.py:117-151 | from any reachable situation a live, uncancelled worker can pop any held item by its own steps alone |
| `WakeWorker.SpawnDuringStopOrphans` | esphome_device_builder/controllers/_wake_worker.py:52-81 | a spawning `start` can end up out of the reach of `stop` if and only if a stop is in flight at that moment |
| `WakeWorker.OverlappingStartLosesItem` | esphome_device_builder/controllers/_wake_worker.py:68-81 | without that guard a run exists in which a requested item is in no set and no batch although nothing popped it |
| `WakeWorker.InvKept` | esphome_device_builder/controllers/_wake_worker.py:33-151 | the protocol's invariant survives every step of every task |
| `WakeWorker.Worker.RequestItem` | esphome_device_builder/controllers/_wake_worker.py:33-50 | the method's whole effect is the request step: an item already being drained is not queued twice |
| `WakeWorker.Worker.StartWorker` | esphome_device_builder/controllers/_wake_worker.py:52-66 | starting a live worker changes nothing; otherwise exactly one task is spawned |
| `WakeWorker.Worker.StopWorker` | esphome_device_builder/controllers/_wake_worker.py:68-81 | up to its await, `stop` cancels the live task and remembers it, or clears a dead one |
| `WakeWorker.Worker.StopResume` | esphome_device_builder/controllers/_wake_worker.py:68-81 | after its await, `stop` forgets the worker and reports idle |
| `WakeWorker.Worker.SwapPending` | esphome_device_builder/controllers/_wake_worker.py:83-92 | the whole pending set becomes the draining batch |
| `WakeWorker.Worker.FinishCycle` | esphome_device_builder/controllers/_wake_worker.py:132-151 | whatever a cycle did not process is queued again, and idle or the wake flag follows from what is left |
| `DeviceIndex.Index.Set` | esphome_device_builder/controllers/_device_scanner.py:220-244 | inserting or replacing a row keeps the four maps telling of the same rows |
| `DeviceIndex.Index.Pop` | esphome_device_builder/controllers/_device_scanner.py:246-253 | removing a row keeps the four maps telling of the same rows, and returns that row |
| `DeviceIndex.Index.GetByName` | esphome_device_builder/controllers/_device_scanner.py:187-190 | after any sequence of operations, a name lookup equals filtering and sorting the whole device list by file name |
| `DeviceIndex.Index.GetByConfiguration` | esphome_device_builder/controllers/_device_scanner.py:192-194 | the unique device of that file name, or none when no device has it |
| `DeviceIndex.Index.RebuildInPathOrder` | esphome_device_builder/controllers/_device_scanner.py:255-284 | refused exactly when the order misses an indexed path; otherwise only the order changes |
| `DeviceIndex.BucketIsPlainScan` | esphome_device_builder/controllers/_device_scanner.py:121-190 | a sorted bucket with the right members is the plain scan's answer |
| `DeviceIndex.SortedIsUnique` | esphome_device_builder/controllers/_device_scanner.py:220-244 | a bucket sorted by file name is determined by its members |
| `DeviceIndex.UnindexedAgrees` | esphome_device_builder/controllers/_device_scanner.py:286-295 | taking a row out of its bucket, and an emptied bucket out of the map, keeps names in step |
| `DeviceIndex.IndexedAgrees` | esphome_device_builder/controllers/_device_scanner.py:220-244 | inserting at the first position that does not sort lower keeps names in step |
| `TextOrder.LessIsTotal` | esphome_device_builder/controllers/_device_scanner.py:220-244 | the order file names are kept in is total and strict |
| `TextOrder.LessIff` | esphome_device_builder/controllers/_device_scanner.py:220-244 | the first character that differs decides by code point, and a proper prefix comes first |
| `DeviceScanner.Scanner.Scan` | esphome_device_builder/controllers/_device_scanner.py:455-493 | of every path: a file that is gone loses its row; a tracked one whose inode, device, mtime, size and known dependencies are as its key has them keeps row and key, and no event names it; any other is loaded, and unless that fails the row is the loaded one, the key has the listed stat and the fresh dependency stats, and just one kind of event tells it; folding all events gives exactly the device map |
| `DeviceScanner.Scanner.Reload` | esphome_device_builder/controllers/_device_scanner.py:373-433 | a reload refreshes or poisons exactly the named row, and is announced only when the row changed |
| `DeviceScanner.Scanner.Reorder` | esphome_device_builder/controllers/_device_scanner.py:480-493 | the re-keying at the end of a scan is never refused |
| `DeviceScanner.Scanner.FindPathByFilename` | esphome_device_builder/controllers/_device_scanner.py:216-218 | the linear search finds the path just when a row of that file name exists |
| `DeviceScanner.RescanLoadsFailures` | esphome_device_builder/controllers/_device_scanner.py:455-573 | a second scan of an unchanged directory loads just the files whose load failed; none after an all-successful scan |
| `DeviceScanner.QuietScan` | esphome_device_builder/controllers/_device_scanner.py:455-500 | a scan with nothing to load and nothing gone changes nothing and says nothing |
| `DeviceScanner.PoisonedIsReread` | esphome_device_builder/controllers/_device_scanner.py:413-433 | a row whose last reload failed is read by every scan that still lists its file |
| `DeviceScanner.ReloadSettles` | esphome_device_builder/controllers/_device_scanner.py:413-433 | after a reload a scan reads the file again if and only if it changed since the re-stat, or, where that failed, since the key the row had before |
| `ListenerLifecycle.ShutdownIsFinal` | esphome_device_builder/_remote_build_lifecycle.py:424-455 | once a call of `shutdown` has returned, no continuation of anything in flight, cancelled or not, leaves a listener bound or a timer armed |
| `ListenerLifecycle.ShutdownTakesDown` | esphome_device_builder/_remote_build_lifecycle.py:424-455 | and once all in flight after such a call has settled, cancelled calls included, the listener is down for good |
| `ListenerLifecycle.LockFreeConsistency` | esphome_device_builder/_remote_build_lifecycle.py:475-513 | at every lock-free point: the bound port is that of the runner, receiver role only when bound; and before shutdown pin and port are advertised just as bound, if and only if no cleanup of an advertised listener was cancelled since they were last set |
| `ListenerLifecycle.CompletedConvergeFits` | esphome_device_builder/_remote_build_lifecycle.py:333-363 | a converge or reload that runs to its verdict leaves no listener, or one in the role its policy asked for; a wanted listener is missing only when its build failed, and then a retry is armed |
| `ListenerLifecycle.RetryIsSingleAndOwed` | esphome_device_builder/_remote_build_lifecycle.py:324-386 | never two timers; after a verdict that owes a retry one is armed or a converge no client can cancel is in flight until the next verdict, whatever the clients cancel |
| `ListenerLifecycle.BackoffDoubles` | esphome_device_builder/_remote_build_lifecycle.py:365-376 | within a failure streak each retry waits twice as long as the one before it, up to an hour |
| `ListenerLifecycle.BackoffRestarts` | esphome_device_builder/_remote_build_lifecycle.py:353-376 | the first retry, and the first after any converge ended well, comes after half a minute |
| `ListenerLifecycle.SettledMatchesPolicy` | esphome_device_builder/_remote_build_lifecycle.py:301-422 | when everything in flight has settled, the listener is bound exactly when the current policy wants it, in the wanted role, if and only if: nothing is wanted, in case a teardown was left without its verdict; and otherwise the switch, and with the switch off the pairings, are still what the last verdict went by |
| `ListenerLifecycle.CalledConvergeIsFollowed` | esphome_device_builder/_remote_build_lifecycle.py:301-422 | let a command, a pairing event or a timer call a converge, and let nothing be stored and no converge be cancelled after it: once all has settled, the listener matches the policy if and only if no teardown was left without its verdict or nothing is wanted; and it matches if no reload raised since |
| `ListenerLifecycle.CallIsMade` | esphome_device_builder/_remote_build_lifecycle.py:388-398 | each of those leaves a converge in flight that has yet to read the policy |
| `ListenerLifecycle.RotatedKeyIsUsed` | esphome_device_builder/_remote_build_lifecycle.py:400-422 | once the reload of an identity rotation has settled, no listener runs under an earlier key, however converges raced it |
| `ListenerLifecycle.PortIsTheSockets` | esphome_device_builder/_remote_build_lifecycle.py:457-513 | the bound port is the one the last build was given |
| `ListenerLifecycle.DisconnectKeepsListener` | esphome_device_builder/controllers/remote_build/settings_receiver.py:123-125 | a reachable settled state in which the listener is bound although the stored setting is off: the client disconnected while its converge waited for the lock |
| `ListenerLifecycle.DisconnectKeepsAdvertising` | esphome_device_builder/_remote_build_lifecycle.py:475-513 | a reachable settled state in which pin and port of a closed listener are still advertised: the client disconnected while the old runner was cleaned up |
| `ListenerLifecycle.DemotedPairingKeepsListener` | esphome_device_builder/controllers/remote_build/pair_commands.py:226-280 | a reachable settled state in which a connect-back listener outlives the only approved pairing, which a new pairing request put back to pending |
| `ListenerLifecycle.RaisingReloadStrands` | esphome_device_builder/_remote_build_lifecycle.py:400-422 | a reachable settled state in which a wanted listener is down with nothing left to bring it back, after a raising identity reload |
| `ListenerLifecycle.InvKept` | esphome_device_builder/_remote_build_lifecycle.py:301-513 | the invariants survive every step, cancellations included |
| `ListenerLifecycle.RemoteBuildLifecycle.ScheduleConvergeRetry` | esphome_device_builder/_remote_build_lifecycle.py:365-376 | arms at most one timer, none after shutdown, with the delay of the current strike |
| `ListenerLifecycle.RemoteBuildLifecycle.Conclude` | esphome_device_builder/_remote_build_lifecycle.py:353-363 | the verdict clears the streak or arms a retry, and reports whether the listener is bound |
| `ListenerLifecycle.RemoteBuildLifecycle.BeginTeardown` | esphome_device_builder/_remote_build_lifecycle.py:475-499 | the runner, port and role are given up before the first await |
| `ListenerLifecycle.RemoteBuildLifecycle.BeginShutdown` | esphome_device_builder/_remote_build_lifecycle.py:424-440 | shutdown latches, unsubscribes and cancels the timer before it asks for the lock |
| `EditorSession.CacheIsNeverStale` | esphome_device_builder/controllers/editor.py:137-159 | a stored result is a line that some attempt read, under the hash of its text, and nothing was invalidated since that attempt began |
| `EditorSession.AttemptUsesFreshProcess` | esphome_device_builder/controllers/editor.py:165-209 | an attempt on text with component sources talks to a process created for just those sources, by a spawn that began after every invalidation before the attempt |
| `EditorSession.TalkingHasStarted` | esphome_device_builder/controllers/editor.py:165-209 | a process that takes requests has given its version line since it was created |
| `EditorSession.CondemnedIsReplaced` | esphome_device_builder/controllers/editor.py:165-280 | a process that did not start, whose attempt failed or was cancelled, or that idled, is never asked again: only a new one is |
| `EditorSession.AtMostTwoAttempts` | esphome_device_builder/controllers/editor.py:391-464 | a call reads at most two results, however often it is raced |
| `EditorSession.LockFreeMeansBoundary` | esphome_device_builder/controllers/editor.py:211-280 | while no call holds the lock, the reaper included, no process that takes requests has an unread line, unless a call was cancelled while its cleanup drained the exit line with the result still owed |
| `EditorSession.VerdictAnswersItsCaller` | esphome_device_builder/controllers/editor.py:466-516 | in every run, a call reads the line that answers it if and only if its process has not been told to exit |
| `EditorSession.MisreadIff` | esphome_device_builder/controllers/editor.py:391-516 | from any free session, the next caller can be given an earlier verdict if and only if a live process with its sources owes a line behind an exit line and its stdin is still open |
| `EditorSession.CancelBeforeCloseMisanswers` | esphome_device_builder/controllers/editor.py:211-235 | however a call gives up the lock, its successor can be misanswered if and only if the call was cancelled in the cleanup of a failed attempt, before stdin was closed, with its line owed, and the successor has the same sources |
| `EditorSession.HitAnswersItsHash` | esphome_device_builder/controllers/editor.py:339-464 | short of such a cancellation a cache hit serves a verdict for a text with the caller's hash, and a fallback verdict is on the caller's text |
| `EditorSession.CancelledCleanupMisanswers` | esphome_device_builder/controllers/editor.py:211-235 | one cancellation at the drain of the exit line is enough for the next caller to get, and cache, the verdict on the previous text |
| `EditorSession.ValidateWithRetry` | esphome_device_builder/controllers/editor.py:391-464 | at most two attempts whose round trips, failed ones counted, fit the timeout; a failed re-run falls back to attempt one's verdict, never cached |
| `EditorSession.Session.InvalidateCache` | esphome_device_builder/controllers/editor.py:137-159 | the whole effect is the invalidation step |
| `EditorSession.Session.Begin` | esphome_device_builder/controllers/editor.py:411-430 | a call that gets the lock is the first attempt's step |
| `EditorSession.Session.StartAttempt` | esphome_device_builder/controllers/editor.py:165-209 | an attempt takes the epoch, then talks to a matching process, or replaces or creates one |
| `EditorSession.Session.BeginTerminate` | esphome_device_builder/controllers/editor.py:211-224 | a terminate writes the exit line unless stdin is closed already |
| `EditorSession.Session.ReadResult` | esphome_device_builder/controllers/editor.py:440-464 | a result is stored only when nothing was invalidated since the attempt read the epoch; otherwise the one re-run begins if it is left and the budget allows it |
| `EditorSession.Session.Terminate` | esphome_device_builder/controllers/editor.py:211-235 | a completed terminate leaves no process, and goes on to the spawn it was making room for |
| `BrokerElection.ExactlyOnePublisher` | esphome_device_builder/controllers/_device_mqtt_coordinator.py:265-293 | after an election each endpoint with monitors has exactly one broadcaster |
| `BrokerElection.PublisherIsConnected` | esphome_device_builder/controllers/_device_mqtt_coordinator.py:265-293 | the broadcaster is connected whenever a sibling is |
| `BrokerElection.ElectionIsIdempotent` | esphome_device_builder/controllers/_device_mqtt_coordinator.py:265-293 | electing again changes nothing |
| `BrokerElection.SoleIncumbentIsKept` | esphome_device_builder/controllers/_device_mqtt_coordinator.py:265-293 | a connected incumbent keeps the role while no other connected login holds it |
| `BrokerElection.NoChurn` | esphome_device_builder/controllers/_device_mqtt_coordinator.py:265-293 | once elected, a connected broadcaster survives any coming and going of the others |
| `BrokerElection.TiesIff` | esphome_device_builder/controllers/_device_mqtt_monitor.py:133-150 | two logins of one broker tie only when they differ in nothing but a missing against an empty digest, which a digest never is |
| `BrokerElection.BeatsIff` | esphome_device_builder/controllers/_device_mqtt_monitor.py:133-150 | of two logins a connected one comes first, then the broadcaster, then the anonymous one, then the lower user name, the lower digest, and the one that checks names |
| `BrokerElection.Elect` | esphome_device_builder/controllers/_device_mqtt_coordinator.py:285-293 | the first key of an endpoint in the sorted order is the elected one, whatever the dictionary order |
| `BrokerElection.Coordinator.AssignPublishers` | esphome_device_builder/controllers/_device_mqtt_coordinator.py:265-293 | the flags become those of one election, connections are untouched, and each newly promoted monitor starts a fresh silence window |
| `BrokerElection.Coordinator.SetConnected` | esphome_device_builder/controllers/_device_mqtt_monitor.py:633-638 | a change of connection re-runs the election; a repeat does nothing |
| `BrokerElection.Monitor.SetPublisher` | esphome_device_builder/controllers/_device_mqtt_monitor.py:288-297 | promotion restarts the silence window, nothing else does |
| `BrokerElection.Monitor.Broadcast` | esphome_device_builder/controllers/_device_mqtt_monitor.py:570-595 | the first success after failures restarts the silence window |
| `BrokerElection.Monitor.SweepStale` | esphome_device_builder/controllers/_device_mqtt_monitor.py:602-609 | a device is turned offline only after a whole timeout of silence with no pause in polling in it |
| `MonitorRegistry.NothingIsOrphaned` | esphome_device_builder/controllers/_device_mqtt_coordinator.py:157-259 | a started monitor stays registered until its stop completes, over every interleaving of reconciles and stops in which the owner never resumes while a stop is in flight without the lock |
| `MonitorRegistry.QuietUntilResume` | esphome_device_builder/controllers/_device_mqtt_coordinator.py:240-259 | after `stop` returns under its latch, with the lock or without, no monitor runs or is registered until `resume` |
| `MonitorRegistry.PassEndsExactly` | esphome_device_builder/controllers/_device_mqtt_coordinator.py:179-238 | a pass with no pending reloads that ends leaves exactly the wanted keys, the kept ones under their old monitors |
| `MonitorRegistry.PassStartsMissing` | esphome_device_builder/controllers/_device_mqtt_coordinator.py:200-238 | and every monitor it made runs, as do all that ran and were not torn down |
| `MonitorRegistry.PassWithReloadsOnlyAdds` | esphome_device_builder/controllers/_device_mqtt_coordinator.py:195-207 | a pass with pending reloads only adds |
| `MonitorRegistry.LatchedStartsNothing` | esphome_device_builder/controllers/_device_mqtt_coordinator.py:179-219 | under the latch no stretch of a pass starts a monitor |
| `MonitorRegistry.ResumeOrphansIff` | esphome_device_builder/controllers/_device_mqtt_coordinator.py:157-259 | from any state of such a run, resuming can leave a running monitor out of the registry if and only if a stop is in flight that waits for the lock or went on without it |
| `MonitorRegistry.ResumeRaisesIff` | esphome_device_builder/controllers/_device_mqtt_coordinator.py:221-259 | and it can make a pass raise if and only if such a stop is in flight, or a pass is tearing down a key that is no longer registered |
| `MonitorRegistry.ResumeDuringStopOrphans` | esphome_device_builder/controllers/_device_mqtt_coordinator.py:157-160 | resumed while a stop still runs, a wedged pass starts a monitor that the stop then forgets |
| `MonitorRegistry.EmptiedRegistryRaises` | esphome_device_builder/controllers/_device_mqtt_coordinator.py:221-238 | a run in which the owner resumes only after its stops, and a pass that was tearing down raises on its next key |
| `MonitorRegistry.SettledNeverRaises` | esphome_device_builder/controllers/_device_mqtt_coordinator.py:221-238 | if every resume waits for both, no pass ever raises |
| `MonitorRegistry.Registry.AddWanted` | esphome_device_builder/controllers/_device_mqtt_coordinator.py:200-219 | the end of a pass registers and starts a monitor for each wanted key without one |
| `RequiresClosure.Flatten` | script/sync_boards.py:1187-1202 | for every finite graph, cyclic or not: exactly the nodes the root reaches except itself, once each; direct prerequisites first unless they close a cycle; everything first for a node on no cycle |
| `RequiresClosure.MeasureDrops` | script/sync_boards.py:1187-1202 | the measure under which the walk, guarded only by its ancestor stack, ends |
| `RequiresClosure.FlatteningIsClosed` | script/sync_boards.py:1187-1202 | a list already holds what the lists of its members hold |
| `RequiresClosure.FullyOrderedIffAcyclic` | script/sync_boards.py:1187-1202 | every prerequisite, however indirect, precedes its dependent if and only if no emitted node is on a cycle |
| `RequiresClosure.CycleBreaksDeepOrder` | script/sync_boards.py:1187-1202 | a three-edge graph in which a node is emitted before something it requires through a cycle |
| `RequiresClosure.DirectFeaturedRequires` | script/sync_boards.py:1161-1184 | authored prerequisites first, then exactly the siblings a reference field names, none twice |
| `RequiresClosure.EmittedIdIff` | script/sync_boards.py:1165-1169 | the id a component emits is its `id` field, where that is a string |
| `RequiresClosure.StampRequires` | script/sync_boards.py:1144-1158 | every component ends with the closure of the lists as they were before the pass |
| `FullSetupBundles.ConflictIsRefusal` | script/sync_boards.py:1258-1278 | two usages of one GPIO clash exactly when some recorded permission list of several is not all permissive |
| `FullSetupBundles.HasPinConflict` | script/sync_boards.py:1258-1278 | true if and only if two usages share a GPIO and one of them does not allow it |
| `FullSetupBundles.Board.Consolidate` | script/sync_boards.py:1208-1255 | a board with a combined setup ends with one bundle covering every featured id: the first covering one, else all members once, the old bundles' in their order, then the other components in theirs |
| `FullSetupBundles.KeepSplits` | script/sync_boards.py:1247-1248 | the members of a bundle are judged one by one and stay in order |
| `LightSchemas.Resolver.Resolve` | script/_light_schemas.py:35-70 | with a visited set shared by all branches the search returns what the plain search without memory returns, and ends on every reference graph |
| `LightSchemas.ResolveSchemaRef` | script/_light_schemas.py:35-70 | none exactly when no readable file the start reaches names a light schema; an answer is named by a file it reaches |
| `LightSchemas.FirstAnswerWins` | script/_light_schemas.py:35-70 | of several answers, that of the first file referred to wins |
| `LightSchemas.ReferencedOne` | script/_light_schemas.py:56-69 | a mentioned module is followed when it is a directory other than `light`, and its three files are tried in this order |
| `LightSchemas.SettledFindsNothing` | script/_light_schemas.py:35-70 | a file visited before cannot hold an answer the plain search would find |
| `LightSchemas.DeriveLightPlatforms` | script/_light_schemas.py:73-98 | each platform is listed under just the schema its source leads to |
| `Survivors.SelectSurvivors` | script/sync_esphome_devices.py:730-763 | the candidates, in order, whose local id some useful candidate leads to |
| `Survivors.KeptSplits` | script/sync_esphome_devices.py:750-763 | the candidates are judged one by one and stay in order, none twice |
| `Survivors.TargetsAre` | script/sync_esphome_devices.py:787-803 | just the id-typed fields of an item count as references, and of those what the map resolves |
| `Survivors.LastSpeaks` | script/sync_esphome_devices.py:744-749 | where candidates share a local id the last one speaks for it |
| `Survivors.SurvivorsAreLeast` | script/sync_esphome_devices.py:750-763 | the least set with every useful candidate that is closed under resolved references |
| `Survivors.UsefulIffPresetOrReference` | script/sync_esphome_devices.py:771-784 | a candidate is useful if and only if it has a field of its own or a resolved reference |
| `Survivors.BuildIdMap` | script/sync_esphome_devices.py:920-927 | each upstream id maps to the first candidate carrying it |
| `Survivors.AssignLocalIds` | script/sync_esphome_devices.py:805-883 | in turn, each item takes its own id when that is valid and unused, and else the number of its component, unchecked |
| `Survivors.OwnIdUnlessTaken` | script/sync_esphome_devices.py:862-883 | an item has its own id unless that is its domain's name or an earlier item's local id, and else its number |
| `Survivors.LocalsCollideIff` | script/sync_esphome_devices.py:862-883 | two items share a local id if and only if the later falls back to a number that reads like the earlier one's id, which within one component is that one's own |
| `Survivors.ReferencesSurviveIff` | script/sync_esphome_devices.py:730-763 | every survivor's resolved references survive if and only if those of the survivors whose local id another speaks for do |
| `Survivors.SelectionKeepsReferences` | script/sync_esphome_devices.py:700-763 | the second pass resolves a survivor's reference to the sibling the first pass saw if and only if that one survived, as it does unless the survivor's local id is another's too; it resolves none the first did not |
| `Survivors.SharedLocalLosesReference` | script/sync_esphome_devices.py:862-901 | three items as the page can have them, ids as assigned, in which one survives without the output it names |
| `LocalIds.UniqueLocalId` | script/sync_esphome_devices.py:1852-1860 | a fresh id: the stem when free, else the stem with the least free number from two; the search ends |
| `BusLift.LiftState.EnsureBuses` | script/sync_esphome_devices.py:1700-1726 | names just the buses the page supplies for the dependencies, each once, and pins those referred to by id; what it lifts, under which key and in what order, is a depth-first walk over the blocks; ends on cyclic dependencies |
| `BusLift.CoveredIff` | script/sync_esphome_devices.py:1665-1697 | the memo resolves a key the page can supply if and only if it was seeded or its block is already on that walk |
| `BusLift.LiftState.LiftBus` | script/sync_esphome_devices.py:1729-1742 | an unresolved key is lifted if and only if the page can supply it, and then resolves to the new entry |
| `BusLift.LiftableIff` | script/sync_esphome_devices.py:1863-1943 | the page supplies a bus for a key if and only if the key names a block, by its first id match or as the only block, the catalog has a bus or a provider of the domain for it, and its fields can be presented |
| `BusLift.LiftShowsItsBlock` | script/sync_esphome_devices.py:1935-1943 | a lifted bus has each field the page presets for its block, with the block's value, the `<bus>_id` of each supplied dependency as the block has it, the block's id if it has one, and no other field |
| `BusLift.LiftState.Add` | script/sync_esphome_devices.py:1729-1742 | the new entry's local id is fresh and comes from the block's id, else from its domain |
| `BusLift.LiftState.ChainBusDeps` | script/sync_esphome_devices.py:1753-1772 | a lifted bus ends up requiring, and pinned to, the buses it rides on |
| `BusLift.RegisterResolves` | script/sync_esphome_devices.py:1683-1697 | registering a bus makes its key and its block's id resolve to it and disturbs no resolved key |
| `BusLift.RegisterShrinks` | script/sync_esphome_devices.py:1729-1742 | each lift takes a key the page can supply out of the unlifted ones, before the recursion |
| `BusLift.NewSlot` | script/sync_esphome_devices.py:1665-1697 | a key the memo does not resolve names a block that was not lifted before, by id or without one |
| `BusLift.AddBusGood` | script/sync_esphome_devices.py:1729-1742 | a lift keeps ids fresh, names shipping entries only, and lifts no block twice |
| `BusLift.SuppliedDependencyShips` | script/sync_esphome_devices.py:1745-1772 | once the pass is over, each bus dependency of a lifted bus that the page supplies, by its `<bus>_id` or without one, ships and is required |
| `BusLift.SoleBlockById` | script/sync_esphome_devices.py:1877-1891 | a sole block is the same block by its id or by none |
| `BusSeeds.SeedBusLocal` | script/sync_esphome_devices.py:1775-1799 | by id the last featured bus locked on it, without one the domain's only featured bus |
| `BusSeeds.SeededById` | script/sync_esphome_devices.py:1787-1794 | an id is seeded with the last featured entry of the domain, or of a platform of it, that is locked on it |
| `BusSeeds.SeededAlone` | script/sync_esphome_devices.py:1795-1799 | no id is seeded just where one entry of the domain is featured |
| `BusDeps.ExtractBusDeps` | script/sync_esphome_devices.py:2263-2305 | every referenced bus the page supplies is lifted once, in the order of the depth-first walk over the references, and nothing but those and the buses they ride on; leaves are locked onto the bus they named and merged with the memo's prerequisites |
| `BusDeps.NamedBusIsStamped` | script/sync_esphome_devices.py:2298-2304 | a leaf naming a supplied bus by id has that bus among its prerequisites |
| `BusDeps.NamedBusIsPinned` | script/sync_esphome_devices.py:2300-2303 | and is locked onto it |
| `BusDeps.OnlyNamedIsPinned` | script/sync_esphome_devices.py:2300-2303 | and no other field of a leaf changes |
| `BusDeps.NoneIsHeldIff` | script/sync_esphome_devices.py:1683-1697 | once the pass is over, the memo holds the key of a reference without an id if and only if it was seeded or some bus was lifted for it |
| `BusDeps.LiftedWithoutIdIff` | script/sync_esphome_devices.py:2295-2299 | the sole bus of a domain is lifted for the reference that names none if and only if no earlier reference, and nothing those chain, has lifted it by its id |
| `BusDeps.UnnamedIsStampedIff` | script/sync_esphome_devices.py:2295-2304 | a leaf that names no bus gets the supplied one among its prerequisites if and only if it was seeded as the domain's only one, or is not featured by its id and was not lifted by it before |
| `BusDeps.TwoLeavesOnOneBus` | script/sync_esphome_devices.py:2263-2305 | on a page with one bus, of a leaf that names it and one that does not, both are stamped if the second comes first and only the first otherwise |
| `ExpanderHubs.MaterializeHubs` | script/sync_esphome_devices.py:1986-2070 | just the entries all of whose hubs the page can supply survive; each block lifts once, and nothing else but the buses those hubs depend on, and the ones these ride on; every pin resolves against its hub if and only if no two pins name one block by different ids |
| `ExpanderHubs.KeepConcat` | script/sync_esphome_devices.py:1829-1849 | the consumers are judged one by one and stay in order |
| `ExpanderHubs.TwoNamesForOneBlock` | script/sync_esphome_devices.py:1593-1615 | two names for one hub without an id both find it, so that condition fails |
| `ExpanderHubs.AddressFindsSoleBlock` | script/_expander_pins.py:41-50 | an address finds a block exactly when just one block is at it |
| `ExpanderHubs.LockKeeps` | script/_expander_pins.py:53-64 | locking a second reference to a block keeps the first resolving, unless both are different ids |
| `ExpanderHubs.LiftHub` | script/sync_esphome_devices.py:2018-2064 | a lifted hub carries and is pinned to its buses, is a new entry under an id made from the one it answers to, and resolves the reference that lifted it |
| `ExpanderHubs.HubShowsItsBlock` | script/sync_esphome_devices.py:2018-2064 | a hub is of the platform's variant of its component where the catalog has one; it has each field the page presets for its block, with the block's value, the `<bus>_id` of each supplied dependency, the block's id if it has one, and no other field but a locked id or address |
| `ExpanderHubs.MergeAliasRefs` | script/_expander_pins.py:75-85 | an alias shares the chain of its block's first reference |
| `ExpanderHubs.ConsumerHasItsHub` | script/sync_esphome_devices.py:1802-1822 | a surviving consumer requires each hub it needs and that hub's buses, all of which ship |
| `ExpanderHubs.BusesComeFirst` | script/sync_esphome_devices.py:1802-1822 | the buses come before the hub unless the consumer named the hub itself |
| `ExpanderHubs.WireConsumerRequires` | script/sync_esphome_devices.py:1802-1822 | existing prerequisites first, then each reference's chain, none twice |
| `ValidationGate.ApplyValidationGate` | script/_full_setup_gate.py:35-79 | each record is what its own verdicts make of it, pass by pass: every repair drops just the entries its errors are pinned on, until a verdict accepts the final content, refuses it, leaves nothing, or twelve passes are over |
| `ValidationGate.JudgedDescends` | script/_full_setup_gate.py:30-79 | whatever the verdicts, a judged record has lost no resolved name and no locked pin, and the passes only run out on more than twelve entries |
| `ValidationGate.RepairedDescends` | script/_full_setup_gate.py:232-300 | after k repairs a record has at least k entries fewer |
| `ValidationGate.MapErrors` | script/_full_setup_gate.py:177-199 | the drops are just the entries the errors are pinned on, unless an error cannot be pinned, and then the first such error |
| `ValidationGate.PinnedOnEntry` | script/_full_setup_gate.py:202-229 | an error is only ever pinned on an entry of the record |
| `ValidationGate.EntryForPathIff` | script/_full_setup_gate.py:202-229 | an error is pinned on the entry whose generated item its path leads to, and if it leads to none on the only entry of the domain |
| `ValidationGate.FailureIsActedOn` | script/_full_setup_gate.py:177-199 | a failed validation always yields an entry of the record to drop or an error |
| `ValidationGate.Record.ApplyDrops` | script/_full_setup_gate.py:232-262 | the record loses the dropped entries, and every mention of them |
| `ValidationGate.KeptEntriesAre` | script/_full_setup_gate.py:232-245 | an entry survives just when it is not dropped, without the prerequisites that are |
| `ValidationGate.KeptBundlesAre` | script/_full_setup_gate.py:246-260 | a bundle survives just when a member does, with just the members that do |
| `ValidationGate.BundlesSplit` | script/_full_setup_gate.py:246-260 | the bundles are gone through one by one and stay in order |
| `ValidationGate.DropRelabelsPins` | script/_full_setup_gate.py:264-300 | a pin labelled for a dropped entry stays only where a surviving entry locks its GPIO, under the name or id of the first that does; every other pin stays as it was |
| `ValidationGate.DropLeavesNoDangling` | script/_full_setup_gate.py:232-262 | after a drop nothing names a dropped id, and a record whose names all resolved keeps that |
| `ValidationGate.DropKeepsLockedPins` | script/_full_setup_gate.py:264-300 | a declared GPIO that a surviving entry locks keeps its declaration |
| `ValidationGate.DropShrinks` | script/_full_setup_gate.py:232-240 | each repair strictly shrinks the featured entries |
| `ValidationGate.SurvivingGpioLabels` | script/_full_setup_gate.py:303-353 | each GPIO some entry locks, under the label of the first entry that does |
| `ValidationGate.PrunedIsOwned` | script/_full_setup_gate.py:264-300 | a pin still labelled for a dropped entry is one a survivor with that label claims |

## Left out

- HTTP and WebSocket routes, command line, flasher, decoder pages and frontend serving: plumbing and user interface.
- ESPHome validation, YAML parsing, field extraction, broker resolution, TLS and paho: given as parameters (`Validation`, `Loader`, a block's `presets`) or as steps that may succeed or fail.
- Sockets, ports, subprocesses, executors and timers: each is a step that may succeed, fail or be overtaken; real time appears only where a delay or a timeout is compared.
- The sockets that a converge cancelled while it builds its runner leaves to the garbage collector, and cancellation inside the creation of a subprocess before it is recorded on its session.
- Bytes still buffered in a transport when its end is closed: closing stdin takes effect at once.
- The presence-gated loop that drives broadcasts and sweeps, and device objects mutated by code outside the scanner.
- WakeWorker.NothingLost: holds of runs in which no worker is spawned while a stop is in flight; `SpawnDuringStopOrphans` shows that this guard is exact and `OverlappingStartLosesItem` what happens without it.
- EditorSession.LockFreeMeansBoundary: holds of runs without the one cancellation that `CancelBeforeCloseMisanswers` shows to be to blame.
- EditorSession.HitAnswersItsHash: holds of the same runs.
- MonitorRegistry.NothingIsOrphaned: holds of runs whose resumes come when no stop is in flight without the lock; `ResumeOrphansIff` shows that this guard is exact.
- Survivors.AssignLocalIds: what `_sanitize_local_id` makes of an upstream id is given.
- ValidationGate.ApplyValidationGate: asks for distinct record ids, since the skip reasons are keyed by them.
- BusLift.LiftState.EnsureBuses: the GPIO occupancy labels gathered beside the lift are not modelled, and a list shared by two entries is two equal lists.
- The driver-hub, orphan-bus and PSRAM passes of the import, which reuse the lifts modelled here under other guards.
- The board pin overlays of `sync_boards` (`_detach_occupancy_pins`, `_reattach_occupancy_pins`, `_resolve_board_pins`): table merges with no invariant across passes.
- The build-size refresher's metadata writes; its way of popping pending items one at a time is a step of `WakeWorker`.
- Non-string ids, platforms and references on a device page, and negative list indexes in an error path.
- Python's recursion limit, and the wording of log messages and skip reasons.
