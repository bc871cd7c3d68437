# Affix, modelled and proved

Affix is a Windows service that keeps CPU affinity, EcoQoS and priority class of selected processes
the way a registry policy asks for.  This project models the parts of it whose correctness cannot be
seen from one function, and proves what they promise over every input and every interleaving.  The
model is of the default build, without the `priority-job` feature.

## What is modelled

**The rule engine and its bounded reconciler** (`src/engine.rs`).  After an application the engine
checks every tracked process at most three more times, in passes of a worker thread that a timer
starts.  `Reconciler` is the state machine of all threads: the tracked map, the five phases, the
auto-reset insertion event, the auto-reset timer, `watcher_activity` and its holder, the program
position of the worker, shutdown.  A function of the source that holds `applied` or `reconciler`
throughout is one step; the worker's wait is a step of its own, and so are inserting an entry and
announcing it.  `ReconcilerSafety` proves the invariants of all runs, `ReconcilerProgress` bounds the
work and proves that it gets done, and `ReconcilerHealth` says what disables the reconciler and that
without such a failure every tracked process gets its three checks.  `RuleEngine` is the class with the engine's fields and methods:
each method is proved to be a run of the machine and to have the effect that `EngineEffects` (one
application, a full reconciliation) and `PassEffects` (a check, a pass) state of the tracked entries, the
setter calls and the process states.  `RunEffects` composes these effects over events and turns of the
worker and proves instance safety of whole runs; `CalmTurns` proves that undisturbed turns finish the
work, whatever their passes find.  `EngineThreads` runs the worker loop on the class, with events between
its calls.  `LockOrder` has the nesting of all guards and proves that nothing deadlocks and that every
access to shared data is under its lock.

**The lost-event protocol** (`src/etw.rs`).  `LostEvents` takes every atomic access of
`LostEventState::reconcile` as one step of any number of callers.

**The affinity compiler** (`src/affinity.rs`, `src/topology.rs`).  `AffinityText` parses,
`AffinitySpelling` has the grammar it accepts, `Topology`
finds efficiency classes and the low-power island, `CacheSelection` the preferred L3 cache, `CpuTiers`
classifies, `HomogeneousCores` has the stand-ins for machines with one class, and `AffinityMask`
compiles an expression to a 64-bit mask in place, against a meaning that is a set of processors.
`TierMeaning` and `MaskMeaning` say what tiers and masks are in terms of the processors alone.

**Rules and policies** (`src/process.rs`, `src/registry.rs`, `src/power.rs`).  `ProcessPolicy` has rule
construction, signatures, resolution, inspection and repair; `ProfileState` the packed profile word and
its compare-and-exchange loop.

**The service stop protocol** (`src/service.rs`).  `StopProtocol` interleaves the control handler with
`service_main`.

A specification function often follows the code it specifies.  Its meaning is then stated a second time, in
plain terms and without it, and proved equivalent: phases, literal check counts and failures in
`ReconcilerHealth`, processors and islands in `TierMeaning`, `MaskMeaning` and `CacheSelection.FlagsExactly`,
the grammar in `AffinitySpelling`, sightings and registry values in `EngineEffects.RegistryDecides` and
`EngineEffects.LastSightingDecides`, checks in `PassEffects.PassWithoutDrift` and its neighbours, mode texts in
`ProcessPolicy.RegistryMeaning`, reports in `StopProtocol.ReportsAreMade`.

## Assumptions

- Atomics are sequentially consistent.  The store at `src/etw.rs:458` and the load after it use
  Release and Acquire, which do not order the two on weaker memory; nothing is claimed there.
- Cancelling a timer leaves a signal that is already there; setting a timer clears it; a wait returns
  the lowest signaled index and consumes an auto-reset signal.
- The shutdown event is set together with the flag, under `watcher_activity`.
- A handle denotes an instance that exists, and the instances that handles can denote in a run of the
  worker loop are fixed beforehand; the CPU topology does not change.
- Other programs may change any process between two calls of the worker and between events
  (`RunEffects.Event.OtherProgram`), but not in the middle of an application or a pass.
- The worker thread has been started (`src/engine.rs:167-187` lets the engine run without one).
- Calls into Windows and the registry are answers passed as arguments; setters, queries, timers, the
  insertion event, snapshots and watcher threads may fail.

## Properties that hold only under a condition

- The choice of the C cache depends on the order in which Windows lists the caches exactly when two
  different caches tie for the first place (`CacheSelection.OrderMattersOnlyForTies`, with an input in
  `CacheSelection.OverlapDependsOnOrder`).  Caches that share no processor never tie.
- A text of the importer's grammar is accepted by the service exactly when its numbers fit in 64 bits
  (`AffinityText.ImporterTextParses`).
- A tracked instance keeps the image it was first tracked with.  After an application with a rule its
  entry has the image the rule was selected by exactly when the instance was new or is still seen under
  the tracked image (`RunEffects.ImageMatchesRule`; `RunEffects.ImagesCanDiffer` has an input where it
  does not), and a check that sees the process as the application did reports drift exactly when they
  differ (`RunEffects.ImageChangeIsDrift`).  While no instance changes its image, they never differ
  (`RunEffects.RunKeepsImages`).

## Model

| member | source | states |
|---|---|---|
| ReconcilerSafety.RunKeepsInv | src/engine.rs:714-910 | In every interleaving of callbacks, worker, timer and shutdown the joint invariant of phase, event, timer, worker position and tracked entries is kept |
| ReconcilerSafety.NoWakeupIsLost | src/engine.rs:714-897 | In every reachable state with an enabled reconciler and a process short of three checks, an insertion is being announced, or the phase has a signal, a running or signaled timer, or a worker that carries the work on |
| ReconcilerSafety.WorkerCanWake | src/engine.rs:1325-1388 | With work pending and nobody about to announce it, a waiting worker's wait can return or its timer can expire, and a worker has exited only for shutdown |
| ReconcilerSafety.PhasesAreHonest | src/engine.rs:714-897 | In every reachable state a waiting batch has work, TimerArmed is exactly an arming that runs or has expired, Running has a worker at work, and while parked nothing is pending but an insertion about to be announced |
| ReconcilerSafety.PassNeedsExpiry | src/engine.rs:877-897 | In every reachable state a pass begins exactly when the latest arming has expired, and uses it up; a stale signal of a cancelled timer changes nothing and sends the worker back to its wait |
| ReconcilerSafety.InsertionsKeepTheBatch | src/engine.rs:741-744 | Over any run of insertions, announcements, re-applications and further arm calls an armed batch keeps its phase, timer and arming |
| ReconcilerSafety.DisabledIsAbsorbing | src/engine.rs:899-910 | Disabled lasts for the rest of every run, in which no event is set, no timer started and no pass begun |
| ReconcilerSafety.ShutdownIsACleanCut | src/engine.rs:1206-1217 | Once the flag is set, no run changes a tracked entry, writes a process policy or completes a pass |
| ReconcilerSafety.ShutdownTestsNeverFire | src/engine.rs:1470-1488 | In every run the shutdown tests inside a batch find the flag clear |
| ReconcilerProgress.SpentGrows | src/engine.rs:1462-1468 | No step creates open checks except an insertion, which brings three; every check spends exactly one, and the work only runs out by spending |
| ReconcilerProgress.PassesAreBounded | src/engine.rs:1336-1358 | In any run the completed passes plus the checks still open are at most three times the insertions |
| ReconcilerProgress.ChecksPerInstance | src/engine.rs:957-972 | While an instance stays tracked its counter advances by exactly its checks and never passes three |
| ReconcilerProgress.ThreeQuietPassesPark | src/engine.rs:802-850 | Without insertions three further complete passes leave nothing pending, and a worker at rest then parked, unless disabled |
| ReconcilerProgress.WorkerAloneStops | src/engine.rs:1325-1388 | While no other thread enters, the worker and its timer, repairs and full reconciliations included, take at most as many control steps as the rank of the state and 600 for each of their own insertions |
| ReconcilerProgress.MutationKeepsRank | src/engine.rs:234-273 | What a pass does to processes and entries never raises the rank, except by what it inserts |
| ReconcilerProgress.LeftAloneTheWorkFinishes | src/engine.rs:1325-1388 | From every reachable state with no other thread inside, the worker alone, whatever its passes find, comes to rest within that bound, with no process left pending unless disabled or shut down |
| ReconcilerProgress.FinishedStays | src/engine.rs:1325-1388 | Once nothing is pending, or the reconciler is disabled or shut down, every run without insertions leaves it so |
| ReconcilerProgress.WorkerLeavesOnShutdown | src/engine.rs:1206-1236 | After shutdown has begun the worker has exited or can move on, along a decreasing measure, or waits for a callback whose very next step frees the lock for it |
| ReconcilerHealth.OnlyFailuresDisable | src/engine.rs:714-910 | In every run the reconciler is disabled, or its worker failing, only after a failed announcement, arming, wait or pass or the shutdown; without one it is never disabled and the worker exits for shutdown only |
| ReconcilerHealth.BecomesDisabled | src/engine.rs:745-910 | Exactly which step of a run disables it: a failed wait, giving up, shutdown, a failed announcement while parked, or a failed arming while some process is short of its three checks and no timer is armed |
| ReconcilerHealth.PhaseChanges | src/engine.rs:714-897 | Exactly which step of a run wakes, arms and starts a pass, and that a waiting batch and an armed timer have a process short of its three checks while parking leaves none |
| ReconcilerHealth.ArmingOutcome | src/engine.rs:802-875 | In every reachable state a successful arming of a batch that needs a timer leaves it armed with the timer running and the worker waiting, a failed one disables and starts no timer, and with all checks made it parks |
| ReconcilerHealth.InsertionEventChanges | src/engine.rs:741-763 | In every run the insertion event is set by a successful announcement while parked and cleared by the returning wait, and by nothing else |
| ReconcilerHealth.TimerRunsOnlyArmed | src/engine.rs:765-910 | As long as no cancellation fails, the timer of every reachable state runs only while a batch with work is armed |
| ReconcilerHealth.AtRestAllAreChecked | src/engine.rs:1325-1388 | Without failures and shutdown, the worker alone comes to rest only with every tracked process checked three times, parked, waiting, nothing signaled and no timer running |
| ReconcilerHealth.WorkCanFinish | src/engine.rs:1325-1388 | And from every state reached without failures it has a run of at most rank plus one steps to that rest, which drops no process and changes nothing of its entry but the counter, to three |
| LockOrder.EngineNeverDeadlocks | src/engine.rs:223-1248 | For any number of watchers, callbacks and shutdown callers, in every reachable state an unfinished thread is in an unsignaled wait holding no lock, or at most five hand-overs from a thread that can run |
| LockOrder.LockChain | src/engine.rs:449-569 | From a thread that holds or wants a lock, the chain of lock holders climbs the ranks and ends in a thread that can run |
| LockOrder.JoinedRuns | src/engine.rs:1225-1248 | A join is reached only with the shutdown event set and under no lock, and waits for a thread that joins nobody and leads to one that can run |
| LockOrder.GuardsAreExclusive | src/engine.rs:139-146 | In every run a lock has at most one holder |
| LockOrder.DataIsGuarded | src/engine.rs:139-146 | In every run whoever touches the tracked map, the watcher list or the coordinator holds its lock, whoever changes the map also holds `watcher_activity` and a stripe, and the shutdown event is set under `watcher_activity` |
| LockOrder.NoDataRaces | src/engine.rs:139-146 | So in every reachable state no two threads are about to touch the same data, and none is about to change the map while another is about to begin shutdown |
| LockOrder.ApplicationIsSimple | src/engine.rs:315-569 | Applying a rule takes a stripe, then `applied` or `watchers`, then `reconciler`, each above all it holds, and neither waits nor joins |
| LockOrder.ReconciliationIsSimple | src/engine.rs:234-273 | So does a full reconciliation under `watcher_activity` |
| LockOrder.PassIsSimple | src/engine.rs:927-1126 | So does a bounded pass with its full reconciliation |
| LockOrder.ShutdownIsOrdered | src/engine.rs:1206-1248 | Shutdown sets the event before it joins, and joins under no lock |
| RuleEngine.RuleEngine.constructor | src/engine.rs:150-163 | A new engine tracks nothing and is parked |
| RuleEngine.RuleEngine.HasPending | src/engine.rs:819-821 | Whether some tracked process is enforced and short of three checks |
| RuleEngine.RuleEngine.NotifyReconcilerOfInsertion | src/engine.rs:714-763 | The whole new coordinator state; a process with checks left that is announced while parked sets the event and wakes the reconciler, or disables it if the event fails; otherwise nothing changes |
| RuleEngine.RuleEngine.ParkReconcilerIfNoPendingLocked | src/engine.rs:765-800 | The whole new coordinator state; while checks are open nothing changes, otherwise a waiting batch parks, and an armed timer stops unless cancelling fails |
| RuleEngine.RuleEngine.ArmReconcilerIfPending | src/engine.rs:802-875 | The whole new coordinator state and `keep_running`, which is false exactly when disabled; with checks open and no timer a successful arming starts it and a failed one disables, an armed batch is left alone, and with no checks open it parks and starts no timer |
| RuleEngine.RuleEngine.BeginReconciliationPass | src/engine.rs:877-897 | Running is entered from TimerArmed only |
| RuleEngine.RuleEngine.DisableReconciler | src/engine.rs:899-910 | Disabled, with the timer cancelled if that succeeds |
| RuleEngine.RuleEngine.RemoveKeyLocked | src/engine.rs:656-674 | One removal step of the machine; every other entry stays |
| RuleEngine.RuleEngine.ApplyOrUpdateRule | src/engine.rs:430-569 | The entry follows the rule, a new one under the given image, an old one with its counter and image kept; an unchanged observation makes no setter call, and otherwise every configured component of this process is attempted once and no other process is touched |
| RuleEngine.RuleEngine.ApplyToPidInner | src/engine.rs:315-410 | A pid that is the service's own, unresolved, not the expected instance or of unusable name changes nothing; otherwise the rule of the resolved image is applied to the resolved instance, or its tracking ends, and nothing else happens |
| RuleEngine.RuleEngine.RemoveUnobserved | src/engine.rs:684-693 | Exactly the removable keys that were not observed are gone |
| RuleEngine.RuleEngine.ReconcileProcessesActive | src/engine.rs:234-273 | Refines the declarative result: tracked is exactly what the enumeration selects, each entry follows the rule of its last sighting and that rule has been forced on the process, survivors that were never refused keep counter and image, all others start counting anew, processes without a rule are untouched; an empty or failed enumeration changes nothing |
| RuleEngine.RuleEngine.ReconcileProcesses | src/engine.rs:223-232 | The same for the entry point, and nothing at all after shutdown |
| RuleEngine.RuleEngine.ApplyToPid | src/engine.rs:275-313 | The entry point of process events: nothing after shutdown, otherwise the whole effect of an observing application |
| RuleEngine.RuleEngine.RemoveProcessKey | src/engine.rs:412-428 | Ends the tracking of exactly this key unless shutdown has begun, and touches no process |
| RuleEngine.RuleEngine.AdvanceCheck | src/engine.rs:957-983 | The counter of a pending entry advances by one and the entry is returned; everything else is returned unchanged |
| RuleEngine.RuleEngine.Service | src/engine.rs:1043-1126 | Inspection and repair attempt exactly the configured, readable components that are off target, each once, also after failures |
| RuleEngine.RuleEngine.ReconcileTrackedProcess | src/engine.rs:947-1126 | A check advances this counter only, reports drift exactly if the pid resolves to nothing and the process has exited, or resolves to another instance or image, and then calls no setter; otherwise it serves the instance it has identified, and touches no other process |
| RuleEngine.RuleEngine.CheckAll | src/engine.rs:1470-1482 | The batch checks each instance pending at its start exactly once, serves exactly those that found themselves, and reports drift exactly when some check did |
| RuleEngine.RuleEngine.ReconcileTrackedProcesses | src/engine.rs:927-941 | The pass makes the batch's checks and services and, exactly after drift with a non-empty snapshot, a full reconciliation of what they leave; without drift phase, event and timer stay |
| RuleEngine.RuleEngine.ReconcileAfterDrift | src/engine.rs:1484-1487 | After drift the pass ends with a full reconciliation of the checked entries and processes, or fails with the snapshot |
| RuleEngine.RuleEngine.RunPass | src/engine.rs:1338-1349 | The pass holds `watcher_activity` to its end, has exactly that effect, and none after shutdown |
| RuleEngine.RuleEngine.SetShuttingDown | src/engine.rs:1206-1217 | Flag and event are set with nobody inside the engine |
| RuleEngine.RuleEngine.DisableForShutdown | src/engine.rs:1224-1231 | The reconciler ends Disabled |
| EngineEffects.CachedPolicyIsFresh | src/engine.rs:454-477 | On a fixed topology a tracked entry with the desired signature stores a policy that a fresh resolution of the rule would give |
| EngineEffects.ChangedProfileIsSeen | src/engine.rs:454-466 | After at least one and fewer than 2^56 profile changes the signatures of an observation differ, so it never takes the shortcut |
| EngineEffects.RuleNamesImage | src/engine.rs:213-221 | A rule selected for an instance comes from the registry and names the resolved image |
| EngineEffects.ApplicationTouches | src/engine.rs:333-343 | Instance safety of one application: no setter call on, no change of and no change of tracking for any instance but the resolved one |
| EngineEffects.OthersAreLeftAlone | src/engine.rs:315-355 | Only an application about an instance does anything: one for pid 0 or the service's own, unresolved, unexpected or of unusable name leaves everything as it was |
| EngineEffects.RegistryDecides | src/engine.rs:367-410 | Without a valid registry policy the instance is untracked and no setter called; with one its entry follows that mode and affinity, and unless the entry was unchanged its process conforms to them where setters work |
| EngineEffects.LastSightingDecides | src/engine.rs:234-273 | After a full reconciliation an instance is tracked exactly when the last sighting that shows it found a valid policy, unless it is new and cannot be watched; its entry follows that policy, and one tracked before that always found one keeps image and checks |
| EngineEffects.ReconciliationConforms | src/engine.rs:234-273 | Without setter failures a full reconciliation leaves every tracked process fully conforming |
| EngineEffects.ProgressStep | src/engine.rs:252-269 | One more process of the enumeration keeps the partial result |
| EngineEffects.ProgressDone | src/engine.rs:271-272 | Removing the unobserved keys turns the partial result into the full one |
| PassEffects.PassConverges | src/engine.rs:912-1126 | When all calls succeed and every pending instance is itself, all of them end fully conforming; written is exactly what was configured and off target; nothing else changes |
| PassEffects.BatchStep | src/engine.rs:1475-1482 | One more check serves its own process and no other |
| PassEffects.RepairedIsServiced | src/process.rs:255-383 | A repair of what an inspection found is a complete service |
| PassEffects.PassTouches | src/engine.rs:927-1126 | Instance safety of a pass: neither setter call on nor change of any process but those that found themselves in their check or were enumerated with a rule |
| PassEffects.PassWithoutDrift | src/engine.rs:927-1041 | If every pending instance is seen as itself, or unresolved but not exited, the pass succeeds, tracks exactly the same instances, adds one check to each pending one, and touches only instances it saw |
| PassEffects.PassWithDrift | src/engine.rs:1484-1488 | If some pending instance has exited unresolved, or is seen as another instance or image, the pass needs its snapshot, and afterwards tracks only what that shows with a valid policy |
| PassEffects.GoneIsDropped | src/engine.rs:985-1003 | A pending process that has exited, or whose pid has been reused, is not tracked after the pass unless the snapshot still shows it |
| PassEffects.ChecksWriteWhatIsOff | src/engine.rs:1043-1126 | Whatever fails, a check calls a setter exactly for the readable components that are configured and off on the instance it found under its tracked image, and one that succeeds is off no more |
| RunEffects.RunHistory | src/engine.rs:1306-1388 | The effect of a run is a chain of the effects of events and passes of its turns |
| RunEffects.EventIsSafe | src/engine.rs:275-428 | An event writes to and changes only an instance it has resolved and found a rule for, and tracks no other new one; nothing after shutdown |
| RunEffects.PassIsSafe | src/engine.rs:927-1126 | A pass writes to and changes only instances tracked and pending at its start that find themselves in their checks, and instances enumerated with a rule, and tracks no other new one; nothing after shutdown |
| RunEffects.RunIsSafe | src/engine.rs:275-1126 | Instance safety of runs: every setter call is made in one event or pass of the run, on an instance that this very deed may act on; and an instance neither tracked at the start nor given a rule by an event or enumeration of the run is never written, changed or tracked |
| RunEffects.StaleEventsLeaveTracking | src/engine.rs:333-428 | No sequence of start and stop events about other instances, reused pids and stale events among them, alters the tracking of an instance |
| RunEffects.StoppedIsUntracked | src/engine.rs:412-428 | An instance reported as stopped stays untracked until an event concerns it again |
| RunEffects.StartedIsTracked | src/engine.rs:275-313 | An instance reported as started with a valid registry policy stays tracked under that policy, if it can be watched, until an event concerns it again |
| RunEffects.NothingHappens | src/engine.rs:223-247 | Timer events, failed and empty enumerations change nothing, and after shutdown nothing but other programs does |
| RunEffects.ServiceLeavesItselfAlone | src/engine.rs:323-325 | In no run does the service track its own process or pid 0, or call a setter on them |
| RunEffects.ImageMatchesRule | src/engine.rs:525-547 | After an application with a rule the entry has the image the rule was selected by exactly when the instance was new or is seen under its tracked image |
| RunEffects.ImagesCanDiffer | src/engine.rs:525-547 | An input for which it has not |
| RunEffects.ImageChangeIsDrift | src/engine.rs:1026-1041 | A check that sees the process as the application did reports drift exactly when the two images differ |
| RunEffects.RunKeepsImages | src/engine.rs:234-569 | While every instance keeps its image, over any events and turns every entry is tracked under the own image of its instance and follows the rule selected by that image |
| RunEffects.ChecksEnforceOwnRule | src/engine.rs:957-983 | So the policy a check enforces is a resolution of a registry rule for the own image of its instance |
| CalmTurns.ChecksSpendBudget | src/engine.rs:1462-1482 | A batch takes exactly one open check from every pending entry |
| CalmTurns.CalmTurnProgress | src/engine.rs:1325-1383 | A turn in which no other thread acts, whatever its checks find and whatever fails, lowers the rank except by what it inserts itself, or the worker was idle |
| CalmTurns.IdleIsFinished | src/engine.rs:1325-1332 | A worker waits for good only if nothing is pending, or the reconciler is disabled or shut down |
| EngineThreads.HandleEvent | src/engine.rs:223-428 | An event is a run of the machine and has exactly its effect on what is tracked, on setter calls and on processes; an expiry signals a running timer, and shutdown sets its flag and event and disables |
| EngineThreads.ConsumeWait | src/engine.rs:1325-1332 | Of shutdown event, insertion event and timer the first that is signaled is reported, and only its signal is consumed, unless it is the shutdown event |
| EngineThreads.TimerTurn | src/engine.rs:1335-1363 | Exactly if the batch is still armed there is a pass, with the events around it; otherwise nothing happens; the worker ends waiting or exited |
| EngineThreads.WorkerTurn | src/engine.rs:1325-1383 | A failed wait ends the thread, a wait with something signaled returns at once and leads to arming or the timer branch, and otherwise the wait goes on; the turn has exactly the effect of its events and pass, and without events takes no step of another thread |
| EngineThreads.ReconciliationWorkerLoop | src/engine.rs:1306-1388 | After any number of turns amid any events: the effect is that of the turns taken, every setter call belongs to the event or pass that may make it and unknown instances are untouched, no wakeup is lost, passes are at most three times the insertions, stored policies are sound, the exit is for disabling or shutdown, nothing changes once shutdown had begun, and enough turns without other threads, more only for what the passes insert, leave nothing pending; if nothing fails it is not disabled, and those turns leave every tracked process checked three times or the engine shut down |
| LostEvents.StepKeepsInv | src/etw.rs:437-470 | Every atomic access keeps: one owner while `reconciling` is set, and some call responsible whenever `observed` exceeds `reconciled` |
| LostEvents.NoReportIsLost | src/etw.rs:437-470 | Whenever no call is in progress, `reconciled` equals `observed`, is the largest finished report, and was the target of the last callback |
| LostEvents.CallbacksAreSerialAndIncreasing | src/etw.rs:448-455 | Callbacks never overlap and their targets strictly increase over the whole run |
| LostEvents.LoopRoundsBounded | src/etw.rs:450-468 | A call's loop repeats at most as often as the largest reported count |
| LostEvents.CallIsBounded | src/etw.rs:437-470 | A call makes at most its remaining number of accesses, whatever the others do |
| LostEvents.EveryRunTerminates | src/etw.rs:437-470 | n calls reporting at most b make at most n(9b+2) accesses in all |
| LostEvents.LostEventState.Advance | src/etw.rs:437-470 | The next access of a call on the three atomics is one step of the machine |
| LostEvents.LostEventState.Reconcile | src/etw.rs:437-470 | The code, interrupted before every access, is a run of the machine, keeps the invariant, and finishes |
| LostEvents.LostEventState.Round | src/etw.rs:450-468 | One round either finishes or enters a later one within the bound |
| AffinityText.ParseIndex | src/affinity.rs:56 | Checked digit-by-digit parsing gives the number, or fails exactly when the text is no number below 2^64 |
| AffinityText.Parse | src/affinity.rs:37-69 | The parsing loop computes the meaning of the text, the first offending term included |
| AffinityText.ParsePrinted | src/affinity.rs:37-69 | Joined canonical names of any non-empty term list with indices below 2^64 parse back to that list |
| AffinityText.ReparseStored | src/affinity.rs:64-68 | The stored source of an accepted expression parses to the same expression |
| AffinitySpelling.PieceIsRead | src/affinity.rs:43-63 | A piece without plus sign is read as a term exactly when it is a name of it, in any case, or a number below 2^64, with blanks around it; LP-E names LPE and X3D names C |
| AffinitySpelling.Grammar | src/affinity.rs:37-69 | A string means a list of terms exactly when it consists of pieces that spell them in order, joined by plus signs; it is stored without the blanks at its ends |
| AffinitySpelling.FirstErrorIsReported | src/affinity.rs:37-63 | The error is about the first piece that spells no term: empty, or unsupported without its blanks; a string of blanks is an empty expression |
| AffinityText.ImporterTextParses | packaging/windows/import-policies.ps1:38 | A text of the importer's grammar is accepted exactly when its numbers fit |
| AffinityText.HexRoundTrip | src/affinity.rs:24 | The hexadecimal text of a mask determines the mask |
| AffinityText.LogTextInjective | src/affinity.rs:22-27 | Signature texts tell parsed expressions, masks and "unchanged" apart |
| Topology.EfficiencyClassesSpec | src/topology.rs:165-170 | Sorting and deduplicating lists the occurring classes once each, in increasing order |
| Topology.ChosenIsUnique | src/topology.rs:457-465 | The lexicographic maximum over islands is unique, so the order of entries cannot matter |
| Topology.TallyIslands | src/topology.rs:435-445 | The first loop gives every island its count and highest index |
| Topology.MarkShared | src/topology.rs:447-451 | The second marks exactly the islands that share with a higher class |
| Topology.MaximumByRank | src/topology.rs:457-465 | The result outranks every other island |
| Topology.ChosenIsPreferred | src/topology.rs:457-465 | The chosen island, seen from its processor of greatest index: it shares with no higher class if some island does not, none on that side reaches a greater index, and of those that reach the same one it has the most processors, then the smallest group, node and cache |
| Topology.ChooseEfficiencyIsland | src/topology.rs:431-466 | None exactly if all entries are on one island, otherwise the island preferred in those terms, the unique lexicographic maximum, as a function of multisets of entries |
| CacheSelection.LowestProcessor | src/topology.rs:190-192 | Trailing zeros name the lowest processor of a non-empty mask |
| CacheSelection.SelectIsBest | src/topology.rs:224-243 | The chosen cache is a usable one that none outranks, and there is one exactly when some cache is usable |
| CacheSelection.OrderMattersOnlyForTies | src/topology.rs:228-236 | The order of listing matters exactly when two different caches tie for the first place |
| CacheSelection.RealCachesNeverTie | src/topology.rs:228-236 | Caches that share no processor never tie |
| CacheSelection.OverlapDependsOnOrder | src/topology.rs:228-236 | Two overlapping masks for which the order does matter |
| CacheSelection.FlagsMarkOneCache | src/topology.rs:127-222 | The flagged entries are exactly those of one largest cache, strictly larger than another one unless the processor is an X3D |
| CacheSelection.FlagsExactly | src/topology.rs:127-222 | With an X3D processor and a usable cache, or usable caches of different sizes, exactly the processors of one cache are flagged, which is largest, then of most processors, lowest group and lowest first processor; otherwise none is |
| CacheSelection.OnesAreProcessors | src/topology.rs:224-236 | Counting the ones of a mask counts its processors |
| CpuTiers.TierTheorem | src/affinity.rs:238-335 | With two or more classes P, E and LPE are non-empty and cover the candidates, P is disjoint from both, and E and LPE are disjoint or, with two classes, equal |
| TierMeaning.ManyClasses | src/affinity.rs:238-281 | With three or more efficiency classes P is the highest, LPE the lowest, E all between, C the flagged processors |
| TierMeaning.TwoClasses | src/affinity.rs:283-334 | With two classes P is the higher; the lower one is E and LPE both on one island, otherwise LPE is its preferred island, in terms of sharing, index, size and position, and E the rest |
| TierMeaning.OneClass | src/affinity.rs:249-256 | With one class only the flagged processors form a tier |
| CpuTiers.IslandSplits | src/affinity.rs:308-326 | When an island is chosen neither side of the split is empty, so the fallback after it is unreachable |
| CpuTiers.SplitByIsland | src/affinity.rs:283-334 | The two-class case computes the tiers |
| CpuTiers.Classify | src/affinity.rs:238-335 | Classification computes the tiers, as sets that do not depend on the order of candidates |
| HomogeneousCores.WalkDown | src/affinity.rs:167-184 | The walk selects the candidates met by at most four steps of two from the highest index |
| HomogeneousCores.LowPowerFallbackEntries | src/affinity.rs:156-186 | The low-power stand-in for every number of candidates |
| HomogeneousCores.Tail | src/affinity.rs:164-165 | The last entries by index, whatever the order of candidates |
| AffinityMask.AddLogicalIndexToMask | src/affinity.rs:220-228 | One bit is added, or the index does not fit |
| AffinityMask.AddEntriesToMask | src/affinity.rs:188-193 | The bits of all entries are added, or one of their indices does not fit |
| AffinityMask.AddFilteredLogicalIndexToMask | src/affinity.rs:195-218 | A numbered processor is added exactly when it is a candidate that fits |
| AffinityMask.SpecialEntries | src/affinity.rs:102-116 | The sole E, sole LPE and E+LPE cases of homogeneous machines, the meaning of which is that of EfficiencyIsOdd and LowPowerIsHighest |
| AffinityMask.AddTerms | src/affinity.rs:118-136 | The loop adds the union of what the terms select, or fails exactly when some of it does not fit |
| AffinityMask.MaskFromCandidates | src/affinity.rs:100-136 | For given candidates the bits are exactly the selection, or the reported index is a selected one that does not fit |
| AffinityMask.MaskFromEntries | src/affinity.rs:86-139 | The mask has exactly the bits of the selection; None exactly for the empty selection; the errors exactly when they apply |
| AffinityMask.MaskIgnoresOrder | src/affinity.rs:86-139 | Permuting entries or terms changes nothing |
| AffinityMask.BitsAreUsable | src/affinity.rs:91-94 | Every set bit is a usable group-0 processor |
| AffinityMask.NarrowMachinesCompile | src/affinity.rs:220-228 | With usable indices below 64 and a usable processor, compilation never fails |
| MaskMeaning.EfficiencyIsOdd | src/affinity.rs:101-116 | With one efficiency class a bit of the mask of E, E+LPE or LPE+E is set exactly when it is odd and a usable processor has that index |
| MaskMeaning.EfficiencyTextsAgree | src/affinity.rs:101-116 | So these three expressions compile to one mask |
| MaskMeaning.LowPowerIsHighest | src/affinity.rs:156-186 | With one class LPE alone selects all of up to two usable processors, the two highest of up to seven, the four highest of eight, and of more those that exist of the highest index and the three even steps below it |
| MaskMeaning.OtherTermsSelect | src/affinity.rs:100-138 | With one class every other expression selects the usable processors it names by number and, with C, the flagged ones; P alone compiles to no mask |
| MaskMeaning.TiersSelect | src/affinity.rs:118-138 | With several classes a bit is set exactly when a usable processor is named by its number or is in a tier that is asked for |
| MaskMeaning.ErrorsMean | src/affinity.rs:86-98 | Which error is reported, exactly: no processors, no usable ones, or a usable one whose index does not fit; numbers alone never fail |
| ProcessPolicy.DefaultAffinityParses | src/process.rs:61-73 | The built-in affinity of efficiency mode parses |
| ProcessPolicy.SignatureDeterminesRule | src/engine.rs:454-460 | Registry rules with one signature are one rule, and were seen with one profile |
| ProcessPolicy.RegistryMeaning | src/registry.rs:129-157 | A process conforms to the resolution of registry values exactly when it has the EcoQoS and priority of the mode text (normal 0x20, efficiency EcoQoS and 0x40, performance 0x8000, realtime 0x100) and the mask of the affinity text, of E+LPE for efficiency without one, or any without both |
| ProcessPolicy.RegistryRejects | src/registry.rs:129-157 | Registry values make a rule exactly when the mode is one of the four texts and the affinity parses; the mode is tested first |
| ProcessPolicy.ResolutionUnique | src/process.rs:190-214 | On one topology a rule resolves to one policy |
| ProcessPolicy.SignatureDeterminesPolicy | src/process.rs:190-231 | Registry rules with one signature resolve to the same policy on one topology |
| ProcessPolicy.ResolvePolicy | src/process.rs:190-214 | The resolution; a failed affinity leaves the other components configured |
| ProcessPolicy.RepairConverges | src/process.rs:235-383 | Without faults a repair after an inspection leaves full conformance and writes only what deviated |
| ProcessPolicy.RepairedIsRepair | src/process.rs:318-383 | The three calls in order attempt every drifted configured component once, and each touches only its own |
| ProcessPolicy.Windows.Inspect | src/process.rs:255-316 | Drift is reported exactly for configured, readable components off target, failures exactly for unreadable ones |
| ProcessPolicy.Windows.Repair | src/process.rs:318-383 | Every drifted component is attempted whatever happened before; failures are reported exactly; other processes are untouched |
| ProcessPolicy.Windows.ApplyAll | src/process.rs:235-253 | All configured components are attempted, and without faults the process conforms |
| ProfileState.UnpackPack | src/engine.rs:1458-1495 | Unpacking what was packed gives the profile and the generation modulo 2^56 |
| ProfileState.WordCountsChanges | src/engine.rs:189-207 | In every interleaving the word holds the last change and the number of successful changes modulo 2^56; consecutive changes differ; the winners are as many as the changes |
| ProfileState.CallOutcome | src/engine.rs:189-207 | In every run, when a call returns the word shows the profile it asked for; it returns true exactly when it made that change, of another profile and with the next generation, and otherwise left the word alone |
| ProfileState.WordLayout | src/engine.rs:1458-1460 | The low byte of the word is the number of the profile, the rest the generation modulo 2^56 |
| ProfileState.LaterSnapshotDiffers | src/engine.rs:454-466 | A snapshot at least one and fewer than 2^56 changes later has another generation |
| ProfileState.PackedProfile.SetPowerProfile | src/engine.rs:189-207 | The loop, interrupted before every access and with spurious failures, is a run of the machine and reports whether it changed the profile |
| StopProtocol.RunKeepsInv | src/service.rs:459-586 | Every step of the control handler and of `service_main` keeps the joint invariant of flags, event and history |
| StopProtocol.StatusesAreOrdered | src/service.rs:459-710 | In every interleaving statuses never go backwards, RUNNING never follows a stop request, and nothing follows the finish but its own STOPPED |
| StopProtocol.SignalledExactlyOnce | src/service.rs:602-636 | The stop event is signalled exactly once when it was published and a stop requested before the finish, otherwise never |
| StopProtocol.WaitIsWoken | src/service.rs:565-575 | While `service_main` waits, a requested stop has set the event |
| StopProtocol.FinishReportsStopped | src/service.rs:703-710 | Whoever has finished has reported STOPPED |
| StopProtocol.ReportsAreMade | src/service.rs:480-586 | In every run a waiting service has reported RUNNING, one that tears down STOP_PENDING, and once past its first announcement the log starts with START_PENDING or with a stop request |
| StopProtocol.AnnouncementsAreMade | src/service.rs:639-650 | Wherever a run passes the announcement of START_PENDING or RUNNING, it is reported exactly when no stop was requested before |
| StopProtocol.StopIsAnswered | src/service.rs:619-636 | The first stop control after the status handle is stored is followed by STOP_PENDING, after the signal to a published event; later controls change nothing |
| StopProtocol.EngineIsTornDown | src/service.rs:499-586 | In every run an initialised engine is torn down before the service finishes, and after a failed initialisation or an early stop it is never up |
| StopProtocol.ServiceControl.ServiceMain | src/service.rs:459-586 | The code, with stop controls arriving between its calls, is a run of the machine; it ends waiting only with START_PENDING and RUNNING reported and no stop requested, and otherwise exited with STOPPED reported, if the handler could be registered |
| StopProtocol.ServiceControl.RequestStopLocked | src/service.rs:619-636 | The whole effect of a stop control, and whether it was the first |
| StopProtocol.ServiceControl.PublishStopEventLocked | src/service.rs:602-616 | The whole effect of publishing the event, and whether a stop was already requested |
| UsizeBits.SetBitBits | src/affinity.rs:226 | Setting a bit adds exactly that bit |
| UsizeBits.SetBitAdds | src/affinity.rs:226 | In numbers it adds two to the power of the index, unless the bit was set |
| UsizeBits.SameBitsSameMask | src/affinity.rs:138 | A 64-bit mask is determined by its set of bits |

## Left out

- The `priority-job` feature and its job objects.  There the promise of no lost wakeup is false: an entry can stop being enforced (`src/engine.rs:616`) and be enforced again (`src/engine.rs:540`) with a return at `src/engine.rs:547`, before the announcement at `src/engine.rs:587`.
- Weak-memory behaviour of the atomics in `src/etw.rs` and `src/engine.rs`.
- Poisoned mutexes; a failed bookkeeping step of a pass is the only such error in the machine.
- A failing SetEvent on the shutdown event or on the service stop event.
- Diagnostics, logging, error texts, and the `policy_failures` an entry remembers for printing.
- Wall-clock durations: expiry of the timer is a step that may happen at any time while it runs.
- Win32 calls themselves: handles, process enumeration, event decoding, thread priority, setters and getters are answers that may fail.
- Registry access and UTF-16 decoding; image names are opaque normalised strings.
- CPUID and the walking of system buffers; `CacheSelection.Flagged` takes the X3D test as an input.
- An engine dropped inside one of its own threads, whose join skips that thread (`src/engine.rs:1443-1450`).
- Watcher threads already finished are joined under `watchers` (`src/engine.rs:1142-1152`); such a join returns at once and is no wait in `LockOrder`.
- EngineThreads.HandleEvent: what a callback does while it holds `watcher_activity` is not interrupted there; the finer interleavings are those of `Reconciler`, whose policy writes are counted but not told apart by instance.
- The reading side of the importer other than its affinity grammar; service installation and removal; packaging.
