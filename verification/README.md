# Verified model of winunitd

winunitd is a service manager for Windows. This project models its three intricate parts in
Dafny and proves what they promise.

**The dependency transaction engine.** Units declare requirements and an ordering. A graph is
built from them, start, stop and shutdown requests are planned as closures over it, and plans
are carried out concurrently, with a worker limit, failure propagation and cancellation. Proved
are the exact membership and error cases of each plan, the discipline of every run under every
completion order, and that no run gets stuck.

**The journal.** Captured output goes through a bounded fair queue and a write buffer into log
files that are rotated, accounted for, named reversibly and read back page by page with
cursors. Proved are conservation and fairness of the queue, exactness of the buffer, rotation
exactly once under any failures, balanced accounts, the inverse of the file-name codec, and
that following cursors returns the journal without loss or repetition.

**The ownership protocol.** One unit record is driven by launches, stops, exits, watchdogs,
recoveries, cancellation, reload and shutdown, in any interleaving. Proved are that a stop wins
over every start admitted before it, that no created process is ever lost, that the per-name
gates exclude each other although their entries are reclaimed, that stale session lookups stay
dead after a logoff, and that the start limiter and the restart delay do what they say.

`dafny verify dfyconfig.toml` checks the whole project.

## Layout

| file | content |
|---|---|
| Options, Sets, Names, State | shared types, unit names, lifecycle states |
| Cycle, Graph, Reach, Transaction, Plan | the graph, closures and plans |
| Schedule, StartRun, StartExecutor, StopExecutor, Execute | plan execution |
| Ownership, Lifecycle, UnitGate, Session, StartLimit | the ownership protocol |
| CaptureQueue, RecordBuffer, Rotation, DiskAccount | writing the journal |
| CursorScan, CursorText, FileName | reading and naming it |

## How the source is modelled

- Methods that update fields are class methods here. A class keeps its state in one or two
  datatype fields, so that invariants are predicates over values and each step is proved by
  small lemmas. Fields that record history (event logs, offered and written records, the log of
  admissions, stops and activations) exist for the statements and are never read by a decision.
- Goroutines become atomic steps. A start or stop adapter returns at any time, in any order and
  with any result. Lifecycle handlers run under the manager mutex and are atomic; operations
  that hold the unit gate call `Interfere` between them, which takes any number of steps that
  need no gate. The gate itself is `UnitGate`.
- Native calls, clocks, contexts and policy verdicts are arbitrary values. Where Go iterates a
  map or sorts for display, any order is allowed.
- Two properties are false of the code; each has its exact condition and a concrete input. Stop
  plans can be refused on an acyclic ordering (`Plans.PlanStop`,
  `Plans.StopRefusedOnAcyclicOrdering`). Cursors go astray with a repeated entry that is
  separated from its first occurrence by a later-stamped one (`CursorScans.CursorsExactlyWhen`,
  `CursorScans.ThirdPageRepeats`).
- The loss count of the write buffer is exact for every record the journal appends. Only the bare
  buffer, given an empty record, would miscount it (`RecordBuffers.PendingIsExact`,
  `RecordBuffers.PendingIsUnwritten`, `RecordBuffers.EmptyRecordIsMiscounted`).
- All lemmas switch automatic induction off; inductive proofs are written out.

## Model

| member | source | states |
|---|---|---|
| `Names.NormalizeIdempotent` | internal/unit/path.go:10-19 | Normalizing a name twice is the same as once, so lists that are filtered again keep their names. |
| `Names.NormalizedMeans` | internal/unit/path.go:10-19 | A name is trimmed and lower-cased, and gets .service unless it is empty or ends in one of the six kinds. |
| `Names.FilterUnique` | internal/core/names.go:13-31 | One pass with a seen map yields the first occurrences of the normalized, non-empty names, in order. |
| `Names.UniqueStableCanonical` | internal/core/names.go:13-31 | The filtered list holds only normalized names and no duplicates, which the predecessor counters rely on. |
| `Names.FirstOccurrencesFixpoint` | internal/core/names.go:13-31 | Filtering a duplicate-free list again neither renames nor reorders it. |
| `Cycles.FindCycle` | internal/core/graph.go:211-262 | Returns nothing exactly when the wait relation restricted to the names is acyclic; otherwise a closed walk whose consecutive pairs are all wait edges. With no cycle there is a linear order of the names. |
| `Cycles.Visit` | internal/core/graph.go:230-252 | The depth-first step: either a closed walk, or the node and all it reaches are finished in a downward order. |
| `Cycles.ReconstructCycle` | internal/core/graph.go:264-286 | Following parents from the tail of a back edge gives exactly the stack segment from its head, closed; the fallback paths are not used. |
| `Cycles.CloseCycle` | internal/core/graph.go:239-242 | At a back edge a closed walk through it is always found. |
| `Cycles.LinearIsAcyclic` | internal/core/graph.go:211-262 | A linear order of the waits excludes every closed walk. |
| `Graphs.Build` | internal/core/graph.go:31-76 | Succeeds exactly when the normalized names are non-empty and distinct, and otherwise reports the first that is not, as empty or as a duplicate; the graph has one node per unit with its declarations, and its waits are exactly the loaded After= and inverse Before= edges, without duplicates. |
| `Graphs.LoadNodes` | internal/core/graph.go:33-54 | Nodes are stored under their names; refused exactly for an empty or repeated name, and the first of these is the one reported. |
| `Graphs.AfterEdges` | internal/core/graph.go:55-63 | Every node waits for exactly the loaded units in its After= list. |
| `Graphs.BeforeEdges` | internal/core/graph.go:64-74 | After the inverse Before= edges a node waits for exactly the units it is ordered after, each once. |
| `Graphs.RequireNamesAgree` | internal/core/graph.go:290-321 | The requirement name lists and predicates name the same units: Requires= and BindsTo= for starts, PartOf= too for stops. |
| `Graphs.OrderingCycle` | internal/core/graph.go:164-174 | Nothing exactly when the static ordering is acyclic; otherwise a closed walk of ordering edges. |
| `Transactions.Validate` | internal/core/transaction.go:322-330 | A plan is refused exactly when it is empty or its waits have a cycle, with that cycle as the reason. |
| `Reachability.ClosureIsLeast` | internal/core/graph.go:337-368 | The closure over an edge relation is the least set that contains the loaded roots and is closed under the edges. |
| `Reachability.Walk` | internal/core/transaction.go:243-264 | The recursive walk adds only reachable nodes and leaves a set that is closed except for nodes still open. |
| `Plans.Add` | internal/core/transaction.go:141-177 | The recursive collection keeps a set that is closed except at members still open; it fails only with a unit that is really missing from the closure. |
| `Plans.AddRoots` | internal/core/transaction.go:179-195 | Root names are normalized and deduplicated; an empty name or a missing one is reported as such. |
| `Plans.CollectionIsClosure` | internal/core/transaction.go:141-177 | A finished collection is exactly the closure of the roots under loaded Requires=, BindsTo= and Wants=. |
| `Plans.CompletePlanMissesNothing` | internal/core/transaction.go:142-160 | A finished start plan has no missing root or hard requirement anywhere in its closure. |
| `Plans.AfterClosure` | internal/core/transaction.go:228-264 | Roots and result together are everything ordered after a root, transitively. |
| `Plans.Invert` | internal/core/transaction.go:266-306 | Inverted rows: p lists x exactly when both are members and x lists p. |
| `Plans.Merge` | internal/core/transaction.go:308-320 | Merged waits list exactly what either list lists, without duplicates. |
| `Plans.ForwardWaits` | internal/core/transaction.go:209-220 | Start plans wait for exactly the members a unit is ordered after. |
| `Plans.BackwardWaits` | internal/core/transaction.go:266-285 | Shutdown plans wait for exactly the members ordered after a unit. |
| `Plans.TeardownWaits` | internal/core/transaction.go:104-108 | Stop plans wait for exactly the members that require a unit or are ordered after it. |
| `Plans.PlanStart` | internal/core/transaction.go:63-65 | Members are the least set with the roots closed under loaded Requires=, BindsTo= and Wants=. Succeeds exactly when there is a name, none is empty, no root or hard requirement reached in that closure is missing, and no closed walk of ordering edges lies among the members; a refusal tells which, with the missing unit or such a walk. |
| `Plans.PlanShutdown` | internal/core/transaction.go:120-122 | Members are the pull closure of everything ordered after a root, with reversed waits. Succeeds exactly when there is a name, none is empty, no root is missing, and no closed walk of reversed ordering edges lies among the members; a refusal tells which, with the missing unit or such a walk. |
| `Plans.Plan` | internal/core/transaction.go:124-226 | Both plans at once: planned exactly when nothing of the above stands against it, refused exactly with what does, in terms of the graph alone. |
| `Plans.SuborderAcyclic` | internal/core/transaction.go:207-225 | Start waits are a subrelation of the ordering and shutdown waits of its converse, so an acyclic ordering makes both acyclic. |
| `Plans.RequirementClosure` | internal/core/graph.go:323-368 | The reverse requirement walk yields exactly the loaded units with a Requires=, BindsTo= or PartOf= path to a root. |
| `Plans.PlanStop` | internal/core/transaction.go:72-113 | Members are exactly the loaded units with a requirement path to a root; succeeds exactly when there is a name, none is empty, no root is missing, and no closed walk of teardown constraints lies among the members; a refusal tells which, with the missing unit or such a walk. |
| `Plans.DeadlockIsCycle` | internal/core/transaction.go:104-113 | For each of the three orders, cycles of the waits are exactly the closed walks of its constraints among the members. |
| `Plans.DecidedByWaits` | internal/core/transaction.go:207-225 | Once the members are collected and the waits realize the order, the validation of the waits decides the request as the graph does. |
| `Plans.Requirers` | internal/core/graph.go:323-334 | The loaded units that name the given one in Requires=, BindsTo= or PartOf=. |
| `Plans.Successors` | internal/core/transaction.go:228-241 | The loaded units that wait for the given one. |
| `Plans.OpposedStopIsRefused` | internal/core/transaction.go:104-113 | Whenever a unit requires another that is ordered after it, stopping that other unit is refused with the two-step cycle. |
| `Plans.StopRefusedOnAcyclicOrdering` | internal/core/transaction.go:104-113 | A two-unit graph with an acyclic ordering on which a stop is refused: the acyclicity promise does not extend to stop plans. |
| `Schedules.SetUp` | internal/core/execute.go:171-178 | Counters start as the number of predecessors and the unblock rows are the exact inverse of the waits. |
| `Schedules.DecrementAll` | internal/core/execute.go:433-444 | Each successor counter drops by one; the clamp at zero never applies. |
| `Schedules.CountersAfter` | internal/core/execute.go:433-444 | After a release every counter again equals the number of unreleased predecessors. |
| `StartExecution.Executor.ReleaseAfter` | internal/core/execute.go:433-444 | Releasing a job once keeps all counters exact; a second release changes nothing. |
| `StartExecution.Executor.RequiresFailed` | internal/core/execute.go:347-361 | Reports a hard requirement of the job that has an error exactly when there is one. |
| `StartExecution.Executor.MarkFailed` | internal/core/execute.go:396-431 | The job ends failed with the given error, unless it was active or already had one; every requirer that is not active fails too, transitively, with errors that wrap their cause; it terminates. |
| `StartExecution.Executor.TryLaunch` | internal/core/execute.go:324-345 | Launches the job or leaves it blocked; its requirement check never fires. |
| `StartExecution.Executor.OnFinish` | internal/core/execute.go:363-381 | By outcome: a skipped job is inactive and a completed one active, unless it had failed before, with no other job touched; a broken one is failed with its adapter error, and other jobs change only to failed. Successors are released and propagation stays complete. |
| `StartExecution.Executor.LaunchRound` | internal/core/execute.go:190-198 | One pass over the jobs makes only adapter calls; afterwards all workers are taken or every job is blocked, whatever the limit, so the workers are kept busy. |
| `StartExecution.Executor.RejectWaiting` | internal/core/execute.go:182-189 | Cancellation rejects every job that was not launched and launches none. |
| `StartExecution.Executor.Run` | internal/core/execute.go:180-217 | For every completion order, the loop ends with no call outstanding and every job launched or rejected. A context cancelled after k returns is noticed exactly if the run gets to k returns, and nothing is launched from then on, while calls under way are waited for. The final sweep finds no job that was not started. |
| `StartExecution.Executor.Dispatch` | internal/core/execute.go:181-202 | The main loop ends decided: cancelled exactly at the given number of returns, with every launch before it, or with nothing in flight and fewer returns. |
| `StartExecution.Executor.Drain` | internal/core/execute.go:203-207 | Calls under way are waited for and nothing more is launched, whether or not the run was cancelled. |
| `StartRuns.RoundKeepsBusy` | internal/core/execute.go:190-198 | A round that ends with workers free or nothing launchable leaves a history in which fewer than the limit are in flight only while every job that is neither launched nor failed waits for one that has not returned. |
| `StartRuns.NoFailedRequirement` | internal/core/execute.go:324-381 | A job that may be launched or activated has no hard requirement with a recorded error: why both requirement checks are dead. |
| `StartRuns.NoOneStuck` | internal/core/execute.go:180-216 | With nothing running and every job blocked, an acyclic plan is decided: the run cannot get stuck. |
| `StartRuns.LaunchDiscipline` | internal/core/execute.go:324-345 | In every run a start is called at most once, after every ordering predecessor returned or was rejected, never after a hard requirement recorded an error, within the worker limit. |
| `StartRuns.TraceCause` | internal/core/execute.go:396-431 | Every error of a run has a chain of requirements down to a launched job whose own start failed or, only in a cancelled run, to a job that was never launched because of the cancellation. |
| `StartRuns.FinishedRun` | internal/core/execute.go:143-219 | A finished executor state is a complete run: a safe history that keeps the workers busy at every return, each job launched and returned or rejected and never both, coherent verdicts, propagated errors, rooted causes. |
| `Execution.ExecuteWithLimit` | internal/core/execute.go:143-219 | Runs exactly the valid plans with a positive worker limit and says what is wrong with any other: the limit, an empty plan or a cycle of its waits. Returns a complete run that heeds a cancellation after any number of returns, and the first failed root. |
| `Execution.FailedRoot` | internal/core/execute.go:295-305 | The first root in plan order that has an error; none exactly when no root has one. |
| `Execution.Start` | internal/core/execute.go:97-105 | Plan and execution together, in terms of the graph: every unit of the pull closure is started once and returns, or is rejected with an error; starts come in order, never after a failed requirement, and as many at once as the limit and the order allow; states fit the calls; failures reach all requirers that are not active and have a root cause; nothing is started after a cancellation; no error exactly when no root failed. Runs exactly the plannable requests with a positive limit, and a refusal tells why. |
| `Execution.StartMeans` | internal/core/execute.go:143-219 | Carries a complete run to the graph: members, order, concurrency, states, the spread of failures, their causes and the failed root. |
| `Execution.UndisturbedStart` | internal/core/execute.go:97-105 | Without cancellation and failed adapter calls every unit of the closure is started, each ends active or skipped, and there is no error. |
| `Execution.StartedInOrder` | internal/core/execute.go:324-345 | Carries the launch discipline from the plan to the After=, Before= and Requires= declarations of the graph. |
| `Execution.StartedBusily` | internal/core/execute.go:190-198 | In terms of the graph: at every return of a start, the limit is reached or each unit of the plan that is neither started nor failed is ordered after one that has neither returned nor been rejected. |
| `Execution.AcyclicIsPlannable` | internal/core/transaction.go:207-225 | On an acyclic ordering, start and shutdown requests are plannable exactly if names are given, none is empty and nothing is missing. |
| `StopExecution.StopExecutor.ReleaseAfter` | internal/core/execute.go:489-500 | Releasing a member once keeps all counters exact. |
| `StopExecution.StopExecutor.TryLaunch` | internal/core/execute.go:458-472 | Calls Stop on a member or leaves it blocked. |
| `StopExecution.StopExecutor.OnFinish` | internal/core/execute.go:474-487 | The whole new state: the member is inactive, its error is recorded exactly if the call failed, and those that waited for it are released once. |
| `StopExecution.StopExecutor.LaunchRound` | internal/core/execute.go:267-272 | Afterwards all workers are taken or every member is blocked, whatever the limit. |
| `StopExecution.RoundKeepsBusy` | internal/core/execute.go:266-279 | Such a round leaves fewer calls than the limit in flight only while every member not yet called waits for one that has not returned. |
| `StopExecution.StopExecutor.Run` | internal/core/execute.go:256-293 | The loop ends with every member called and returned, whatever errors occur. |
| `StopExecution.NoOneStuck` | internal/core/execute.go:256-293 | With nothing running and every member blocked, all have been called. |
| `StopExecution.CallDiscipline` | internal/core/execute.go:458-500 | Stop is called once per member, after Stop returned for everything it waits for. |
| `StopExecution.FinishedStop` | internal/core/execute.go:228-293 | A finished stop: every member called and returned exactly once, all inactive, errors exactly those returned. |
| `Execution.ExecuteStopWithLimit` | internal/core/execute.go:228-293 | Runs exactly the valid plans with a positive worker limit and says what is wrong with any other; returns a finished stop, and reports the first failed root. |
| `Execution.Stop` | internal/core/execute.go:109-117 | Stop is called exactly once on every loaded unit with a requirement path to a root, only after it returned for each planned unit that requires it or was ordered after it, and on as many at once as the limit and that order allow; errors are exactly those returned. Runs exactly the plannable requests with a positive limit, and a refusal tells why. |
| `Execution.Shutdown` | internal/core/execute.go:119-129 | Stop is called exactly once on everything ordered after a root and what that pulls in, each only after it returned for all members ordered after it, and on as many at once as the limit and that order allow; errors are exactly those returned. Runs exactly the plannable requests with a positive limit, and a refusal tells why. |
| `Execution.StopMeans` | internal/core/execute.go:221-305 | Carries a finished stop, of either kind, to the graph: members, order, concurrency, errors and the failed root. |
| `Execution.StoppedInOrder` | internal/core/execute.go:458-500 | Carries the call discipline from the plan to the requirement and ordering declarations of the graph, for stop and shutdown. |
| `Execution.StoppedBusily` | internal/core/execute.go:266-279 | In terms of the graph: at every return of a stop, the limit is reached or each member not yet called has to wait for one that has not returned. |
| `States.RunsAreCoherent` | internal/core/state.go:145-206 | Over every event sequence the state and substate fit together, active is entered only by a successful start out of activation, a stop is always accepted and left only by finishing or failing. |
| `States.StepsByState` | internal/core/state.go:156-206 | State by state, exactly the listed events are accepted; each leads to one state, and only a begun restart and a failed watchdog give their substates. |
| `Ownerships.NoStopBetween` | internal/manager/lifecycle_events.go:41-67 | In every state of every run, also in the middle of a launch: no stop lies between the admission of a start and an activation that comes from it. |
| `Ownerships.StopsWin` | internal/manager/lifecycle_events.go:368-378 | For every stop and every later activation in a run: the activation comes from a start admitted after that stop, in its epoch or a later one. |
| `Ownerships.AdmittedBefore` | internal/manager/lifecycle_events.go:368-378 | When a stop comes, every planned start, recovery and launch under way has an older admission and an older epoch. |
| `Lifecycles.ActiveByCurrentStart` | internal/manager/lifecycle_events.go:41-67 | At every point of every run, the last activation of an active unit comes from an admission with no stop in between. |
| `Lifecycles.ActivatedMeanwhile` | internal/manager/lifecycle_events.go:41-67 | A unit that became active in a stretch of a run had its last activation in that stretch, again with no stop since its admission. |
| `Ownerships.NoProcessLost` | internal/manager/lifecycle_launch.go:252-311 | Every process a launch created is the record's own, confirmed stopped, or being handed over by the launch that holds the gate; the record is then still loaded. |
| `Ownerships.OneProcess` | internal/manager/lifecycle_launch.go:252-311 | In every state a run reaches, at most one process of the unit is not confirmed stopped. |
| `Ownerships.AdvancesComposes` | internal/manager/lifecycle_events.go:368-415 | Stretches of a run compose: epochs and history grow, a process leaves the record only confirmed, removal leaves none. |
| `Ownerships.RelyAdvances` | internal/manager/lifecycle_events.go:523-561 | Steps without the gate touch neither generation nor process and bump the epoch only together with the stopping flag. |
| `Ownerships.Launched` | internal/manager/lifecycle_launch.go:127-160 | A new generation leaves every older recovery and plan stale or armed in the present epoch. |
| `Ownerships.Disarmed` | internal/manager/lifecycle_events.go:368-378 | A stop disarms every start of the current generation. |
| `Ownerships.Adopted` | internal/manager/lifecycle_launch.go:252-294 | A returned process is taken over by a record that held none. |
| `Ownerships.Cleared` | internal/manager/lifecycle_events.go:125-139 | Letting go of a confirmed process loses none. |
| `Lifecycles.Lifecycle.Apply` | internal/manager/unitruntime.go:71-87 | Applies an allowed event, changes nothing on another, and never enters active. |
| `Lifecycles.Lifecycle.Succeed` | internal/manager/unitruntime.go:71-87 | A successful start activates only out of activation and is recorded with the admission it comes from, which is of the current epoch. |
| `Lifecycles.Lifecycle.Publish` | internal/manager/unitruntime.go:94-106 | Publishes a member outcome; active only for a start admitted in the current epoch. |
| `Lifecycles.Lifecycle.DisarmStart` | internal/manager/lifecycle_events.go:368-378 | Sets stopping and bumps the epoch of a loaded record, and nothing else. |
| `Lifecycles.Lifecycle.BoundStops` | internal/manager/lifecycle_bound.go:23-82 | Seen from the unit itself: a stop of its own with one more operation exactly if it is part of a cycle, loaded and the manager open; otherwise nothing. |
| `Lifecycles.Lifecycle.AdmitStart` | internal/manager/manager.go:779-797 | Exactly a loaded record of an open manager is captured, with the definition, revision, generation and epoch it is admitted in; a restart disarms first exactly those members that are in its stop scope. |
| `Lifecycles.Lifecycle.CancelOperation` | internal/manager/lifecycle_operations.go:41-64 | Disarms exactly the launched, uncompleted member of the current generation and epoch, and marks what it may own as pending. |
| `Lifecycles.Lifecycle.SealShutdown` | internal/manager/shutdown.go:54-71 | Shutdown stops a loaded record and marks an owned process or native target as pending cleanup; nothing else changes. |
| `Lifecycles.Lifecycle.Reload` | internal/manager/lifecycle_config.go:12-55 | The record stays exactly if it is configured or retained: by a process, a launch, operations, pending cleanup, attached handles or a native target that is not inactive. It takes the new definition and revision, or becomes unavailable. |
| `Lifecycles.Lifecycle.ApplyStopCompletion` | internal/manager/lifecycle_events.go:141-170 | A stop result moves the state exactly if it belongs to the loaded generation and its process; otherwise nothing changes. |
| `Lifecycles.Lifecycle.ApplyProcessExit` | internal/manager/lifecycle_events.go:184-223 | A suppressed, foreign or stopped exit changes nothing. Without a restart the unit fails, unless it is a completed oneshot or the watchdog failed it before, and bound peers stop; with one it is recovered, unless bound stops come back to it. |
| `Lifecycles.Lifecycle.AcceptRecovery` | internal/manager/lifecycle_events.go:523-561 | Exactly what a recovery request does: nothing while the manager is closed, the record unavailable, stopping, pending, unloaded, with a process or of another generation, or a recovery waits; a failure at the start limit; a stop if bound stops come back; and otherwise one recovery admitted in the current epoch. |
| `Lifecycles.RecoveryWaits` | internal/manager/lifecycle_events.go:523-561 | An admitted recovery is of the generation that asked, on a loaded, available, unstopped record without process of an open manager, and waits in its own substate, also out of an interrupted oneshot. |
| `Lifecycles.Lifecycle.FailStartLimit` | internal/manager/lifecycle_launch.go:454-467 | A hit start limit fails the unit by its exit event and stops bound peers unless it is stopping; nothing else changes. |
| `Lifecycles.Lifecycle.ApplyStartCompletion` | internal/manager/lifecycle_events.go:41-67 | The member is completed. Its outcome counts exactly if the record is loaded, the epoch still that of its admission, the manager open and it launched or its origin valid; it activates only on success and while nothing stops the unit; a failed unit with a process is marked for cleanup. |
| `Lifecycles.CompletionsCount` | internal/manager/lifecycle_events.go:41-94 | A completion that counts, with no recovery waiting: a failure that launched or found the unit not active fails it, a success of an unstopped unit activates it unless it was a oneshot that does not remain, a skip leaves an idle unit inactive, and a failed process is pending. |
| `Lifecycles.Lifecycle.ApplyStartOutcome` | internal/manager/lifecycle_events.go:71-94 | Passed over, with nothing changed, exactly while a recovery waits, for a rejection or skip of a live unit, and for a success after a stop; success then activates with its activation on record, and anything else is published and stops bound peers unless the unit is stopping. |
| `Lifecycles.Lifecycle.ApplyStartRejection` | internal/manager/lifecycle_events.go:98-107 | A rejection that was delivered before or belongs to another generation changes nothing; one that belongs is delivered exactly as a completion. |
| `Lifecycles.Lifecycle.CompleteNativeProbe` | internal/manager/lifecycle_native.go:129-165 | Makes the unit inactive and stops bound peers exactly if the probe is of the current generation and epoch and the unit is active, idle and not stopping; otherwise only its own operation ends. |
| `Lifecycles.Lifecycle.MarkForReaping` | internal/manager/lifecycle_events.go:428-437 | After a completion of any unit, a failed unit with a process and nothing pending is marked for cleanup, and nothing else changes. |
| `Lifecycles.Lifecycle.FailTimer` | internal/manager/lifecycle_timer.go:61-96 | Exactly an active timer that cannot be armed again on a reload fails; it stops bound peers unless it is stopping. |
| `Lifecycles.Lifecycle.Interfere` | internal/manager/lifecycle_events.go:34-603 | Any number of steps outside the gate, those caused by other units and reloads included, keep the invariant, the generation, the process and the launch under way. |
| `Lifecycles.Lifecycle.AcceptLaunch` | internal/manager/lifecycle_launch.go:28-161 | Accepted exactly if the start is still valid (open, not held, loaded; same epoch and valid origin, or an uncancelled recovery of the current generation that nothing stopped), nothing is pending, the process is the one seen and not alive, the unit is available, no shared or completed oneshot run stands for it, its bound peers are active, no other native target is abandoned, and no start limit that applies is hit. A refusal is told fine, skipped or error by the first of these it fails, and changes nothing except at the start limit, which fails the unit. An accepted launch is a new generation with what the start was admitted with. |
| `Lifecycles.Lifecycle.ObserveLaunch` | internal/manager/supervise.go:54-66 | What a launch sees before it is decided: the held process, alive only if nothing is pending and the manager open. |
| `Lifecycles.Lifecycle.Screen` | internal/manager/lifecycle_launch.go:28-126 | The checks before the start limit, in order, refuse exactly the starts that are not launchable, with the result that belongs to the first failing one. |
| `Lifecycles.Lifecycle.ApplyPreviousCleanup` | internal/manager/lifecycle_launch.go:169-184 | The previous process is let go only by its own confirmed stop. |
| `Lifecycles.Lifecycle.RecordServiceLaunch` | internal/manager/lifecycle_launch.go:186-204 | Exactly a native proxy of an open manager becomes the invocation, while the record holds no process. |
| `Lifecycles.Lifecycle.RecordInvocation` | internal/manager/lifecycle_launch.go:206-216 | The launch is current while it holds the gate, so the invocation is always recorded. |
| `Lifecycles.Lifecycle.AcceptNativeStart` | internal/manager/lifecycle_events.go:589-603 | A native start activates exactly a recovery that is still activating, unless it was cancelled, stopped or the manager closed; otherwise nothing changes. |
| `Lifecycles.Lifecycle.HoldProcess` | internal/manager/lifecycle_launch.go:252-263 | A returned process is held by the record, which had none. |
| `Lifecycles.Lifecycle.AdoptProcess` | internal/manager/lifecycle_launch.go:273-294 | The process is adopted in every case; the launch goes on exactly if neither shutdown nor stop came, otherwise cleanup is pending. A recovered service without readiness that is alive is activated at once; one with readiness starts its wait. |
| `Lifecycles.Lifecycle.AcceptProcessActivation` | internal/manager/lifecycle_launch.go:429-444 | With a stop, cancellation, a closed manager or another process than the one held nothing changes; otherwise readiness activates, and without readiness nothing changes. |
| `Lifecycles.Lifecycle.CompleteOneshot` | internal/manager/lifecycle_launch.go:352-393 | Another process changes nothing. The process is let go exactly when its cleanup is confirmed; the unit fails while cleanup is unconfirmed or other cleanup pending or if it did not complete, stays as it was after a cancellation, stop or shutdown, and is otherwise active or inactive as it remains or not; bound peers stop unless it remains. |
| `Lifecycles.OneshotDone` | internal/manager/lifecycle_launch.go:352-393 | With its cleanup confirmed and nothing else pending, an unstopped oneshot is active with its activation on record if it remains, inactive if not, and failed if it did not complete. |
| `Lifecycles.Lifecycle.ApplyOneshotCleanup` | internal/manager/lifecycle_launch.go:331-348 | Exactly for its own process: an unconfirmed oneshot stays pending, and unless it was stopped it fails by its start. |
| `Lifecycles.Lifecycle.AcceptReadinessFailure` | internal/manager/lifecycle_launch.go:395-410 | For its own process: it stays, pending and terminated, the start fails unless it is stopping, and bound peers stop exactly if it did fail; any other process changes nothing. |
| `Lifecycles.Lifecycle.ApplyLaunchCleanup` | internal/manager/lifecycle_launch.go:296-311 | Only the exact process is let go, only when confirmed stopped; a late one that is not fails the start. |
| `Lifecycles.Lifecycle.LaunchUnit` | internal/manager/supervise.go:68-88 | The whole launch under the gate, with interference between its decisions: at most one process, only with a new generation and after the previous process was confirmed stopped; it is then held or confirmed stopped itself, and the launch is no skip. |
| `Lifecycles.Lifecycle.RunLaunch` | internal/manager/supervise.go:75-134 | At most one process is created, only after the previous one is confirmed stopped and the invocation is recorded; a skip creates none, and success means the process is held, or confirmed over for a oneshot. |
| `Lifecycles.Lifecycle.LaunchService` | internal/manager/supervise.go:90-134 | Once the previous process is gone: skipped without its session, fine for a passive unit, by the native result for a proxy, and otherwise at most one process, created only with its invocation on record. |
| `Lifecycles.Lifecycle.StartNative` | internal/manager/scm.go:55-88 | Fine exactly if there is a target and the native start succeeds; a failure is recovered exactly if the policy says so. |
| `Lifecycles.Lifecycle.StartProcess` | internal/manager/supervise.go:197-247 | Exactly one process if the launcher returned one, and it is afterwards the one the record holds, or confirmed stopped; a launcher error with a process leaves it held and pending; success means every native step went well. |
| `Lifecycles.Lifecycle.FailAccountStart` | internal/manager/lifecycle_launch.go:230-240 | Exactly an activating, loaded and unstopped record of an open manager fails. |
| `Lifecycles.Lifecycle.FinishOneshot` | internal/manager/supervise.go:248-302 | Lets go of its own process at most and only confirmed; success means that it exited, was confirmed stopped and completed without cancellation, and anything unconfirmed stays held and pending. |
| `Lifecycles.Lifecycle.FinishStart` | internal/manager/supervise.go:304-343 | Success exactly if there is no readiness to wait for or it came while the process was held, unstopped, uncancelled and activating; then the unit is active. Lets go of its own process at most and only confirmed. |
| `Lifecycles.Lifecycle.StartMember` | internal/manager/operation_lifetime.go:126-159 | The member is completed; if it was cancelled after it launched, the generation it launched is superseded by a stop. |
| `Lifecycles.Lifecycle.AcceptStopCleanup` | internal/manager/lifecycle_events.go:390-415 | A stop opens a disarmed generation of its own and hands out exactly the held process and the owned definition; a native proxy holds no process, and whatever may run is pending. |
| `Lifecycles.Lifecycle.ApplyStopCleanup` | internal/manager/lifecycle_events.go:125-139 | For its own generation and process: let go exactly when confirmed, with the invocation if nothing else is pending; otherwise it stays, and stays pending. Anything else changes nothing. |
| `Lifecycles.Lifecycle.StopUnit` | internal/manager/shutdown.go:251-303 | After a stop the record is stopping in a new generation; the process is gone exactly if the stop succeeded and is then confirmed, otherwise it stays held and pending. |
| `Lifecycles.Lifecycle.Watch` | internal/manager/supervise.go:346-393 | An exit watcher lets go of its own process at most. |
| `Lifecycles.Lifecycle.AcceptProcessExitCleanup` | internal/manager/lifecycle_events.go:299-324 | Accepted exactly for the loaded record of that process with nothing pending, which then is; bound peers stop unless the unit is stopping or was terminated on purpose. |
| `Lifecycles.Lifecycle.ApplyProcessExitCleanup` | internal/manager/lifecycle_events.go:326-354 | For its own generation and process: let go exactly when confirmed, and a clean exit exactly if nothing else is pending; otherwise the start fails and bound peers stop unless the unit is stopping. |
| `Lifecycles.Lifecycle.ReapFailed` | internal/manager/supervise.go:502-513 | The reaper lets go of its own process of its own generation at most; of another record, generation or process, or once closed, it changes nothing. |
| `Lifecycles.Lifecycle.WatchdogTimeout` | internal/manager/notify.go:485-521 | A watchdog of another generation, or on a stopping, pending or closed record, changes nothing; its own lets go of the process at most. |
| `Lifecycles.Lifecycle.AcceptWatchdogFailure` | internal/manager/lifecycle_events.go:241-262 | Accepted exactly on an active or activating, loaded, unstopped record of its generation with nothing pending and the manager open; then the unit has failed by its watchdog, a held process is pending, and bound peers stop. |
| `Lifecycles.Lifecycle.ApplyWatchdogCleanup` | internal/manager/lifecycle_events.go:264-281 | The process of its own generation is let go exactly when confirmed; anything else changes nothing. |
| `Lifecycles.Lifecycle.Run` | internal/manager/supervise.go:24-513 | Any sequence of gate operations with any interference keeps the invariant, advances as promised, and shows a unit active only with an activation on record. |
| `UnitGates.MutualExclusion` | internal/manager/unitop.go:26-90 | At most one caller holds a name in every interleaving, although entries come and go. |
| `UnitGates.EntryWhileUsed` | internal/manager/unitop.go:24-48 | An entry is in the map exactly while some caller holds or waits for its name, and its count is the number of those callers. |
| `UnitGates.UnpinKeeps` | internal/manager/unitop.go:41-48 | Dropping the last reference removes an entry nobody else can be using. |
| `UnitGates.UnitOps.Retain` | internal/manager/unitop.go:26-39 | The caller waits on the live entry of the name. |
| `UnitGates.UnitOps.TakeSlot` | internal/manager/unitop.go:64-90 | The slot is taken exactly when nobody holds the name. |
| `UnitGates.UnitOps.GiveSlot` | internal/manager/unitop.go:66-71 | The holder gives the slot back before it drops its reference. |
| `UnitGates.UnitOps.Release` | internal/manager/unitop.go:41-48 | The caller is gone and nobody else is affected. |
| `UnitGates.UnitOps.Run` | internal/manager/unitop.go:56-90 | Every interleaving of lock, cancel, try-lock and unlock keeps the invariant. |
| `Sessions.LookupStaysDead` | internal/manager/lifecycle_userpolicy.go:60-82 | A token lookup issued before a logoff of its session is refused at any time after it. |
| `Sessions.SampleStaysDead` | internal/manager/lifecycle_userhost.go:24-33 | An enumeration sampled before a logoff is refused at any time after it. |
| `Sessions.BackOnlyByNewRequest` | internal/manager/lifecycle_userpolicy.go:73-82 | A session mapped after its logoff was requested after it. |
| `Sessions.UserHost.AcceptUserSessions` | internal/manager/lifecycle_userhost.go:24-70 | Accepted exactly if nothing happened since the sample and it is within the bound; then requests, sessions and observations are cut to the enumeration, every session has a fresh request, and the counter has moved past all of them; otherwise nothing changes. |
| `Sessions.ReserveRequests` | internal/manager/lifecycle_userhost.go:33-42 | Each listed session gets one fresh number of its own, duplicates none. |
| `Sessions.UserHost.AcceptSessionRequest` | internal/manager/lifecycle_userpolicy.go:23-50 | A logon gets the next number exactly if the host is open, each map has the session or fewer than 4096 others, and native work is accepted; otherwise it leaves no request behind. Requests of other sessions stay as they are. |
| `Sessions.UserHost.AcceptSessionIdentity` | internal/manager/lifecycle_userpolicy.go:60-71 | Maps the session exactly if the lookup is the current request of its session in the current revision, the host is open and there is room; otherwise nothing changes. |
| `Sessions.UserHost.RecordLogoff` | internal/manager/lifecycle_userpolicy.go:73-82 | Removes every trace of the session, moves the counter and marks it, and touches no other session. |
| `Sessions.UserHost.Run` | internal/manager/lifecycle_userpolicy.go:19-124 | Any handlers in any order keep the maps within 4096 and everything mapped newer than its last logoff. |
| `StartLimits.StartLimiter.Check` | internal/core/startlimit.go:17-22 | With a positive burst and interval, hit exactly if at least the burst of all starts since the last explicit launch are not before the cutoff; otherwise never. The pruned list gives this answer of the whole history. |
| `StartLimits.StartLimiter.Record` | internal/manager/lifecycle_launch.go:446-452 | A start let through by the check leaves no window of the interval with more than the burst. |
| `StartLimits.StartLimiter.Explicit` | internal/manager/lifecycle_launch.go:127-133 | An explicit launch starts a new history. |
| `StartLimits.RecordAnswers` | internal/core/startlimit.go:26-39 | Pruning loses nothing that a query at the same or a later time can see. |
| `StartLimits.RecordBounded` | internal/core/startlimit.go:17-39 | Room at the check means every window stays bounded after the start, even if it is recorded later. |
| `StartLimits.RecordStart` | internal/core/startlimit.go:26-39 | In-place compaction keeps exactly the starts inside the window, in order, and appends the new one. |
| `StartLimits.SinceKeeps` | internal/core/startlimit.go:50-59 | Starts not before the cutoff are kept as often as they occur, all others dropped. |
| `StartLimits.CountStartsInWindow` | internal/core/startlimit.go:50-59 | Counts the starts not before the cutoff. |
| `StartLimits.CappedRestartDelay` | internal/manager/restart_backoff.go:7-19 | The smaller of base times two to the attempt and the cap, in 64-bit arithmetic without overflow. |
| `CaptureQueues.CaptureQueue.Enqueue` | internal/journal/fair_queue.go:81-108 | Every offered record is queued at the end of its group or counted as dropped; refused outright exactly under the five conditions, otherwise only when no queue may be displaced; within all five limits and with room it is queued and nothing is dropped; turns only grow. |
| `CaptureQueues.CaptureQueue.MakeRoom` | internal/journal/fair_queue.go:39-77 | Room is made only from newest records of larger queues, never emptying one nor touching the requester; failure means no queue may be displaced. |
| `CaptureQueues.PickVictim` | internal/journal/fair_queue.go:42-65 | The victim is a largest eligible queue, none exactly if there is no eligible one. |
| `CaptureQueues.CaptureQueue.Next` | internal/journal/fair_queue.go:110-135 | The front group of the turn list hands over its oldest record and goes to the back or leaves; other queues are untouched. |
| `CaptureQueues.CaptureQueue.Complete` | internal/journal/fair_queue.go:137-152 | The record in flight becomes written or counted as dropped, and is released. |
| `CaptureQueues.EvictKeeps` | internal/journal/fair_queue.go:66-75 | Eviction keeps conservation, counters, limits and order. |
| `CaptureQueues.AcceptKeeps` | internal/journal/fair_queue.go:95-107 | Queueing a record that fits keeps conservation, counters, limits and order. |
| `CaptureQueues.RefuseKeeps` | internal/journal/fair_queue.go:23-25 | Dropping a record on admission keeps the invariant. |
| `CaptureQueues.PopKeeps` | internal/journal/fair_queue.go:110-127 | Handing a record to the writer keeps the invariant. |
| `CaptureQueues.FinishKeeps` | internal/journal/fair_queue.go:27-34 | Releasing the writer's record keeps the invariant. |
| `CaptureQueues.EvictTrims` | internal/journal/fair_queue.go:36-38 | Successive evictions leave a non-empty prefix of each queue, and take only from queues that outweigh the requester. |
| `CaptureQueues.CaptureQueue.Run` | internal/journal/fair_queue.go:36-152 | In every run, with any records offered, evictions and write results in between: the group at place p of the turn list gives the record of exactly the (p+1)-th pop, and groups not yet served have moved up one place per pop. |
| `CaptureQueues.MovesUp` | internal/journal/fair_queue.go:110-127 | A pop serves the front group and moves the others up; anything else only adds behind them. |
| `RecordBuffers.RecordBuffer.Append` | internal/journal/buffer.go:22-31 | Accepts the record unless a needed flush fails; written bytes only grow. |
| `RecordBuffers.RecordBuffer.Flush` | internal/journal/buffer.go:33-59 | Exactly the bytes taken move from buffer to file; success exactly if all were taken without error. |
| `RecordBuffers.RecordBuffer.PendingLoss` | internal/journal/buffer.go:61-67 | The number of records not fully written, and the message bytes of the described ones, whenever no accepted record is empty; in general the count is off exactly if the oldest described record is empty. |
| `RecordBuffers.PendingIsUnwritten` | internal/journal/buffer.go:61-67 | For the buffer alone: described records are those not fully written exactly unless the oldest one is empty. |
| `RecordBuffers.PendingIsExact` | internal/journal/store.go:374-384 | The journal ends each record with a newline; with no empty record the described ones are exactly those not fully written. |
| `RecordBuffers.EmptyRecordIsMiscounted` | internal/journal/buffer.go:61-67 | The bare buffer after one empty record: its invariant holds, the record counts as pending, and nothing is unwritten. |
| `RecordBuffers.FlushKeeps` | internal/journal/buffer.go:33-59 | After any partial write, written bytes and buffer are still the concatenation of accepted records, and remainders sum to the buffer length. |
| `RecordBuffers.AppendKeeps` | internal/journal/buffer.go:22-31 | Appending keeps that, and the buffer within 4096 bytes or a single record. |
| `RecordBuffers.ConsumeDescribes` | internal/journal/buffer.go:45-56 | Consuming written bytes leaves remainders that describe the unwritten tail. |
| `RecordBuffers.Shift` | internal/journal/buffer.go:45-56 | The in-place loop consumes records as the recursive definition does. |
| `CursorScans.ScanStore` | internal/journal/store.go:746-857 | The loops over files and lines compute the record-by-record reading of what is opened. |
| `CursorScans.ScanFile` | internal/journal/store.go:777-843 | One file, line by line, until the page is full. |
| `CursorScans.ReadEntry` | internal/journal/store.go:801-842 | The branches for one wanted record compute the reading whose meaning, for every cursor, is CursorScans.PageFrom. |
| `CursorScans.PeekLastTimestamp` | internal/journal/store.go:953-1005 | The stamp of the last line that is not blank, or zero. |
| `CursorScans.SkippingIsSound` | internal/journal/store.go:760-766 | With stamped archives in order, not opening the archives that end before the cursor changes nothing. |
| `CursorScans.PageFrom` | internal/journal/store.go:746-857 | Every scan, whatever its cursor and the records, also when the entry of the cursor or copies of it are gone: it resumes with the first record after as many with the cursor's id as it counts, or with the first archived record stamped later, returns as many as the budget allows, and ends with the outcome and cursor that belong there; without such a record it returns nothing and keeps its cursor. |
| `CursorScans.PositionResumes` | internal/journal/store.go:801-825 | With archived stamps in order, the cursor of a position resumes exactly there. |
| `CursorScans.ResumesOnce` | internal/journal/store.go:801-825 | For every cursor and all records there is exactly one place where the scan resumes. |
| `CursorScans.JournalHolds` | internal/journal/store.go:777-800 | What a query can return is exactly the decodable records of the files that are of its unit and not before its bound. |
| `CursorScans.CursorsExactlyWhen` | internal/journal/store.go:801-825 | Every returned cursor is the position it stands for exactly when no repeated entry is separated from its first occurrence by a later-stamped one. |
| `CursorScans.SeparatedRepeats` | internal/journal/store.go:801-825 | Otherwise a read ends with the cursor of an earlier position. |
| `CursorScans.ReadAgain` | internal/journal/store.go:801-842 | For every such repeat, a read that ends with the repeated entry is followed by one that starts at or before it and returns it again. |
| `CursorScans.ThirdPageRepeats` | internal/journal/store.go:801-842 | A three-record file whose successive two-entry pages are A B, then A, then B A. |
| `CursorScans.StampedInOrder` | internal/journal/store.go:760-766 | Non-zero stamps that do not decrease in file order are enough, for every query and grouping into files. |
| `CursorScans.CursorSurvives` | internal/journal/store.go:907-915 | A cursor stands for the same position after strictly older entries are gone. |
| `CursorScans.NextPage` | internal/journal/store.go:746-857 | One page off a store that lost strictly older entries and gained newer ones continues the one journal exactly. |
| `CursorScans.LostPage` | internal/journal/store.go:814-821 | A page with a cursor that is no longer among the records ends, if it returns anything, with a cursor that is a position again. |
| `CursorScans.NextPageAfterLoss` | internal/journal/store.go:746-857 | After the loss of the reader's own entry a page goes on in the one journal with the first archived entry stamped later, and continues it exactly from there. |
| `CursorScans.FollowCursors` | internal/journal/store.go:702-744 | Following cursors page by page yields a prefix of the journal, each entry once and in order, across appends, rotations and evictions; a whole last page leaves nothing out. |
| `CursorScans.FollowAfterLoss` | internal/journal/store.go:702-744 | Following cursors across such a loss returns the rest of the journal from the point where it resumes, each entry once and in order. |
| `CursorScans.PageProgresses` | internal/journal/store.go:826-840 | While every entry fits a page on its own, a page after k entries brings the following ones, at least one unless k is the end, and is whole exactly at the end. |
| `CursorScans.PagingIsOneQuery` | internal/journal/store.go:702-744 | While every entry fits a page on its own, following cursors for more pages than there are entries ends with a whole page and has returned exactly what one query without a budget returns. |
| `CursorScans.FollowToEnd` | internal/journal/store.go:702-744 | The same while the store changes: with more stores than missing entries, each showing the journal to its end, a reader across appends, rotations and evictions gets all of it and a whole page. |
| `CursorScans.RotationRegroups` | internal/journal/store.go:866-878 | A rotation removes the entries of the oldest archive from the journal and changes nothing else in it. |
| `CursorTexts.RoundTrip` | internal/journal/store.go:917-937 | Parsing undoes formatting for every id and every occurrence number. |
| `CursorTexts.CountIsRead` | internal/journal/store.go:924-937 | Every text with a positive count after its last space, with or without a plus sign and leading zeros, is split there. |
| `CursorTexts.OtherwiseWhole` | internal/journal/store.go:924-937 | Every other text is an id as a whole, with count one. |
| `CursorTexts.Injective` | internal/journal/store.go:917-937 | Different pairs of id and occurrence number have different texts. |
| `CursorTexts.NeverEmpty` | internal/journal/store.go:917-922 | No position is written as the empty text, which stands for the start. |
| `CursorTexts.PositionReadsBack` | internal/journal/store.go:907-951 | The text of a position of the scan gives back its id, its count and the time archives are skipped by, for every way of writing instants without spaces that can be read back. |
| `CursorTexts.PositionsDiffer` | internal/journal/store.go:907-937 | Different positions of the scan, with stamp, digest and count, have different texts, none of them empty. |
| `CursorTexts.HexInjective` | internal/journal/store.go:907-915 | Different digests have different hexadecimal texts. |
| `FileNames.UnitFileName` | internal/journal/name.go:14-35 | The encoding loop, fallback and protection compute the file name of the specification. |
| `FileNames.EncodeReservedFileName` | internal/journal/name.go:48-64 | The trailing-dot loop takes at most one round; a device stem loses its first letter to an escape. |
| `FileNames.DecodeUnitFileName` | internal/journal/name.go:79-100 | The decoding loop reads escapes and plain bytes as specified. |
| `FileNames.RetainedDiskName` | internal/journal/disk_retention.go:39-60 | The suffix search, decoding and re-encoding compute the retained unit of the specification. |
| `FileNames.DecodeSpelling` | internal/journal/name.go:87-99 | Whichever characters are escaped, the decoder finds the name again. |
| `FileNames.ProtectedSpells` | internal/journal/name.go:48-64 | Protection against dots and device names only escapes further characters. |
| `FileNames.RetainedInverts` | internal/journal/disk_retention.go:39-60 | The retained name of the file of a unit, current or archived, is that unit. |
| `FileNames.RetainedExactly` | internal/journal/disk_retention.go:37-60 | The retention namespace is exactly the current and archive names of canonical units other than the empty and dot names. |
| `FileNames.NamesDistinct` | internal/journal/name.go:9-13 | Distinct pairs of unit and generation never share a file, not even on a file system that ignores case. |
| `FileNames.NeverADevice` | internal/journal/name.go:48-76 | No produced name, of any unit and generation, is one of the device names con, prn, aux, nul, com1 to com9 or lpt1 to lpt9, in any case and with any extension. |
| `FileNames.DeviceIsReserved` | internal/journal/name.go:66-76 | The reserved stems are exactly those 22 words in any case. |
| `FileNames.OrdinaryKept` | internal/journal/name.go:14-64 | A canonical name of lower-case letters, digits and "-_.@" that is no device name, with or without an extension, and does not end in a dot is kept as it is. |
| `FileNames.NamesAllowed` | internal/journal/name.go:14-64 | Every produced name consists of printable characters without the nine that Windows forbids, and before the extension ends neither in a dot nor in a space. |
| `DiskAccounts.Retention.ReserveDisk` | internal/journal/disk_retention.go:169-199 | After success the total is within the limit and the bytes are charged to the current file. Once the directory is indexed it fails only for a size outside the limits, a missing current file, or, without room, for no historical unit left, another pruning under way, a file that cannot be removed, or more files than the 8192 attempts; with room it succeeds. Only files of units that are neither open nor the writer's own may be gone; totals equal sums. |
| `DiskAccounts.Retention.PruneHistorical` | internal/journal/disk_retention.go:252-327 | Refused exactly while another pruning is under way. Otherwise removes files of one unit that is closed, not the writer's, and left alone longest, the smaller name among equals; none exactly if there is no such unit. All of its files go unless one cannot be removed, and such a file stays. |
| `DiskAccounts.Candidates` | internal/journal/disk_retention.go:261-271 | Exactly the historical units, each with its last change. |
| `DiskAccounts.Oldest` | internal/journal/disk_retention.go:272-276 | The unit with the earliest last change and, among equals, the smallest name. |
| `DiskAccounts.PrecedesMeans` | internal/journal/disk_retention.go:272-276 | Names compare by their first difference, a prefix coming first. |
| `DiskAccounts.Retention.ReleaseDisk` | internal/journal/disk_retention.go:201-209 | Takes the bytes back and keeps total and sum equal. |
| `DiskAccounts.Retention.ObserveDisk` | internal/journal/disk_retention.go:211-219 | Replaces the reserved size by the observed one and keeps total and sum equal. |
| `DiskAccounts.Retention.OtherUnits` | internal/journal/disk_retention.go:169-247 | Whatever other units do, in any order, totals equal sums and the entries of an open unit stay as they are. |
| `DiskAccounts.ReservedElsewhere` | internal/journal/disk_retention.go:252-271 | A reservation of one unit, with its pruning, leaves every entry of another open unit alone. |
| `DiskAccounts.RotatedBalanced` | internal/journal/disk_retention.go:228-247 | Every rotation step keeps total and sum equal. |
| `DiskAccounts.ForgetBalanced` | internal/journal/disk_retention.go:221-224 | Forgetting an entry, present or not, keeps total and sum equal. |
| `Rotations.UnitFile.Rotate` | internal/journal/store.go:591-645 | A call starts a rotation or resumes the failed step, with other units at work between its steps. It completes exactly if the file was closed, no step from there on fails, the new file is reserved, created and checked; otherwise it stands exactly at the first step that failed. On success every generation is one up from where it was when the rotation began, the oldest is lost, the current file is new, and the accounts moved alike. |
| `Rotations.UnitFile.RotateWithRetries` | internal/journal/store.go:591-645 | However often steps fail and are tried again, and whatever other units do in between, files and accounts of the unit move up exactly once; the first attempt that can complete does, and one whose native operations all succeed fails only by its reservation. |
| `Rotations.UnitFile.Shift` | internal/journal/store.go:623-639 | The step loop, from wherever it stands, goes down to the first step that fails, and to the end exactly if none does. |
| `Rotations.UnitFile.Open` | internal/journal/store.go:472-505 | A new current file is reserved for; if it cannot be created the reservation is given back, if its end cannot be checked it stays, and otherwise the entry is what was found. Archives and their accounts are not touched. |
| `Rotations.ShiftedStep` | internal/journal/store.go:623-639 | One native step turns the layout of its step into that of the next. |
| `Rotations.ChargedStep` | internal/journal/disk_retention.go:226-247 | The accounts follow the files step by step, also when a file is missing. |
| `Rotations.ChargedMeanwhile` | internal/journal/disk_retention.go:226-247 | Changes that leave the unit's own entries alone leave its rotation where it is. |
| `Rotations.RotationIsRegrouping` | internal/journal/store.go:866-878 | What a reader sees of a completed rotation is the regrouping that cursors survive. |

## Left out

- Nil units, starters and graphs; names that are not ASCII (case folding covers ASCII letters only).
- Real time, timers, deadlines and goroutine scheduling; times are integers on a clock that does not go backwards.
- Integer widths, except in the restart delay: counters, generations, epochs and request numbers do not wrap around.
- Texts of errors and diagnostics, statistics other than drop counts, status and snapshot copies.
- Ready, Contains, Jobs and the other accessors of graphs, transactions and runs: easy.
- The stop phase of a restart and its origin as one operation; for a member in its stop scope it appears as a disarm followed by an admission.
- Notify, watch, helper and journal handles of a unit record: they appear only as pending cleanup that comes and goes.
- Start flights, operation records, capacity limits and the dispatch of bound stops to other units.
- User-manager instances, linger records, admission decisions and native token work behind the session protocol.
- Journal capture readers, decoding of JSON records, flush timers, retry delays, retirement and pruning marks of open files.
- Read errors, context expiry and lines over the scanner limit during a scan, after which it returns early.
- Indexing of the journal directory at start. To other units a reservation with its pruning is one step.
- DiskAccounts.Retention.ObserveDisk: an observed size may exceed the limit, which the source also allows until the next reservation.
- CaptureQueues.CaptureQueue.Next: waiting for a wake-up while the queue is empty is left to the caller.
- Windows adapters, command line, client, transport, unit-file parsing and the timer engine.
