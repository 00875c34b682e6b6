# A verified model of the MCP gateway's runtime core

The gateway publishes many MCP endpoints behind one HTTP server. Some endpoints are remote, others
are local processes that the gateway starts on demand, supervises, stops when idle and replaces on a
configuration reload. Clients of the older SSE transport are served through a session bridge. On the
way out, texts are redacted, listings are projected to the endpoint's policy, requests are limited and
disconnects are counted. This project models that core in Dafny and proves what it promises.

Coroutines are modelled as steps: each stretch of code between two awaits is one atomic step, and a run
is any sequence of steps of any tasks, old request handles included. A theorem over runs therefore
covers every interleaving the event loop can produce (and some that FIFO locks would rule out).

| File | Contents |
|---|---|
| `Common.dfy` | options, runtime identities and bridge limits, which several components share |
| `Lifecycle.dfy` | one endpoint runtime as a state machine: leases, start, terminate, exit monitor, restart loop, idle checker, drain; the invariant and its preservation step by step |
| `LifecycleSafety.dfy` | what a runtime keeps over single steps and runs, in three strengths: what no step breaks, what only an abandoned start breaks, what a lost mark breaks too; supervision, drains, retirement, the restart budget, the backoff; runs that show how it breaks |
| `Recovery.dfy` | what follows a crash or a failed start, over every run without an abandoned start; that launches, terminations, idle stops and drains come to their end |
| `ProcessManager.dfy` | the runtime, lease and supervisor classes: each method takes a step of the machine and keeps of the object what that step keeps |
| `Reload.dfy`, `Router.dfy` | the registry of runtimes and the transactional reload, as a state machine over all runtimes ever made, and as the loops of the router |
| `BridgeSession.dfy`, `LegacyBridge.dfy` | one bridge session with its POSTs, tasks, upstreams, queue and cleanup, and how each POST and session can be ended; then all sessions with indexes, limits, tombstones, lookup and the loop of `close_endpoint` |
| `SseBridge.dfy` | the tracked upstream, session and bridge classes, which keep the invariants of those machines |
| `Gateway.dfy`, `GatewaySafety.dfy` | registry and bridge composed: sessions opened and POSTs begun against a runtime, leases given back by the bridge, drains that wait for compatibility tasks and close sessions; complete retirement over whole runs |
| `GatewayLeases.dfy` | the leases of the bridge's POSTs over every run of the gateway, with nothing excluded |
| `GatewayProgress.dfy` | when openings and POSTs are let through, what a drain waits for, and a drain that runs to its end |
| `RequestLeases.dfy` | who owns the leases of a proxied request, on every path from admission to the end of its body |
| `Service.dfy`, `ServiceSafety.dfy` | gateway, limiter and requests composed: every limit lease and runtime lease that is out belongs to exactly one request, streaming body or response task |
| `Redaction.dfy`, `StreamingRedaction.dfy` | whole-text redaction and the streaming redactor that must agree with it |
| `Limits.dfy`, `Limiter.dfy` | the limiter as a function refining a count over full history, and its classes |
| `Sse.dfy` | SSE event splitting, rendering and data transformation |
| `Policy.dfy` | authorization, request names and the projection of listings |
| `Observability.dfy` | disconnect accounting over ASGI traces |

Assumptions, all about what lies outside the modelled code: killing a process succeeds (the logged-error
branch at `mcp_router/core/process_manager.py:264-269` is not taken); a returned streaming body is
iterated at least once; session ids are fresh; the clock is real-valued and never goes back; spawning,
readiness, exits, upstream answers, time-outs and cancellations are arbitrary events; a configuration has
unique paths, unique readiness ports, and a port for each managed endpoint, as its validator enforces;
printing JSON and parsing it again is the identity. A POST is known by the runtime lease that its request
holds, which no other request has. A reload drains its retired runtimes in sorted order in the code and in
any order, also interleaved, in the model. A task of the bridge gives its leases back in one step and
returns in another, so nothing depends on whether the event loop could run something in between.
Histories that the code does not keep are fields of the model that no step reads to decide anything: the
supervisor's starts, what each process was launched for, the events each response task offered and put, the
events a session accepted and where each came from, and the sessions ended. That something comes to
its end means that steps which are enabled lead there; the model has no fairness, so it says nothing about
when.

What came out false, or needs a condition:

- The supervisor's promise holds of every runtime at every moment of a run if and only if the run abandons
  no start (`Reload.SupervisorSafetyIff`; for a single step `LifecycleSafety.SupervisorStepIff`). A start is
  abandoned when its request is cancelled inside the cleanup of the failed or cancelled start, or when an
  exception leaves it that `_start_locked` does not catch, such as the HTTP client's InvalidURL for a
  configured url that only the readiness probe takes apart. The lock is then free with the state still
  STARTING and the process alive, and the next request launches a second process on the same port
  (`LifecycleSafety.CancelledCleanupLeavesTwoProcesses`, `LifecycleSafety.EscapedExceptionLeavesTwoProcesses`).
  The lease count, the restart budget and the single restart task survive even that
  (`LifecycleSafety.StepKeepsAccounts`), and so does the ownership of every lease.
- A drain's mark is lost, in the sense that some continuation leaves DRAINING again, if and only if it falls
  between the two lock sections of an idle stop (`LifecycleSafety.MarkIsLostIff`); a request can then get a
  lease under the drain (`LifecycleSafety.DrainInsideIdleStopIsLeased`). Theorems over runs about ports,
  retirement and session limits are about runs without abandoned starts and lost marks (`Reaches` of module
  Reload and of module GatewaySafety); the supervisor's promise needs only the former, and leases, budgets and
  the bridge on its own need neither.
- The streaming redactor agrees with whole-text redaction, in every chunking, when no secret after the
  longest can reach out of a placeholder: no proper part of it fits the end of "[REDACTED]" in front of the
  rest, or the start of it behind the rest. Secrets without brackets never do, nor do secrets whose only
  brackets are an opening first and a closing last character. For a single secret the condition is exact: it
  streams well behind every secret at least as long if and only if it does not reach out
  (`StreamingRedaction.StreamsBehindAnyIff`, for a secret that leaves two characters unused, of which the
  proof builds the failing text).
- Redacted output is free of all (bracket-free) secrets exactly when none of them is part of "REDACTED"
  (`Redaction.SecretsRemovedIff`).
- The text held back by the streaming redactor is bounded when overlapping secret occurrences are nested,
  and unbounded otherwise (`StreamingRedaction.ChainedOverlapsHeldBack`).
- Rendered events survive a round trip exactly when each event has a line and no line is empty or holds a
  newline (`Sse.RoundTripIff`).

## Model

| member | source | states |
|---|---|---|
| LifecycleSafety.StepKeepsAccounts | mcp_router/core/process_manager.py:41-396 | every step whatsoever, abandoned starts included, keeps the lease count exact, one restart task at most, and the restart budget |
| LifecycleSafety.StepKeepsSound | mcp_router/core/process_manager.py:41-335 | every step but an abandoned start, a mark in the idle checker's window included, keeps one process at most and on the configured port, one restart task at most, and what each holder of the lock may find |
| LifecycleSafety.StepKeepsSafe | mcp_router/core/process_manager.py:41-335 | every step of requests, monitors, restart loops, the idle checker, drains and leases, but those two, keeps besides that what drains and idle stops find in their phases |
| LifecycleSafety.SupervisorStepIff | mcp_router/core/process_manager.py:164-182 | from a sound runtime, whatever became of its drains, a step breaks the supervisor's promise (lock free means not STARTING, STOPPED or FAILED then means no live process, one process and one restart task at most) if and only if it abandons a start |
| LifecycleSafety.StepSafeIff | mcp_router/core/process_manager.py:164-208 | and it leaves the invariant of a safe runtime if and only if it abandons a start or marks a drain inside the idle checker's window |
| LifecycleSafety.MarkIsLostIff | mcp_router/server.py:390-405 | after a drain's mark on a safe runtime some continuation leaves DRAINING if and only if the mark falls between the two lock sections of an idle stop |
| LifecycleSafety.StaleMonitorHarmless | mcp_router/core/process_manager.py:289-298 | once a newer process or none is recorded, the exit monitor of an older one ends when its process is gone and the lock is free, and does nothing else, in every continuation of the run |
| LifecycleSafety.TerminationIsIdle | mcp_router/core/process_manager.py:184-208 | while a drain or an idle stop terminates the process, every lease is released and none is granted |
| LifecycleSafety.MarkedStepFrozen | mcp_router/core/process_manager.py:190-199 | after its mark a drained runtime stays DRAINING: no lease or process is added and no drain phase is undone by any step |
| LifecycleSafety.MarkedRunFrozen | mcp_router/core/process_manager.py:190-199 | the same over every continuation of the run, from any old handle |
| LifecycleSafety.DoneIsRetired | mcp_router/server.py:335-343 | at the end of a drain the runtime is DRAINING with no process, restart task or unreleased lease |
| LifecycleSafety.StepKeepsBudget | mcp_router/core/process_manager.py:337-381 | attempt numbers of supervisor starts since the last demand start increase and never pass the counter |
| LifecycleSafety.SupervisorStartWithinPolicy | mcp_router/core/process_manager.py:365-381 | only the restart loop starts on the supervisor's account, with a number no larger than the `max_attempts` in force at that moment |
| LifecycleSafety.RestartTaskWithinPolicy | mcp_router/core/process_manager.py:320-335 | no step makes a restart task but for a failed managed runtime whose policy in force is enabled and whose counter is below `max_attempts` |
| LifecycleSafety.CounterWithinPolicy | mcp_router/core/process_manager.py:337-354 | the counter goes up only by one, when the loop of a failed runtime claims the next number within the policy in force, and down only to zero, at a demand start |
| LifecycleSafety.TotalCountsStarts | mcp_router/core/process_manager.py:374-379 | `process_restarts_total` goes up by one exactly at a start the supervisor makes |
| LifecycleSafety.DelaysDouble | mcp_router/core/process_manager.py:392-396 | the first delay is the initial backoff, each later one twice the one before up to the maximum |
| Recovery.FailedIsRestarted | mcp_router/core/process_manager.py:289-335 | in every run without an abandoned start, reloads included: a resolved managed runtime that is FAILED with a free lock, restart enabled and `restart_attempts` below `max_attempts` has an unfinished restart task |
| Recovery.StepKeepsAttended | mcp_router/core/process_manager.py:41-381 | every step but an abandoned start keeps that, and keeps a recorded process watched by an unfinished exit monitor until a termination has ended that |
| Recovery.CrashIsNoticed | mcp_router/core/process_manager.py:289-314 | when the recorded process has exited by itself, its monitor is there and leads to FAILED, or leaves a stopping runtime as it is, with no process and with a restart under way if the policy permits |
| Recovery.ExitIsNoticed | mcp_router/core/process_manager.py:289-314 | so it goes when the live process of a RUNNING runtime exits; its leases stay out |
| Recovery.CrashIsFollowedByLaunch | mcp_router/core/process_manager.py:289-381 | in every such run steps of monitor and restart loop lead from the crash of a RUNNING endpoint to the next launch, if the policy permits one |
| Recovery.RestartLaunches | mcp_router/core/process_manager.py:337-381 | a restart under way launches under the next attempt number |
| Recovery.LoopEndsWhenDone | mcp_router/core/process_manager.py:341-373 | a restart loop that may not claim a number, or has slept and may not start, ends there and leaves everything else |
| Recovery.DemandMeans | mcp_router/core/process_manager.py:41-82 | a demand on an idle endpoint, or one whose process died unnoticed, launches with a fresh count or fails if readiness is unresolved; a remote, failed, draining or running one is left as it is |
| Recovery.LaunchServes | mcp_router/core/process_manager.py:98-163 | a launched process that becomes ready is the only live one, recorded, monitored and launched as configured, and the runtime grants leases |
| Recovery.FailedStartEnds | mcp_router/core/process_manager.py:171-182 | a start that fails comes to its end FAILED, without a process, and with a restart under way if the policy permits one |
| Recovery.CancelledStartEnds | mcp_router/core/process_manager.py:164-170 | one that is cancelled comes to its end STOPPED, without a process |
| Recovery.CancelledWaitEnds | mcp_router/core/process_manager.py:66-69 | a request cancelled in its wait for a superseded restart task leaves that over and the lock free |
| Recovery.CancelledCleanupLeaves | mcp_router/core/process_manager.py:164-230 | a request cancelled in the cleanup of its own start leaves STARTING, process and leases as they are, with the task it waited for over and the lock free |
| Recovery.TerminationFinishes | mcp_router/core/process_manager.py:210-273 | four awaits end a termination: the final state, no process, the lock free, leases and counter as they were |
| Recovery.IdleRuntimeStops | mcp_router/server.py:390-405 | a RUNNING managed runtime without leases can be stopped; any other is left alone |
| Recovery.DrainCompletes | mcp_router/core/process_manager.py:184-208 | a requested drain of a runtime without leases, outside the idle window, comes to its end and leaves it retired |
| Recovery.CanLeaseMeans | mcp_router/core/runtime.py:61-68 | a managed runtime grants a lease exactly while RUNNING, a remote one exactly until a drain marks it |
| Recovery.NewRuntimeIs | mcp_router/core/runtime.py:28-51 | a new runtime has nothing running, no lease and no history; a remote one grants leases at once, a managed one is STOPPED |
| LifecycleSafety.DelaysGrow | mcp_router/core/process_manager.py:392-396 | delays lie between the initial and the maximal backoff and never shrink from an attempt to a later one |
| LifecycleSafety.CancelledCleanupLeavesTwoProcesses | mcp_router/core/process_manager.py:164-230 | a run with a cancellation during cleanup after which two live processes share one readiness port |
| LifecycleSafety.EscapedExceptionLeavesTwoProcesses | mcp_router/core/process_manager.py:164-182 | the same with an exception that the start does not catch |
| LifecycleSafety.DrainInsideIdleStopIsLeased | mcp_router/server.py:390-405 | a run after which a runtime marked by a drain is RUNNING with a lease |
| Lifecycle.ReleaseCounts | mcp_router/core/runtime.py:70-77 | a first release finds a positive counter, lowers it by one and keeps the count exact, so the guard of the source is never met; a second changes nothing |
| Lifecycle.EnterStartingKeeps | mcp_router/core/process_manager.py:71-82 | entering STARTING, or failing on unresolved readiness, keeps the runtime sound whoever starts |
| Lifecycle.TerminateKeeps | mcp_router/core/process_manager.py:210-273 | each await of a termination, entered by any holder, keeps the runtime sound |
| Supervision.EndpointRuntime.FromConfig | mcp_router/core/runtime.py:48-51 | a new runtime object is safe |
| Supervision.EndpointRuntime.AcquireLease | mcp_router/core/runtime.py:61-68 | a lease object exactly when the state admits one; the count stays exact, and a sound or safe object stays so |
| Supervision.UpstreamLease.Release | mcp_router/core/runtime.py:97-110 | the first release, by whatever owner, lowers the count by one, every other changes nothing; the count stays exact, and a sound or safe object stays so |
| Supervision.ProcessManager.StartManagedServer | mcp_router/core/process_manager.py:41-69 | a demand start, refused on a failed endpoint, keeps the object sound up to its first await |
| Supervision.ProcessManager.SupersededLoopEnded | mcp_router/core/process_manager.py:66-82 | so does its resumption when the cancelled restart task is over |
| Supervision.ProcessManager.SubprocessCreated | mcp_router/core/process_manager.py:98-143 | the process recorded with its port and monitor is the only one |
| Supervision.ProcessManager.ReadinessReached | mcp_router/core/process_manager.py:155-163 | the successful start keeps the object sound and ends the restart loop that made it |
| Supervision.ProcessManager.StartFailed | mcp_router/core/process_manager.py:171-182 | a caught failure leads safely into termination towards FAILED |
| Supervision.ProcessManager.StartCancelled | mcp_router/core/process_manager.py:164-170 | a cancelled start leads safely into termination towards STOPPED; cancelled in its wait for a superseded restart task, it leaves when that is over |
| Supervision.ProcessManager.StartEscapes | mcp_router/core/process_manager.py:171-182 | an exception that is not caught leaves the start as it stands; the accounts stay exact |
| Supervision.ProcessManager.CleanupCancelled | mcp_router/core/process_manager.py:164-230 | so does a cancellation inside the cleanup, once the task that the await waits for is over |
| Supervision.ProcessManager.TerminateResumes | mcp_router/core/process_manager.py:210-273 | every await of the termination, whoever terminates, keeps the object sound |
| Supervision.ProcessManager.MonitorExitWakes | mcp_router/core/process_manager.py:289-302 | the monitor acts only on its own process |
| Supervision.ProcessManager.MonitorExitDecides | mcp_router/core/process_manager.py:304-314 | after an unexpected exit the failed runtime has no process and one restart task at most; that it has one whenever the policy permits is `Recovery.FailedIsRestarted` |
| Supervision.ProcessManager.RestartLoopClaims | mcp_router/core/process_manager.py:341-354 | a claimed attempt or the end of the loop keeps the object sound and its budget |
| Supervision.ProcessManager.RestartLoopStarts | mcp_router/core/process_manager.py:365-390 | so does the start after the backoff, within the policy then in force |
| Supervision.ProcessManager.DrainMarks | mcp_router/core/process_manager.py:190-193 | the mark keeps the object sound wherever it falls, and safe outside the idle checker's window |
| Supervision.ProcessManager.DrainStops | mcp_router/core/process_manager.py:199-208 | a drain begins to terminate only without leases |
| Supervision.ProcessManager.IdleMarks | mcp_router/server.py:390-397 | an idle runtime is marked only RUNNING and without leases |
| Supervision.ProcessManager.IdleStops | mcp_router/server.py:399-405 | and terminated to STOPPED in a second lock section |
| Supervision.ProcessManager.Perform | mcp_router/core/process_manager.py:27-396 | every step but the acquisition and release of leases, done on the object by the methods above, is the machine's step and keeps what that keeps |
| Supervision.ProcessManager.Supervise | mcp_router/core/process_manager.py:27-396 | whatever sequence of them is taken, the object keeps its accounts, and the supervisor's promise if none abandons a start |
| Supervision.ProcessManager.RestartLoop | mcp_router/core/process_manager.py:337-396 | undisturbed, the loop ends by itself on the object: RUNNING at the first success, or FAILED with the budget spent, having slept the delay of each attempt |
| Reload.LiveProcessesOnOwnPorts | mcp_router/server.py:326-369 | in every run of requests, crashes, restarts, idle stops and reloads: two live processes with the same readiness port are the same process of the same runtime |
| Reload.RequiresResetIff | mcp_router/server.py:191-210 | a configuration needs no reset if and only if it differs in nothing but path, summary and, of a managed endpoint, restart policy: any change of url, transport, bridge, mode, argv, env, cwd, readiness or shell command resets |
| Reload.ServiceStays | mcp_router/server.py:345-369 | in every run a runtime object keeps its url, transport, bridge, mode and launch |
| Reload.LiveProcessAsConfigured | mcp_router/core/process_manager.py:92-128 | in every run without an abandoned start a live process is the recorded one and was launched with exactly the argv, env, cwd, readiness and shell command now configured |
| Reload.ReloadDrainsIff | mcp_router/server.py:326-341 | a reload drains a published runtime if and only if its path is gone or more changes than may be replaced in place |
| Reload.PublishesWhenDrained | mcp_router/server.py:335-369 | the snapshot can be published exactly when every drain asked for is done; undrained runtimes stay under their paths, every other path gets a new one |
| Reload.FirstSnapshot | mcp_router/server.py:322-369 | an empty gateway publishes its first snapshot at once, with a new runtime under each path |
| Reload.LeasesCountedAlways | mcp_router/core/runtime.py:61-77 | in every run whatsoever, for every runtime object ever made: `active_leases` is the number of unreleased leases, and there is one restart task at most |
| Reload.SupervisorSafety | mcp_router/core/process_manager.py:41-314 | in every run of requests, crashes, restarts, idle stops, drains and reloads without an abandoned start, lost marks included, for every runtime object ever made: the supervisor's promise holds |
| Reload.SupervisorSafetyIff | mcp_router/core/process_manager.py:41-314 | the exact condition over runs: it holds of every runtime at every moment of the run if and only if the run abandons no start |
| Reload.SupervisorBudget | mcp_router/core/process_manager.py:320-396 | in every run whatsoever in which no published policy of a path allows more than `cap` attempts: at most `cap` supervisor starts between two demand starts, with increasing numbers, on every runtime of the path |
| Reload.WorldStepKeepsSafe | mcp_router/server.py:322-369 | every step of every runtime and of a reload keeps the registry invariant: unregistered runtimes are drained, ports of registered ones differ, exactly the runtimes a pending snapshot cannot keep are being drained |
| Reload.PublishMeans | mcp_router/server.py:345-369 | publication: the new keys are exactly the new paths, a kept runtime is the same object with its new configuration, every other path has a fresh runtime, and whatever left the registry is drained and untouched |
| Reload.RetiredForever | mcp_router/server.py:335-369 | a runtime that left the registry never returns: it gets no lease and no process in any continuation, later reloads included |
| Reload.ReconfigureKeeps | mcp_router/server.py:191-210 | a configuration that needs no reset may be replaced in place: the invariant, ports included, survives |
| Reload.InitiallySafe | mcp_router/server.py:237-244 | the empty registry satisfies the invariant |
| GatewaySafety.StepKeepsGateway | mcp_router/server.py:322-369 | every step of registry, bridge and drains together keeps both invariants and what links them: a POST holds its lease exactly while the runtime counts it, a drain has ended every expiry task it found, what it has still to close is all that is left, and session counts are within the limits in force |
| GatewaySafety.UnregisteredIsRetired | mcp_router/server.py:335-369 | in every run of requests, POSTs, tasks, crashes, restarts, idle stops and reloads: a runtime outside the registry has no process, lease, restart task, session, unfinished compatibility task or published upstream that is still open |
| GatewaySafety.RetiredForGood | mcp_router/server.py:335-369 | and so it stays in every continuation, whatever request still holds a handle on it |
| GatewaySafety.DoneIsRetiredCompletely | mcp_router/core/process_manager.py:184-199 | so it is at the end of every drain, before the new snapshot is published |
| GatewaySafety.TerminatedLinks | mcp_router/server.py:338-343 | the list that `close_endpoint` makes when the process is gone holds every session the runtime still owns |
| GatewaySafety.AwaitLinks | mcp_router/core/runtime.py:87-94 | when `cancel_legacy_tasks` returns, no expiry task of the runtime is left and none can come |
| GatewaySafety.OpenLinks | mcp_router/server.py:1139-1154 | opening a session, which the state check allows only on a runtime that is not DRAINING and so is the registered one of its path, keeps everything that links registry and bridge |
| GatewaySafety.BridgesLinks | mcp_router/compat/legacy_sse.py:441-447 | a lease that the bridge gives back, by a request or by a response task that is still unfinished, is the one the runtime releases |
| GatewayLeases.PostLeaseCounted | mcp_router/core/runtime.py:61-77 | in every run whatsoever the lease of a POST is unreleased exactly while its request or its entered response task owns it |
| GatewaySafety.LimitInForce | mcp_router/compat/legacy_sse.py:140-150 | in every run, reloads included, an endpoint has at most as many sessions as its configuration in force allows, and none when it has no bridge or is gone |
| GatewayProgress.OpensIff | mcp_router/server.py:1139-1154 | a session is opened on a runtime that is not DRAINING whenever its endpoint has a bridge and fewer sessions than it may have, and not otherwise |
| GatewayProgress.PostBeginsIff | mcp_router/compat/legacy_sse.py:243-256 | a POST begins on an open session of its runtime exactly with a lease that is out |
| GatewayProgress.DrainWaitsForTasks | mcp_router/core/runtime.py:83-94 | in every run after the mark of a drain, the drain goes on only when each expiry, setup and response task that was unfinished at the mark is over |
| GatewayProgress.RuntimeStepsGoThrough | mcp_router/server.py:322-405 | the composition takes every step of a runtime as it is, but for the phases of a drain that wait for the bridge, and the release of a lease that a POST has |
| GatewayProgress.BridgeStepsGoThrough | mcp_router/compat/legacy_sse.py:305-323 | and every step of the bridge, but that a POST is published only as the state of its runtime requires: rejected exactly while that is DRAINING |
| GatewayProgress.QuietDrainCompletes | mcp_router/core/process_manager.py:184-208 | a drain without leases, compatibility tasks or sessions runs through the gateway to its end |
| Router.MCPRouter.RetiredPaths | mcp_router/server.py:191-210 | the retired paths are exactly those that are gone or need a reset, which `Reload.RequiresResetIff` characterizes field by field |
| Router.MCPRouter.BeginReload | mcp_router/server.py:326-341 | the marking loop drains exactly the runtimes of the retired paths and keeps the registry invariant |
| Router.MCPRouter.Publish | mcp_router/server.py:345-369 | the publication loop builds exactly the published snapshot, under exactly the new paths, and keeps the invariant |
| Router.MCPRouter.BuildNext | mcp_router/server.py:345-354 | the new registry and the objects behind it: `Reload.PublishesWhenDrained` says which are kept |
| BridgeSession.PostStepKeeps | mcp_router/compat/legacy_sse.py:276-512 | every step of a POST's request, setup and response task keeps its ownership invariant, adds no work, and never unpublishes |
| BridgeSession.PublishKeeps | mcp_router/compat/legacy_sse.py:449-474 | so does publication or rejection |
| BridgeSession.QuietKeeps | mcp_router/compat/legacy_sse.py:560-653 | steps of POSTs, cleanup and the stream keep the session invariant: delivery in order, bounded queue, cleanup phases, no enqueuer after the close |
| BridgeSession.TerminalizeKeeps | mcp_router/compat/legacy_sse.py:616-653 | ending a session keeps it |
| BridgeSession.BeginCloseKeeps | mcp_router/compat/legacy_sse.py:655-683 | closing waits for every unfinished task |
| BridgeSession.LeavesQuiescent | mcp_router/compat/legacy_sse.py:655-691 | a session is disowned with no unfinished task, no listed upstream and an empty queue; its expiry task is over unless it is the closing caller |
| BridgeSession.ClosedRefusesEvents | mcp_router/compat/legacy_sse.py:596-614 | no response task of a closed session can put an event |
| BridgeSession.PutMeans | mcp_router/compat/legacy_sse.py:596-614 | an event that a pumping task offers to an open session goes to the end of the queue if there is room and else leaves the task blocked with that very event; on a closed session the task cleans up |
| BridgeSession.UnblockMeans | mcp_router/compat/legacy_sse.py:599-614 | a blocked put is done with that event as soon as there is room |
| BridgeSession.EndingCancelsOthers | mcp_router/compat/legacy_sse.py:616-653 | the task that ends a session goes on uncancelled to its cleanup, every other response task is cancelled, and the terminal event is all that is left to send |
| BridgeSession.PostIsPublished | mcp_router/compat/legacy_sse.py:362-476 | an upstream that accepts is published and its entered response task has the leases |
| BridgeSession.PostsOnOpenSessions | mcp_router/compat/legacy_sse.py:305-331 | what a POST has set up is published if and only if the session is still open and its runtime not draining; else its upstream is closed and its leases come back |
| BridgeSession.UpstreamRefuses | mcp_router/compat/legacy_sse.py:324-360 | an upstream that refuses is closed after its body is read, and the leases come back |
| BridgeSession.SetupFails | mcp_router/compat/legacy_sse.py:276-303 | a setup that fails or is cancelled gives the leases back without any upstream |
| BridgeSession.SetupAbandoned | mcp_router/compat/legacy_sse.py:276-303 | so does a request that goes away between its setup and its publication |
| BridgeSession.HandOffIff | mcp_router/compat/legacy_sse.py:476-512 | a request that has published goes on exactly when its response task was entered, and takes everything back exactly when that can no longer happen |
| BridgeSession.NeverEnteredPost | mcp_router/compat/legacy_sse.py:476-512 | a response task cancelled before it runs leaves upstream and leases to its request, which closes and gives back once |
| BridgeSession.TaskFinishes | mcp_router/compat/legacy_sse.py:441-447 | a response task that stops closes its upstream, gives the leases back and is over |
| BridgeSession.PostComesToEnd | mcp_router/compat/legacy_sse.py:276-512 | wherever a POST stands, steps of its own tasks bring it to its end, with its leases given back once |
| BridgeSession.StreamSends | mcp_router/compat/legacy_sse.py:560-594 | the stream sends the greeting, then what is queued, first come first sent, then the terminal event, and nothing after that or a disconnect |
| BridgeSession.CloseBegins | mcp_router/compat/legacy_sse.py:655-683 | when a close begins, what it cancels, and what exactly it waits for |
| BridgeSession.SessionComesToEnd | mcp_router/compat/legacy_sse.py:655-691 | a close of any session, whoever closes, can come to its end: every POST over with its leases given back, every upstream closed, the queue empty |
| LegacyBridge.StepKeepsBridge | mcp_router/compat/legacy_sse.py:127-700 | every step keeps the bridge invariant |
| LegacyBridge.IndexesAgreeAlways | mcp_router/compat/legacy_sse.py:165-167 | in every run `_sessions` is exactly the unclosed sessions, each runtime's ids are exactly its own of them, and all are owned |
| LegacyBridge.TombstonesAlways | mcp_router/compat/legacy_sse.py:696-700 | in every run the tombstones are the last min(n, 4096) of the n sessions closed with a terminal event, each once |
| LegacyBridge.DisownedIsFinished | mcp_router/compat/legacy_sse.py:655-691 | in every run a disowned session has an empty queue and no setup or response task, its expiry task is over or has closed the session and is about to return, and each upstream ever published on it was closed exactly once |
| LegacyBridge.NothingAddedAfterClose | mcp_router/compat/legacy_sse.py:305-331 | after `closed` no POST, setup task, response task or upstream is added and no event accepted, in any continuation |
| LegacyBridge.DeliveryNeverRevised | mcp_router/compat/legacy_sse.py:560-594 | in every continuation, endings and closings included, what was sent stays sent and nothing follows the terminal event |
| LegacyBridge.CloseEndpointEmpties | mcp_router/compat/legacy_sse.py:514-521 | when the loop of `close_endpoint` has closed the sessions it listed, whatever ran meanwhile, and none was opened for the runtime, then its index is empty and all its sessions are disowned and quiescent |
| LegacyBridge.LeasesGivenBackOnce | mcp_router/compat/legacy_sse.py:362-512 | in every run a POST's leases are held by its request or its entered response task, or have been given back exactly once |
| LegacyBridge.DeliveredAlways | mcp_router/compat/legacy_sse.py:560-585 | in every run the client was sent the endpoint event, then the first accepted events in order, then at most one terminal event; the queue is within capacity |
| LegacyBridge.EventsKeepOrder | mcp_router/compat/legacy_sse.py:596-614 | in every run the accepted events are those the response tasks put, each task's in the order it offered them; at most its last is missing, and that one it still holds unless it was cancelled or the session closed |
| LegacyBridge.OpenAdmits | mcp_router/compat/legacy_sse.py:127-175 | a session is admitted exactly when its endpoint has a bridge and fewer sessions than it may have, and is then open, empty, watched and in all three indexes |
| LegacyBridge.EndingIsAnswered | mcp_router/compat/legacy_sse.py:207-241 | after a deadline every POST is answered 410, after a failing response task with the code and message of that failure |
| LegacyBridge.LookUpMeans | mcp_router/compat/legacy_sse.py:207-229 | in every run a POST finds its session exactly while that is unclosed and of the same endpoint and runtime, learns why it is gone exactly while that is remembered, and that there is none exactly when neither holds |
| SseBridge.TrackedUpstream.Close | mcp_router/compat/legacy_sse.py:64-69 | however often it is closed, the context is left once |
| SseBridge.SessionObject.MarkTerminal | mcp_router/compat/legacy_sse.py:624-653 | the session's part of `_mark_terminal`, once only; the session stays safe: drained, and no response task can enqueue any more |
| SseBridge.SessionObject.EnqueueEvent | mcp_router/compat/legacy_sse.py:596-603 | in fields: an open session with room has the event at the end of its queue and the task pumps on, a full one leaves the task blocked with it, a closed one sends the task to its cleanup |
| SseBridge.SessionObject.PutUnblocks | mcp_router/compat/legacy_sse.py:599-614 | a blocked put that finds room puts the very event it holds; the order of acceptance is kept |
| SseBridge.SessionObject.EndByTask | mcp_router/compat/legacy_sse.py:423-447 | a response task that ends the session is itself not cancelled and goes on to clean up |
| SseBridge.SessionObject.Expire | mcp_router/compat/legacy_sse.py:541-553 | the deadline ends the session, unless that was closed while the expiry task woke, and the task goes on to close it |
| SseBridge.SessionObject.StreamOut | mcp_router/compat/legacy_sse.py:565-585 | on a closed session the stream's loop ends: it sends what is still queued, in order, then the terminal event if there is one |
| SseBridge.SessionObject.BeginClose | mcp_router/compat/legacy_sse.py:661-683 | the close up to its wait keeps the session safe: it waits for every unfinished task |
| SseBridge.SessionObject.CloseUpstreams | mcp_router/compat/legacy_sse.py:685-689 | the loop over the published upstreams leaves none listed |
| SseBridge.SessionObject.FinishClose | mcp_router/compat/legacy_sse.py:690-691 | the session is left quiescent |
| SseBridge.LegacySSEBridge.ActiveCount | mcp_router/compat/legacy_sse.py:140-144 | the counting loop counts the endpoint's unclosed sessions |
| SseBridge.LegacySSEBridge.OpenSession | mcp_router/compat/legacy_sse.py:127-175 | admitted under the limit into all three indexes, else nothing changes; the indexes keep agreeing |
| SseBridge.LegacySSEBridge.RememberClosed | mcp_router/compat/legacy_sse.py:696-700 | the eviction loop leaves the most recent 4096 |
| SseBridge.LegacySSEBridge.ExpireSession | mcp_router/compat/legacy_sse.py:541-553 | expiry on the bridge: index, ids, tombstone and session change together and keep the bridge invariant |
| SseBridge.LegacySSEBridge.EndByTask | mcp_router/compat/legacy_sse.py:423-440 | the same for a failing response task |
| SseBridge.LegacySSEBridge.FindExpired | mcp_router/compat/legacy_sse.py:230-241 | the same for a POST past the deadline |
| SseBridge.LegacySSEBridge.FindSession | mcp_router/compat/legacy_sse.py:207-229 | the lookup answers |
| SseBridge.LegacySSEBridge.BeginClose | mcp_router/compat/legacy_sse.py:655-683 | a close that begins takes the session out of both indexes and keeps the bridge invariant |
| SseBridge.LegacySSEBridge.FinishClose | mcp_router/compat/legacy_sse.py:690-691 | and disowns it, quiescent, at its end |
| SseBridge.LegacySSEBridge.EndpointSessions | mcp_router/compat/legacy_sse.py:514-519 | the list `close_endpoint` makes holds exactly the owned sessions of the path |
| RequestLeases.StepKeepsLeases | mcp_router/server.py:1092-1252 | every step of a request keeps lease ownership and counts |
| RequestLeases.LeasesBackOnEveryExit | mcp_router/server.py:613-643 | in every run each lease is taken and given back at most once, held exactly while the request, its body or an entered response task owns it, and back on every exit |
| ServiceSafety.RuntimeLeaseHasOneOwner | mcp_router/server.py:1163-1252 | in every run whatsoever of gateway, limiter and requests: a runtime lease is out if and only if some request has it, for itself, its streaming body or its response task, and no two have the same one |
| ServiceSafety.LimitLeaseHasOneOwner | mcp_router/server.py:1092-1252 | the same of every limit lease |
| ServiceSafety.ActiveLeasesCountOwners | mcp_router/core/runtime.py:79-81 | the counter that drains and the idle checker wait for is the number of requests, bodies and response tasks that hold a lease of the runtime |
| ServiceSafety.LimitCountsOwners | mcp_router/core/limits.py:77-94 | the counter of a limit's bucket is the number of those that hold a limit lease listing its key |
| ServiceSafety.StepKeepsService | mcp_router/server.py:1092-1252 | every step of requests, limiter, runtimes, reloads and bridge keeps it so; an `on_complete` of the bridge releases both leases of its own request |
| RequestLeases.BackOnlyWhenIdle | mcp_router/compat/legacy_sse.py:441-447 | a bridged POST's leases come back only when its setup task is over and its response task, if any, has done all its work and is about to return |
| RequestLeases.ActivationTakesBoth | mcp_router/server.py:1174-1252 | an admitted request that is activated has both leases on whatever route it goes on; a refused one has none |
| RequestLeases.LeasesComeBack | mcp_router/server.py:613-643 | where leases come back at once and where a streaming body has them |
| RequestLeases.BodyKeepsLeases | mcp_router/server.py:613-643 | a streaming body has its leases until it is closed, whatever happens to it before |
| RequestLeases.PublishDecides | mcp_router/compat/legacy_sse.py:305-331 | a published POST keeps its leases, a rejected one gives them back with its upstream closed |
| RequestLeases.RequestComesToEnd | mcp_router/server.py:1092-1252 | wherever a request stands, steps of its own bring it to its end with every lease given back |
| ServiceSafety.ArrivalIsDecided | mcp_router/server.py:1092-1110 | a request that the limiter grants has a limit lease, one that it refuses is over |
| ServiceSafety.ActivationIsGranted | mcp_router/server.py:528-563 | one that is activated has a lease of its runtime whenever that grants leases |
| ServiceSafety.PostIsBegun | mcp_router/compat/legacy_sse.py:276-282 | one whose session is open has its POST there |
| ServiceSafety.RequestsProceed | mcp_router/server.py:1092-1252 | what a request does by itself it can always do, and no other request is touched |
| ServiceSafety.GatewayGoesOn | mcp_router/server.py:322-405 | so can the rest of the gateway |
| Redaction.RedactSplits | mcp_router/core/redaction.py:49-54 | where no secret crosses a cut the two sides can be redacted apart |
| Redaction.OuterBracketsStay | mcp_router/core/redaction.py:8 | a secret whose only brackets are outermost cannot reach out of the placeholder |
| Redaction.SecretsRemovedIff | mcp_router/core/redaction.py:49-54 | bracket-free secrets are removed from every text if and only if none is part of "REDACTED" |
| Redaction.RedactIdempotent | mcp_router/core/redaction.py:49-54 | then redacting twice is redacting once |
| StreamingRedaction.StreamingSecretRedactor.RedactKnownSecrets | mcp_router/core/redaction.py:49-54 | the replacement loop computes the redaction |
| StreamingRedaction.StreamingSecretRedactor.Lowered | mcp_router/core/redaction.py:90-97 | the inner loops find the leftmost occurrence across the cut |
| StreamingRedaction.StreamingSecretRedactor.ChooseCutoff | mcp_router/core/redaction.py:88-100 | the fixpoint loop ends at the greatest cut that no secret crosses |
| StreamingRedaction.StreamingSecretRedactor.Feed | mcp_router/core/redaction.py:76-104 | what is emitted and what is carried |
| StreamingRedaction.StreamingSecretRedactor.Finish | mcp_router/core/redaction.py:106-109 | the carry is redacted and cleared |
| StreamingRedaction.StreamingAgrees | mcp_router/core/redaction.py:76-109 | when no secret after the first can reach out of a placeholder, then for every chunking the feeds and the finish concatenate to the redaction of the whole text |
| StreamingRedaction.RedactedBody | mcp_router/server.py:945-961 | the text branch of a streamed body emits that text |
| StreamingRedaction.HeldBackBound | mcp_router/core/redaction.py:82-104 | after every feed of every run, while overlapping occurrences in the text so far are nested, at most 2 * (longest - 1) characters are held back |
| StreamingRedaction.BracketFreeAgrees | mcp_router/core/redaction.py:76-109 | in particular for every list of secrets without brackets |
| StreamingRedaction.StreamsBehindAnyIff | mcp_router/core/redaction.py:76-109 | behind every secret at least as long, and for every chunking, a secret streams as it redacts if and only if it cannot reach out of a placeholder |
| StreamingRedaction.ReachingOutDiverges | mcp_router/core/redaction.py:76-109 | for every secret that can, a longer one and chunks on which the stream and the whole text differ |
| StreamingRedaction.ChainedOverlapsHeldBack | mcp_router/core/redaction.py:82-104 | texts of any length that are held back whole |
| Limits.DecidesLikeHistory | mcp_router/core/limits.py:57-85 | in every run the pruned deques and counters grant or refuse, with the same key and reason, as counting the full history and the open leases would |
| Limits.SlidingWindow | mcp_router/core/limits.py:57-85 | in every run, on a key held to r a minute, accepted requests r apart are at least 60 seconds apart |
| Limits.ActiveIsHeld | mcp_router/core/limits.py:77-94 | in every run each counter is the number of unreleased leases that list its key |
| Limits.CapKept | mcp_router/core/limits.py:72-85 | no acquire pushes a counter above the cap in force |
| Limits.RefusalChangesNothing | mcp_router/core/limits.py:67-75 | a refusal on any key leaves every counter and every count in the window as it was |
| Limits.ReleaseAt | mcp_router/core/limits.py:87-94 | a first release takes one from exactly the listed keys, each of which has one to give |
| Limits.ReleasedTwice | mcp_router/core/limits.py:29-33 | a second release changes nothing |
| Limits.SpecsDistinct | mcp_router/core/limits.py:49-63 | the buckets of one request are distinct |
| Limits.ToolKeysApart | mcp_router/core/limits.py:52-55 | a tool bucket belongs to one endpoint and one tool |
| Limits.SpecsMean | mcp_router/core/limits.py:49-63 | a limit applies exactly if it is the endpoint's under the endpoint's key, or that of the called tool under the tool's key, and limits anything; the endpoint comes first |
| Limits.AcquireIs | mcp_router/core/limits.py:62-85 | a request is granted exactly when each of its limits has room, and else refused for the first that has not, for concurrency before rate |
| Limits.HeldIs | mcp_router/core/limits.py:77-94 | the count for concurrency is the number of unreleased leases that list the key |
| Limits.RecentIs | mcp_router/core/limits.py:68-71 | the count for rate is the number of accepted requests of the last 60 seconds |
| Limits.GrantIsCounted | mcp_router/core/limits.py:77-85 | a granted request is counted under each of its limits |
| Limits.ToolLimitKept | mcp_router/core/limits.py:52-85 | in every run, while a tool of a path is limited to c at once and r a minute: at most c open leases list its key, and accepted calls of it r apart are at least 60 seconds apart |
| Limits.EndpointLimitKept | mcp_router/core/limits.py:49-85 | the same of an endpoint's own limit |
| LimiterService.RequestLimiter.ListSpecs | mcp_router/core/limits.py:49-63 | in fields: exactly the endpoint's limit and that of the called tool, each if it limits anything |
| LimiterService.RequestLimiter.PruneBucket | mcp_router/core/limits.py:68-71 | the popleft loop |
| LimiterService.RequestLimiter.CheckSpecs | mcp_router/core/limits.py:67-75 | the checking loop, with its early refusals |
| LimiterService.RequestLimiter.CommitSpecs | mcp_router/core/limits.py:77-85 | the committing loop and the keys of the lease |
| LimiterService.RequestLimiter.Acquire | mcp_router/core/limits.py:43-85 | the answer is that of counting the full history and the open leases, and the limiter goes on refining them; a lease object exactly when granted |
| LimiterService.RequestLimiter.GiveBack | mcp_router/core/limits.py:87-94 | the releasing loop |
| LimiterService.LimitLease.Release | mcp_router/core/limits.py:29-33 | the first release gives back, every other changes nothing; the counters stay exact |
| Sse.TransformMeans | mcp_router/core/sse.py:24-61 | the data of the transformed event is the transform of its data, other lines stay in order, an event without data stays as it is |
| Sse.DataLineIs | mcp_router/core/sse.py:24-42 | which lines are data, and that a single leading space does not belong to the value |
| Sse.CutRoundTrip | mcp_router/core/sse.py:8-17 | a stream that breaks off before its last blank line or newline still yields its last event |
| Sse.TransformSseEvent | mcp_router/core/sse.py:24-61 | the loops with both output branches compute the transform |
| Sse.OverwriteLines | mcp_router/core/sse.py:46-50 | the branch that overwrites in place |
| Sse.SpliceLines | mcp_router/core/sse.py:52-61 | the branch that regroups |
| Sse.IterSseEvents | mcp_router/core/sse.py:8-17 | the splitting loop |
| Sse.RoundTripIff | mcp_router/core/sse.py:8-21 | rendered events split on newlines and parsed again are the same events if and only if each has a line and no line is empty or holds a newline |
| Policy.AuthorizeMeans | mcp_router/core/policy.py:74-103 | a call is allowed exactly when its method and its name pass their lists; an allow list refuses an absent name, a deny list does not |
| Policy.AuthorizeByMethod | mcp_router/core/policy.py:74-103 | method by method with the policy's fields: tool calls go by the tool lists, the resource methods and a listen to a resource by the resource lists, prompts by the prompt lists, everything else by the method lists alone |
| Policy.RefusalReason | mcp_router/core/policy.py:80-103 | the reason of a refusal: method lists before name lists, not allowed before denied |
| Policy.AdmitByMethod | mcp_router/server.py:1053-1083 | the same of requests, with the parameter that each name is read from; an absent, empty or non-string name passes only where there is no allow list |
| Policy.ListenByLists | mcp_router/core/protocol.py:287-319 | a listen that names no resource goes by the method lists alone, else each URI must pass the resource lists too |
| Policy.ListenAdmittedIff | mcp_router/core/protocol.py:287-319 | a subscription to many URIs is admitted if and only if one to each alone is; anything but non-empty strings makes it malformed |
| Policy.SurvivesIffCallable | mcp_router/core/policy.py:139-154 | a listed object survives exactly when the gateway would admit the call its name makes |
| Policy.KeepsOrder | mcp_router/core/policy.py:137-154 | exactly the survivors are kept, unchanged and in order |
| Policy.ProjectListsAt | mcp_router/core/policy.py:128-157 | only the three lists of a result are touched |
| Policy.ProjectionIs | mcp_router/core/policy.py:128-157 | the three lists by name, the call that each item stands for, and where its name is read from |
| Policy.ProjectsLinesAndBodies | mcp_router/core/policy.py:105-161 | a body is projected as it is; on a data line what follows "data: " is, and the line stays one |
| Policy.ProjectListsChange | mcp_router/core/policy.py:128-160 | a result changes exactly when some list drops an item |
| Policy.ProjectTwice | mcp_router/core/policy.py:105-161 | projecting twice is projecting once |
| Policy.ProjectTextMeans | mcp_router/core/policy.py:105-161 | the text is reported changed exactly when its payload changes, then reads as the projected payload, and is otherwise the text that came in |
| Policy.ProjectTextTwice | mcp_router/core/policy.py:105-161 | a projected text is projected to itself and reported unchanged |
| Policy.NamesOf | mcp_router/core/protocol.py:287-319 | the names a policy must authorize, or the request is malformed |
| Policy.AdmitRequest | mcp_router/server.py:1053-1083 | the first refused name answers the request |
| Policy.ProjectItems | mcp_router/core/policy.py:137-154 | the filtering loop, and its flag exactly when an item is dropped |
| Policy.ProjectResult | mcp_router/core/policy.py:128-157 | the loop over the three lists |
| Policy.ProjectJsonText | mcp_router/core/policy.py:105-161 | the whole projection of a body or data line |
| Observability.GatewayObservabilityMiddleware.Call | mcp_router/core/observability.py:72-162 | for every trace: one stream cancellation for a known endpoint if and only if a disconnect signal came after the start and before the final body was delivered, else none; the bytes of delivered bodies; the cancelled flag; and the status of the last event that announces one or is a live disconnect |
| Observability.ObservedCall.ObserveReceive | mcp_router/core/observability.py:100-104 | the shared variables after a receive |
| Observability.ObservedCall.ObserveSend | mcp_router/core/observability.py:106-131 | the shared variables after a send that is delivered or fails |
| Observability.ObservedCall.Leave | mcp_router/core/observability.py:135-142 | the verdict when the application leaves |
| Observability.GatewayMetrics.RecordStreamCancellation | mcp_router/core/observability.py:54-55 | one counter of one endpoint goes up by one |
| Observability.UndisturbedStatus | mcp_router/core/observability.py:106-112 | without a live disconnect the recorded status is the last one announced, delivered or not |
| Observability.StatusMeans | mcp_router/core/observability.py:84-131 | 500 while nothing has happened, the last announced status after that, 499 from a live disconnect on unless a later start announces another |
| Observability.CancelledStatus | mcp_router/core/observability.py:135-142 | a cancelled call, and one that ends in a live disconnect, is recorded as 499 |
| Observability.FinalBodySettles | mcp_router/core/observability.py:92-131 | nothing after the final body changes whether a cancellation is counted |

## Left out

- Shutdown of the gateway, cancellation of the reload task or of the idle checker, and a second, overlapping stop of one runtime.
- An exception out of `upstream.close()` inside `close_endpoint` (`mcp_router/compat/legacy_sse.py:685-691`) aborts the reload and leaves its runtimes DRAINING in the registry; in the model the close of that session can be left and begun again, but the reload stays pending until it publishes.
- The log tasks of a process, its exit code, failure reason and activity time; the idle deadline is an arbitrary event.
- Termination of a drain while a client keeps a stream open: the code does not guarantee it, so drains are covered for safety, and for their completion once no lease is out.
- A process that survives being killed (`mcp_router/core/process_manager.py:264-269`).
- `legacy_session_ids` and `legacy_tasks` are fields of the runtime in the code; in the model the bridge holds the first and the second is the set of unfinished tasks of the runtime's sessions, `Gateway.LegacyTasks`.
- The upstream of a bridge POST whose setup succeeds while its request is cancelled before resuming (`mcp_router/compat/legacy_sse.py:283-303`) or while it waits for the cleanup lock (`mcp_router/compat/legacy_sse.py:325`, `mcp_router/compat/legacy_sse.py:450`), which the code leaves unclosed: its leases are covered, but claims about upstreams are claims about upstreams published on a session.
- RequestLeases.LeasesBackOnEveryExit: does not model an exception between admission and activation (`mcp_router/server.py:1110-1172`), where nothing guards the limit lease; no request is known to raise one, as the configured url has been taken apart by the validator.
- Sessions' deadlines and `touch`: expiry may happen at any time; bridge metrics, headers, remote session ids and the wording of errors.
- SseBridge.SessionObject.MarkTerminal: does not record the cancellation of setup and expiry tasks, as either may end in any way at any time in the model; the cancellation of response tasks, on which the order of events depends, is recorded.
- Tasks of a POST are values filed in their session, so aliasing between task objects and the sets that list them is not captured.
- Runtime objects in `Router` are values filed under their identity (path and creating snapshot), so sharing of one object between old and new registries is expressed by that identity.
- Supervision.ProcessManager.RestartLoop: describes the loop undisturbed under one policy; interference and policy changes are covered by the two loop steps of the machine.
- StreamingRedaction.StreamingAgrees: for lists of more than two secrets the condition is sufficient; a list can agree although one of its secrets reaches out, when other secrets always overlap the place where it would.
- `SecretRedactor.__init__` (splitting off bearer tokens, sorting) and the regular-expression redaction of logs.
- Limits: two requests of one event-loop turn read the clock in the order they take the lock, as the lock is never held across an await.
- Sse.RoundTripIff: splits text on the newline only and leaves out the UTF-8 encoding.
- Policy: the principal and endpoint that a decision repeats, the policy version hash, the order of an object's keys, and the error codes of refusals.
- Observability: the counters of denied calls and upstream errors, request ids, headers and the log record's other fields.
- HTTP client and server plumbing, retries on stale connections, security middleware, header filtering, protocol era checks, configuration loading and watching, summaries, metrics rendering and the command line.
