/** The runtime object, its leases and the process supervisor in their own imperative form. Each
    method is one stretch of code between two awaits; its contract ties the new value of the object
    to a step of the state machine of module Lifecycle. */
module Supervision {
  import opened Common
  import L = Lifecycle
  import opened LifecycleSafety

  type State = L.State

  /** Mutable operational state owned by one configured endpoint. */
  class EndpointRuntime {
    var config: L.Endpoint
    var state: State
    var process: Option<nat>
    var exitTask: Option<nat>
    var restartTask: Option<nat>
    var activeLeases: nat
    var restartAttempts: nat
    var processRestartsTotal: nat
    var section: L.Section
    var alive: map<nat, L.Launch>
    var monitors: set<nat>
    var loops: map<nat, L.LoopPhase>
    var leases: seq<bool>
    var idlePending: bool
    var drain: L.Drain
    var starts: seq<nat>
    var nextProcess: nat
    var nextTask: nat

    function Value(): L.Runtime
      reads this
    {
      L.Runtime(config, state, process, exitTask, restartTask, activeLeases, restartAttempts, processRestartsTotal,
                section, alive, monitors, loops, leases, idlePending, drain, starts, nextProcess, nextTask)
    }

    constructor FromConfig(config: L.Endpoint)
      ensures Value() == L.FromConfig(config) && L.Safe(Value()) && Accounted(Value())
    {
      this.config := config;
      state := if config.mode.Managed? then L.STOPPED else L.RUNNING;
      process, exitTask, restartTask := None, None, None;
      activeLeases, restartAttempts, processRestartsTotal := 0, 0, 0;
      section, alive, monitors, loops := L.Free, map[], {}, map[];
      leases, idlePending, drain, starts := [], false, L.NotDrained, [];
      nextProcess, nextTask := 0, 0;
    }

    method AcquireLease() returns (lease: Option<UpstreamLease>)
      modifies this
      ensures Value() == L.AcquireLease(old(Value()))
      ensures Kept(old(Value()), L.Serves(L.Acquire), Value())
      ensures lease.Some? <==> L.CanLease(old(Value()))
      ensures lease.Some? ==> fresh(lease.value) && lease.value.Valid() && lease.value.runtime == this
                              && lease.value.id == |old(leases)| && !lease.value.released
    {
      hide Kept;
      StepKeeps(Value(), L.Serves(L.Acquire));
      if state == L.DRAINING || state == L.FAILED {
        return None;
      }
      if config.mode.Managed? && state != L.RUNNING {
        return None;
      }
      CountLease();
      var handle := new UpstreamLease(this, |leases| - 1);
      lease := Some(handle);
    }

    method CountLease()
      modifies this`activeLeases, this`leases
      ensures activeLeases == old(activeLeases) + 1 && leases == old(leases) + [false]
    {
      activeLeases := activeLeases + 1;
      leases := leases + [false];
    }

    /** `_release_lease`, reached once per lease object; the zero guard of the source is never met. */
    method ReleaseCounted()
      requires activeLeases > 0
      modifies this`activeLeases
      ensures activeLeases == old(activeLeases) - 1
    {
      activeLeases := activeLeases - 1;
    }
  }

  /** Idempotent lease held for the whole lifetime of one upstream operation. */
  class UpstreamLease {
    const runtime: EndpointRuntime
    const id: nat
    var released: bool

    ghost predicate Valid()
      reads this, runtime
    {
      id < |runtime.leases| && runtime.leases[id] == released
    }

    constructor (runtime: EndpointRuntime, id: nat)
      requires id < |runtime.leases| && !runtime.leases[id]
      ensures this.runtime == runtime && this.id == id && !released && Valid()
    {
      this.runtime := runtime;
      this.id := id;
      released := false;
    }

    /** Released once, with effect; every further call changes nothing. Its callers are the request,
        the body of a stream, and a response task of the bridge in its own last stretch. */
    method Release()
      requires Valid() && L.LeasesCounted(runtime.Value())
      modifies this, runtime
      ensures Valid() && released && L.LeasesCounted(runtime.Value())
      ensures runtime.Value() == L.ReleaseLease(old(runtime.Value()), id)
      ensures !old(released) ==> runtime.activeLeases == old(runtime.activeLeases) - 1
      ensures old(released) ==> runtime.Value() == old(runtime.Value())
      ensures Kept(old(runtime.Value()), L.Serves(L.Release(id)), runtime.Value())
    {
      L.ReleaseCounts(runtime.Value(), id);
      hide Kept;
      StepKeeps(runtime.Value(), L.Serves(L.Release(id)));
      if released {
        return;
      }
      released := true;
      runtime.leases := runtime.leases[id := true];
      runtime.ReleaseCounted();
    }
  }

  /** The loop's task stands before a claim on a failed runtime that may be restarted. */
  ghost predicate Waiting(r: L.Runtime, task: nat) {
    && L.Sound(r) && r.section == L.Free && r.state == L.FAILED && r.restartTask == Some(task)
    && task in r.loops && r.loops[task] == L.AtTop && L.Resolved(r.config) && r.config.mode.restart.enabled
  }

  ghost function Turn(r: L.Runtime, task: nat): L.Runtime {
    L.Spawned(L.LoopStarts(L.LoopClaims(r, task), task))
  }

  ghost function Failed(r: L.Runtime): L.Runtime {
    L.TerminateStep(L.TerminateStep(L.TerminateStep(L.TerminateStep(L.StartFails(r)))))
  }

  /** The loop's own start is being probed. */
  ghost predicate Probed(r: L.Runtime, task: nat) {
    && L.Sound(r) && r.section.Probing? && r.section.who == L.ByLoop(task) && r.restartTask == Some(task)
    && task in r.loops && L.Resolved(r.config) && r.config.mode.restart.enabled
  }

  lemma TurnProbes(r: L.Runtime, task: nat)
    requires Waiting(r, task) && r.restartAttempts < r.config.mode.restart.maxAttempts
    ensures var r' := Turn(r, task);
      && Probed(r', task) && r'.config == r.config && r'.restartAttempts == r.restartAttempts + 1
    ensures L.LoopClaims(r, task).config == r.config
    ensures L.LoopClaims(r, task).restartAttempts == r.restartAttempts + 1
  {
    var a, n := L.LoopClaims(r, task), r.restartAttempts + 1;
    assert a == r.(restartAttempts := n, loops := r.loops[task := L.Sleeping(n)]);
    L.LoopClaimsKeeps(r, task);
    StartLaunches(a, task);
    L.LoopStartsKeeps(a, task);
    L.SpawnedKeeps(L.LoopStarts(a, task));
  }

  lemma StartLaunches(a: L.Runtime, task: nat)
    requires L.Sound(a) && a.section == L.Free && L.LoopMayStart(a, task)
    requires a.restartTask == Some(task) && L.Resolved(a.config)
    ensures var b := L.LoopStarts(a, task);
      && b.section == L.Launching(L.ByLoop(task)) && b.config == a.config && b.restartAttempts == a.restartAttempts
      && b.restartTask == Some(task) && task in b.loops
  {
    var s := L.LoopStarting(a, task);
    assert L.BeginStart(s, L.ByLoop(task)) == L.EnterStarting(s, L.ByLoop(task));
  }

  lemma ProbedReady(r: L.Runtime, task: nat)
    requires Probed(r, task)
    ensures var r' := L.Ready(r);
      && r'.state == L.RUNNING && task !in r'.loops
      && r'.config == r.config && r'.restartAttempts == r.restartAttempts
  {
  }

  lemma ProbedFails(r: L.Runtime, task: nat)
    requires Probed(r, task)
    ensures var r' := Failed(r);
      Waiting(r', task) && r'.config == r.config && r'.restartAttempts == r.restartAttempts
  {
    var a := L.StartFails(r);
    var b := L.TerminateStep(a);
    var c := L.TerminateStep(b);
    var d := L.TerminateStep(c);
    L.StartFailsKeeps(r);
    L.TerminateKeeps(a);
    L.TerminateKeeps(b);
    L.TerminateKeeps(c);
    L.TerminateKeeps(d);
    assert b == a.(section := a.section.(stage := L.EndMonitor));
    assert d.section == L.Terminating(L.ByLoop(task), L.FAILED, L.EndLogs) && task in d.loops;
    FailedLoopGoesOn(d, task);
  }

  lemma FailedLoopGoesOn(d: L.Runtime, task: nat)
    requires d.section == L.Terminating(L.ByLoop(task), L.FAILED, L.EndLogs)
    requires task in d.loops && d.restartTask == Some(task) && L.Resolved(d.config)
    ensures var e := L.TerminateStep(d);
      && e.section == L.Free && e.state == L.FAILED && e.restartTask == Some(task) && task in e.loops
      && e.loops[task] == L.AtTop && e.config == d.config && e.restartAttempts == d.restartAttempts
  {
  }

  class ProcessManager {
    constructor () {}

    method EndLoopTask(r: EndpointRuntime, task: nat)
      modifies r
      ensures r.Value() == L.EndLoopTask(old(r.Value()), task)
    {
      r.loops := r.loops - {task};
      if r.restartTask == Some(task) {
        r.restartTask := None;
      }
    }

    method ScheduleRestartIfAllowed(r: EndpointRuntime)
      modifies r
      ensures r.Value() == L.ScheduleRestart(old(r.Value()))
    {
      if r.state != L.FAILED || !r.config.mode.Managed? {
        return;
      }
      var restart := r.config.mode.restart;
      if !restart.enabled || r.restartAttempts >= restart.maxAttempts {
        return;
      }
      if r.restartTask.Some? && r.restartTask.value in r.loops {
        return;
      }
      r.restartTask := Some(r.nextTask);
      r.loops := r.loops[r.nextTask := L.AtTop];
      r.nextTask := r.nextTask + 1;
    }

    method StartManagedServer(r: EndpointRuntime)
      modifies r
      ensures r.Value() == L.DemandStart(old(r.Value()))
      ensures Kept(old(r.Value()), L.Starts(L.Demand), r.Value())
    {
      hide Kept;
      StepKeeps(r.Value(), L.Starts(L.Demand));
      if r.section != L.Free || r.state == L.FAILED {
        return;
      }
      StartLocked(r, L.ByRequest);
    }

    method StartRaises(r: EndpointRuntime, who: L.Actor)
      modifies r
      ensures r.Value() == L.StartRaises(old(r.Value()), who)
    {
      if who.ByLoop? && who.task in r.loops {
        r.loops := r.loops[who.task := L.AtTop];
      }
    }

    /** `_start_locked` up to its first await. */
    method StartLocked(r: EndpointRuntime, who: L.Actor)
      modifies r
      ensures r.Value() == L.BeginStart(old(r.Value()), who)
    {
      if !r.config.mode.Managed? {
        StartRaises(r, who);
        return;
      }
      if r.process.Some? && r.process.value in r.alive && r.state == L.RUNNING {
        if who.ByLoop? {
          EndLoopTask(r, who.task);
        }
        return;
      }
      if r.state == L.DRAINING {
        StartRaises(r, who);
        return;
      }
      if r.restartTask.Some? && who != L.ByLoop(r.restartTask.value) && r.restartTask.value in r.loops {
        r.section := L.AwaitingLoop(who);
        return;
      }
      EnterStarting(r, who);
    }

    method EnterStarting(r: EndpointRuntime, who: L.Actor)
      modifies r
      ensures r.Value() == L.EnterStarting(old(r.Value()), who)
    {
      if who == L.ByRequest {
        r.restartAttempts, r.starts := 0, [];
      }
      if !L.Resolved(r.config) {
        r.state, r.section := L.FAILED, L.Free;
        StartRaises(r, who);
        return;
      }
      r.state, r.section := L.STARTING, L.Launching(who);
    }

    method SupersededLoopEnded(r: EndpointRuntime)
      modifies r
      ensures r.Value() == L.LoopGone(old(r.Value()))
      ensures Kept(old(r.Value()), L.Starts(L.LoopIsGone), r.Value())
    {
      hide Kept;
      StepKeeps(r.Value(), L.Starts(L.LoopIsGone));
      if r.section.AwaitingLoop? && r.restartTask.Some? {
        r.loops := r.loops - {r.restartTask.value};
        r.restartTask := None;
        EnterStarting(r, r.section.who);
      }
    }

    method SubprocessCreated(r: EndpointRuntime)
      modifies r
      ensures r.Value() == L.Spawned(old(r.Value()))
      ensures Kept(old(r.Value()), L.Starts(L.Spawn), r.Value())
    {
      hide Kept;
      StepKeeps(r.Value(), L.Starts(L.Spawn));
      if r.section.Launching? && r.config.mode.Managed? {
        Adopt(r);
      }
    }

    /** The new process, its exit monitor and the wait for its readiness. */
    method Adopt(r: EndpointRuntime)
      requires r.section.Launching? && r.config.mode.Managed?
      modifies r`process, r`nextProcess, r`alive, r`exitTask, r`monitors, r`section
      ensures r.Value() == L.Spawned(old(r.Value()))
    {
      var pid, launch, who := r.nextProcess, r.config.mode.launch, r.section.who;
      RecordProcess(r, pid, launch);
      StartMonitor(r, who, pid);
    }

    method RecordProcess(r: EndpointRuntime, pid: nat, launch: L.Launch)
      modifies r`process, r`nextProcess, r`alive
      ensures r.process == Some(pid) && r.nextProcess == pid + 1 && r.alive == old(r.alive)[pid := launch]
    {
      r.process, r.nextProcess := Some(pid), pid + 1;
      r.alive := r.alive[pid := launch];
    }

    method StartMonitor(r: EndpointRuntime, who: L.Actor, pid: nat)
      modifies r`exitTask, r`monitors, r`section
      ensures r.exitTask == Some(pid) && r.monitors == old(r.monitors) + {pid} && r.section == L.Probing(who, pid)
    {
      r.exitTask := Some(pid);
      r.monitors := r.monitors + {pid};
      r.section := L.Probing(who, pid);
    }

    method ReadinessReached(r: EndpointRuntime)
      modifies r
      ensures r.Value() == L.Ready(old(r.Value()))
      ensures Kept(old(r.Value()), L.Starts(L.BecomeReady), r.Value())
    {
      hide Kept;
      StepKeeps(r.Value(), L.Starts(L.BecomeReady));
      if r.section.Probing? {
        var who := r.section.who;
        r.state := L.RUNNING;
        r.section := L.Free;
        if who.ByLoop? {
          EndLoopTask(r, who.task);
        }
      }
    }

    method BeginTerminate(r: EndpointRuntime, who: L.Actor, final: State)
      modifies r`section
      ensures r.section == L.Terminating(who, final, L.EndLoop)
    {
      r.section := L.Terminating(who, final, L.EndLoop);
    }

    method StartFailed(r: EndpointRuntime)
      modifies r
      ensures r.Value() == L.StartFails(old(r.Value()))
      ensures Kept(old(r.Value()), L.Fails(L.StartFailed), r.Value())
    {
      hide Kept;
      StepKeeps(r.Value(), L.Fails(L.StartFailed));
      if r.section.Launching? || r.section.Probing? {
        BeginTerminate(r, r.section.who, L.FAILED);
      }
    }

    /** A cancelled gather has still waited for the restart task. */
    method AwaitedLoopEnds(r: EndpointRuntime)
      modifies r
      ensures r.Value() == L.AwaitedLoopEnds(old(r.Value()))
    {
      if r.restartTask.Some? {
        EndLoopTask(r, r.restartTask.value);
      }
    }

    method StartCancelled(r: EndpointRuntime)
      modifies r
      ensures r.Value() == L.StartCancelled(old(r.Value()))
      ensures Kept(old(r.Value()), L.Fails(L.StartIsCancelled), r.Value())
    {
      hide Kept;
      StepKeeps(r.Value(), L.Fails(L.StartIsCancelled));
      if r.section.AwaitingLoop? {
        if r.section.who == L.ByRequest {
          AwaitedLoopEnds(r);
          r.section := L.Free;
        }
      } else if (r.section.Launching? || r.section.Probing?) && r.section.who == L.ByRequest {
        BeginTerminate(r, L.ByRequest, L.STOPPED);
      }
    }

    method TerminatedLoopEnded(r: EndpointRuntime)
      requires r.section.Terminating?
      modifies r
      ensures r.Value() == L.LoopEnded(old(r.Value()))
    {
      var who := r.section.who;
      r.section := r.section.(stage := L.EndMonitor);
      if r.restartTask.Some? && who != L.ByLoop(r.restartTask.value) {
        EndLoopTask(r, r.restartTask.value);
      }
    }

    method TerminatedMonitorEnded(r: EndpointRuntime)
      requires r.section.Terminating?
      modifies r
      ensures r.Value() == L.MonitorEnded(old(r.Value()))
    {
      r.section := r.section.(stage := L.EndProcess);
      if r.exitTask.Some? {
        r.monitors := r.monitors - {r.exitTask.value};
      }
      r.exitTask := None;
    }

    method TerminatedProcessEnded(r: EndpointRuntime)
      requires r.section.Terminating?
      modifies r
      ensures r.Value() == L.ProcessEnded(old(r.Value()))
    {
      r.section := r.section.(stage := L.EndLogs);
      if r.process.Some? {
        r.alive := r.alive - {r.process.value};
      }
    }

    method TerminatedLogsEnded(r: EndpointRuntime)
      requires r.section.Terminating?
      modifies r
      ensures r.Value() == L.Terminated(old(r.Value()))
    {
      var who, final := r.section.who, r.section.final;
      r.process, r.state, r.section := None, final, L.Free;
      if who == L.ByDrain {
        r.drain := L.Closing;
      } else if final == L.FAILED {
        ScheduleRestartIfAllowed(r);
        StartRaises(r, who);
      }
    }

    /** `_terminate_locked`, resumed from one of its awaits. */
    method TerminateResumes(r: EndpointRuntime)
      modifies r
      ensures r.Value() == L.TerminateStep(old(r.Value()))
      ensures Kept(old(r.Value()), L.Fails(L.Terminate), r.Value())
    {
      hide Kept;
      StepKeeps(r.Value(), L.Fails(L.Terminate));
      if !r.section.Terminating? {
        return;
      }
      match r.section.stage
      case EndLoop => TerminatedLoopEnded(r);
      case EndMonitor => TerminatedMonitorEnded(r);
      case EndProcess => TerminatedProcessEnded(r);
      case EndLogs => TerminatedLogsEnded(r);
    }

    method MonitorExitWakes(r: EndpointRuntime, pid: nat)
      modifies r
      ensures r.Value() == L.MonitorWakes(old(r.Value()), pid)
      ensures Kept(old(r.Value()), L.Monitors(L.Wake(pid)), r.Value())
    {
      hide Kept;
      StepKeeps(r.Value(), L.Monitors(L.Wake(pid)));
      if !(pid in r.monitors && pid !in r.alive && r.section == L.Free) {
        return;
      }
      if r.process != Some(pid) {
        r.monitors := r.monitors - {pid};
        return;
      }
      r.process := None;
      r.exitTask := None;
      r.section := L.Reaping(pid);
    }

    method MonitorExitDecides(r: EndpointRuntime)
      modifies r
      ensures r.Value() == L.MonitorDecides(old(r.Value()))
      ensures Kept(old(r.Value()), L.Monitors(L.Decide), r.Value())
    {
      hide Kept;
      StepKeeps(r.Value(), L.Monitors(L.Decide));
      if !r.section.Reaping? {
        return;
      }
      r.monitors := r.monitors - {r.section.pid};
      r.section := L.Free;
      if r.state == L.DRAINING || r.state == L.STOPPED {
        return;
      }
      r.state := L.FAILED;
      ScheduleRestartIfAllowed(r);
    }

    method RestartLoopClaims(r: EndpointRuntime, task: nat)
      modifies r
      ensures r.Value() == L.LoopClaims(old(r.Value()), task)
      ensures Kept(old(r.Value()), L.Loops(L.Claim(task)), r.Value())
    {
      hide Kept;
      StepKeeps(r.Value(), L.Loops(L.Claim(task)));
      if !(task in r.loops && r.loops[task] == L.AtTop && r.section == L.Free) {
        return;
      }
      if !r.config.mode.Managed? || r.state != L.FAILED || !r.config.mode.restart.enabled
        || r.restartAttempts >= r.config.mode.restart.maxAttempts {
        EndLoopTask(r, task);
        return;
      }
      r.restartAttempts := r.restartAttempts + 1;
      r.loops := r.loops[task := L.Sleeping(r.restartAttempts)];
    }

    method RestartLoopStarts(r: EndpointRuntime, task: nat)
      modifies r
      ensures r.Value() == L.LoopStarts(old(r.Value()), task)
      ensures Kept(old(r.Value()), L.Loops(L.LoopStep.Restart(task)), r.Value())
    {
      hide Kept;
      StepKeeps(r.Value(), L.Loops(L.LoopStep.Restart(task)));
      if !(task in r.loops && r.loops[task].Sleeping? && r.section == L.Free) {
        return;
      }
      var attempt := r.loops[task].attempt;
      if !r.config.mode.Managed? || r.state != L.FAILED || !r.config.mode.restart.enabled
        || attempt > r.config.mode.restart.maxAttempts {
        EndLoopTask(r, task);
        return;
      }
      CountSupervisorStart(r, task);
      StartLocked(r, L.ByLoop(task));
    }

    method CountSupervisorStart(r: EndpointRuntime, task: nat)
      requires task in r.loops && r.loops[task].Sleeping?
      modifies r
      ensures r.Value() == L.LoopStarting(old(r.Value()), task)
    {
      var attempt := r.loops[task].attempt;
      r.processRestartsTotal := r.processRestartsTotal + 1;
      r.starts := r.starts + [attempt];
      r.loops := r.loops[task := L.Starting(attempt)];
    }

    method DrainMarks(r: EndpointRuntime)
      modifies r
      ensures r.Value() == L.DrainMarks(old(r.Value()))
      ensures Kept(old(r.Value()), L.Drains(L.DrainMark), r.Value())
    {
      hide Kept;
      StepKeeps(r.Value(), L.Drains(L.DrainMark));
      if r.section == L.Free && r.drain == L.Requested {
        r.state := L.DRAINING;
        r.drain := L.Marked;
      }
    }

    method DrainStops(r: EndpointRuntime)
      modifies r
      ensures r.Value() == L.DrainStops(old(r.Value()))
      ensures Kept(old(r.Value()), L.Drains(L.DrainStop), r.Value())
    {
      hide Kept;
      StepKeeps(r.Value(), L.Drains(L.DrainStop));
      if r.drain == L.LeasesGone && r.section == L.Free {
        r.drain := L.Stopping;
        BeginTerminate(r, L.ByDrain, L.DRAINING);
      }
    }

    method IdleMarks(r: EndpointRuntime)
      modifies r
      ensures r.Value() == L.IdleMarks(old(r.Value()))
      ensures Kept(old(r.Value()), L.Idles(L.IdleMark), r.Value())
    {
      hide Kept;
      StepKeeps(r.Value(), L.Idles(L.IdleMark));
      if r.section == L.Free && r.config.mode.Managed? && r.state == L.RUNNING && r.activeLeases == 0
        && !r.idlePending
      {
        r.state := L.DRAINING;
        r.idlePending := true;
      }
    }

    method IdleStops(r: EndpointRuntime)
      modifies r
      ensures r.Value() == L.IdleStops(old(r.Value()))
      ensures Kept(old(r.Value()), L.Idles(L.IdleStop), r.Value())
    {
      hide Kept;
      StepKeeps(r.Value(), L.Idles(L.IdleStop));
      if r.section == L.Free && r.idlePending && r.activeLeases == 0 {
        r.idlePending := false;
        BeginTerminate(r, L.ByIdle, L.STOPPED);
      }
    }

    /** A supervised process exits by itself. */
    method ProcessExits(r: EndpointRuntime, pid: nat)
      modifies r`alive
      ensures r.Value() == L.ProcessExits(old(r.Value()), pid)
      ensures Kept(old(r.Value()), L.Monitors(L.Exit(pid)), r.Value())
    {
      hide Kept;
      StepKeeps(r.Value(), L.Monitors(L.Exit(pid)));
      r.alive := r.alive - {pid};
    }

    /** A wait of `drain_and_stop` or of the session close after it returns. */
    method DrainPasses(r: EndpointRuntime, wait: L.DrainStep)
      requires wait.LegacyDone? || wait.LeasesDone? || wait.SessionsDone?
      modifies r`drain
      ensures r.Value() == L.ApplyDrain(old(r.Value()), wait)
      ensures Kept(old(r.Value()), L.Drains(wait), r.Value())
    {
      hide Kept;
      StepKeeps(r.Value(), L.Drains(wait));
      match wait {
        case LegacyDone => if r.drain == L.Marked { r.drain := L.LegacyGone; }
        case LeasesDone => if r.drain == L.LegacyGone && r.activeLeases == 0 { r.drain := L.LeasesGone; }
        case SessionsDone => if r.drain == L.Closing { r.drain := L.Done; }
      }
    }

    /** An exception that `_start_locked` does not catch leaves it: nothing is cleaned up. */
    method StartEscapes(r: EndpointRuntime)
      modifies r
      ensures r.Value() == L.StartEscapes(old(r.Value()))
      ensures Kept(old(r.Value()), L.Fails(L.StartRaisesOther), r.Value())
    {
      hide Kept;
      StepKeeps(r.Value(), L.Fails(L.StartRaisesOther));
      if r.section.Launching? || r.section.Probing? {
        var who := r.section.who;
        r.section := L.Free;
        if who.ByLoop? {
          EndLoopTask(r, who.task);
        }
      }
    }

    /** The request is cancelled in an await of its own cleanup; the task it waits for is over. */
    method CleanupCancelled(r: EndpointRuntime)
      modifies r
      ensures r.Value() == L.CleanupCancelled(old(r.Value()))
      ensures Kept(old(r.Value()), L.Fails(L.CleanupIsCancelled), r.Value())
    {
      hide Kept;
      StepKeeps(r.Value(), L.Fails(L.CleanupIsCancelled));
      if !(r.section.Terminating? && r.section.who == L.ByRequest) {
        return;
      }
      var stage := r.section.stage;
      r.section := L.Free;
      if stage == L.EndLoop {
        AwaitedLoopEnds(r);
      }
      if stage == L.EndMonitor && r.exitTask.Some? {
        r.monitors := r.monitors - {r.exitTask.value};
      }
    }

    method PerformStart(r: EndpointRuntime, s: L.StartStep)
      modifies r
      ensures r.Value() == L.ApplyStart(old(r.Value()), s)
    {
      match s
      case Demand => StartManagedServer(r);
      case LoopIsGone => SupersededLoopEnded(r);
      case Spawn => SubprocessCreated(r);
      case BecomeReady => ReadinessReached(r);
    }

    method PerformFail(r: EndpointRuntime, s: L.FailStep)
      modifies r
      ensures r.Value() == L.ApplyFail(old(r.Value()), s)
    {
      match s
      case StartFailed => StartFailed(r);
      case StartIsCancelled => StartCancelled(r);
      case StartRaisesOther => StartEscapes(r);
      case Terminate => TerminateResumes(r);
      case CleanupIsCancelled => CleanupCancelled(r);
    }

    method PerformDrain(r: EndpointRuntime, s: L.DrainStep)
      modifies r
      ensures r.Value() == L.ApplyDrain(old(r.Value()), s)
    {
      match s
      case DrainMark => DrainMarks(r);
      case DrainStop => DrainStops(r);
      case _ => DrainPasses(r, s);
    }

    /** Any step that a request's start, the supervisor, the idle checker or a drain takes on a runtime
        object; leases are acquired and released through their own objects. */
    method Perform(r: EndpointRuntime, s: L.Step)
      requires !s.Serves?
      modifies r
      ensures r.Value() == L.Apply(old(r.Value()), s)
      ensures Kept(old(r.Value()), s, r.Value())
    {
      hide Kept;
      StepKeeps(r.Value(), s);
      match s
      case Starts(t) => PerformStart(r, t);
      case Fails(t) => PerformFail(r, t);
      case Loops(t) =>
        match t {
          case Claim(task) => RestartLoopClaims(r, task);
          case Restart(task) => RestartLoopStarts(r, task);
        }
      case Monitors(t) =>
        match t {
          case Exit(pid) => ProcessExits(r, pid);
          case Wake(pid) => MonitorExitWakes(r, pid);
          case Decide => MonitorExitDecides(r);
        }
      case Idles(t) =>
        match t {
          case IdleMark => IdleMarks(r);
          case IdleStop => IdleStops(r);
        }
      case Drains(t) => PerformDrain(r, t);
    }

    /** Whatever sequence of these steps the event loop takes, the object keeps its accounts; and it keeps
        the supervisor's promise if no step abandons a start. */
    method Supervise(r: EndpointRuntime, steps: seq<L.Step>)
      requires Accounted(r.Value()) && forall s <- steps :: !s.Serves?
      modifies r
      ensures r.Value() == Run(old(r.Value()), steps) && Accounted(r.Value())
      ensures L.Sound(old(r.Value())) && NeverAbandons(old(r.Value()), steps) ==>
        L.Sound(r.Value()) && SupervisorOk(r.Value())
    {
      for i := 0 to |steps|
        invariant Accounted(r.Value())
        invariant Run(r.Value(), steps[i..]) == Run(old(r.Value()), steps)
      {
        assert steps[i..][0] == steps[i] && steps[i..][1..] == steps[i + 1..];
        Perform(r, steps[i]);
      }
      if L.Sound(old(r.Value())) && NeverAbandons(old(r.Value()), steps) {
        RunKeepsSound(old(r.Value()), steps);
        SoundMeansOk(r.Value());
      }
    }

    /** One turn of `_restart_loop` that nobody disturbs: claim, sleep, start, and the outcome. */
    method RestartTurn(r: EndpointRuntime, task: nat, succeeds: bool) returns (delay: real)
      requires Waiting(r.Value(), task) && r.restartAttempts < r.config.mode.restart.maxAttempts
      modifies r
      ensures L.Sound(r.Value()) && r.config == old(r.config)
      ensures r.restartAttempts == old(r.restartAttempts) + 1
      ensures delay == RestartDelay(old(r.config).mode.restart, r.restartAttempts)
      ensures if succeeds then r.state == L.RUNNING && task !in r.loops else Waiting(r.Value(), task)
    {
      TurnProbes(r.Value(), task);
      delay := BeginTurn(r, task);
      if succeeds {
        ProbedReady(r.Value(), task);
        ReadinessReached(r);
      } else {
        ProbedFails(r.Value(), task);
        FailTurn(r);
      }
    }

    method BeginTurn(r: EndpointRuntime, task: nat) returns (delay: real)
      requires L.Sound(r.Value()) && r.config.mode.Managed?
      requires L.LoopClaims(r.Value(), task).config == r.config
      modifies r
      ensures r.Value() == Turn(old(r.Value()), task) && L.Sound(r.Value())
      ensures var claimed := L.LoopClaims(old(r.Value()), task);
        delay == RestartDelay(old(r.config).mode.restart, claimed.restartAttempts)
    {
      RestartLoopClaims(r, task);
      delay := RestartDelay(r.config.mode.restart, r.restartAttempts);
      RestartLoopStarts(r, task);
      SubprocessCreated(r);
    }

    /** The failed start is terminated, and the loop goes round again. */
    method FailTurn(r: EndpointRuntime)
      requires L.Sound(r.Value())
      modifies r
      ensures r.Value() == Failed(old(r.Value())) && L.Sound(r.Value())
    {
      StartFailed(r);
      TerminateResumes(r);
      TerminateResumes(r);
      TerminateResumes(r);
      TerminateResumes(r);
    }

    /** `_restart_loop` while nobody disturbs it: it ends by itself, with the first success or with the
        budget spent, having slept the delay of each attempt. */
    method RestartLoop(r: EndpointRuntime, task: nat, succeeds: nat -> bool) returns (delays: seq<real>)
      requires Waiting(r.Value(), task) && r.restartAttempts <= r.config.mode.restart.maxAttempts
      modifies r
      ensures L.Sound(r.Value()) && task !in r.loops && r.config == old(r.config)
      ensures old(r.restartAttempts) <= r.restartAttempts <= old(r.config).mode.restart.maxAttempts
      ensures |delays| == r.restartAttempts - old(r.restartAttempts)
      ensures forall i :: 0 <= i < |delays| ==>
        delays[i] == RestartDelay(old(r.config).mode.restart, old(r.restartAttempts) + 1 + i)
      ensures if r.state == L.RUNNING then succeeds(r.restartAttempts)
        else r.state == L.FAILED && r.restartAttempts == old(r.config).mode.restart.maxAttempts
    {
      delays := [];
      while r.restartAttempts < r.config.mode.restart.maxAttempts
        invariant Waiting(r.Value(), task) && r.config == old(r.config)
        invariant old(r.restartAttempts) <= r.restartAttempts <= r.config.mode.restart.maxAttempts
        invariant |delays| == r.restartAttempts - old(r.restartAttempts)
        invariant forall i :: 0 <= i < |delays| ==>
          delays[i] == RestartDelay(r.config.mode.restart, old(r.restartAttempts) + 1 + i)
        decreases r.config.mode.restart.maxAttempts - r.restartAttempts
      {
        var success := succeeds(r.restartAttempts + 1);
        var delay := RestartTurn(r, task, success);
        delays := delays + [delay];
        if success {
          return;
        }
      }
      RestartLoopClaims(r, task);
    }
  }
}
