/** One endpoint runtime and everything that runs against it: requests, the exit monitor, the
    restart loop, the idle checker and a draining reload (mcp_router/core/runtime.py,
    mcp_router/core/process_manager.py, mcp_router/server.py).

    A value of `Runtime` is the runtime object together with the tasks that are suspended on it.
    Each function from Runtime to Runtime below is one atomic stretch of code between two awaits;
    `Apply` collects them as the steps of a state machine. The runtime lock is the field `section`:
    it names the critical section whose holder is suspended, or is Free. */
module Lifecycle {
  import opened Common

  // ------------------------------------------------------------ configuration

  datatype Restart = Restart(enabled: bool, maxAttempts: nat, initialBackoff: real, maxBackoff: real)

  datatype Readiness = Readiness(host: Option<string>, port: Option<nat>, timeout: real, interval: real, fallback: bool)

  datatype Launch = Launch(
    argv: Option<seq<string>>, env: map<string, string>, cwd: Option<string>,
    readiness: Readiness, unsafeShellCommand: Option<string>)

  datatype Mode = Remote | Managed(launch: Launch, restart: Restart)

  /** `summary` stands for every field that a reload may replace in place. */
  datatype Endpoint = Endpoint(
    path: string, url: string, transport: string, bridge: Option<BridgeConfig>, summary: string, mode: Mode)

  predicate Resolved(e: Endpoint) {
    e.mode.Managed? && e.mode.launch.readiness.host.Some? && e.mode.launch.readiness.port.Some?
  }

  // ------------------------------------------------------------------ runtime

  datatype State = STOPPED | STARTING | RUNNING | DRAINING | FAILED

  /** Who is inside `_start_locked` or `_terminate_locked`. */
  datatype Actor = ByRequest | ByLoop(task: nat) | ByIdle | ByDrain

  /** The awaits of `_terminate_locked`, in order. */
  datatype Stage = EndLoop | EndMonitor | EndProcess | EndLogs

  datatype Section =
    | Free
    | AwaitingLoop(who: Actor)                             // _start_locked, a cancelled restart task still finishing
    | Launching(who: Actor)                                // create_subprocess_* has not returned
    | Probing(who: Actor, pid: nat)                        // _wait_for_readiness
    | Terminating(who: Actor, final: State, stage: Stage)  // _terminate_locked
    | Reaping(pid: nat)                                   // _monitor_exit, log tasks still finishing

  datatype LoopPhase = AtTop | Sleeping(attempt: nat) | Starting(attempt: nat)

  /** How far `drain_and_stop` and the session close after it have come. */
  datatype Drain = NotDrained | Requested | Marked | LegacyGone | LeasesGone | Stopping | Closing | Done

  datatype Runtime = Runtime(
    config: Endpoint,
    state: State,
    process: Option<nat>,
    exitTask: Option<nat>,
    restartTask: Option<nat>,
    activeLeases: nat,
    restartAttempts: nat,
    restartsTotal: nat,
    section: Section,            // the runtime lock
    alive: map<nat, Launch>,     // processes not yet exited, with what they were launched for
    monitors: set<nat>,          // unfinished exit monitors, by process
    loops: map<nat, LoopPhase>,  // unfinished restart tasks
    leases: seq<bool>,           // every UpstreamLease handed out, true once released
    idlePending: bool,           // the idle checker is between its two lock sections
    drain: Drain,
    starts: seq<nat>,            // attempt numbers of supervisor starts since the last demand start
    nextProcess: nat, nextTask: nat)

  function FromConfig(config: Endpoint): Runtime {
    Runtime(config, if config.mode.Managed? then STOPPED else RUNNING, None, None, None, 0, 0, 0, Free,
            map[], {}, map[], [], false, NotDrained, [], 0, 0)
  }

  predicate IsRunning(r: Runtime) {
    r.process.Some? && r.process.value in r.alive
  }

  // ------------------------------------------------------------------- leases

  function Unreleased(leases: seq<bool>): nat {
    if leases == [] then 0
    else Unreleased(leases[..|leases| - 1]) + if leases[|leases| - 1] then 0 else 1
  }

  predicate CanLease(r: Runtime) {
    r.state != DRAINING && r.state != FAILED && (r.config.mode.Managed? ==> r.state == RUNNING)
  }

  function AcquireLease(r: Runtime): Runtime {
    if CanLease(r) then r.(activeLeases := r.activeLeases + 1, leases := r.leases + [false]) else r
  }

  function ReleaseLease(r: Runtime, lease: nat): Runtime {
    if lease >= |r.leases| || r.leases[lease] then r
    else r.(leases := r.leases[lease := true],
            activeLeases := if r.activeLeases > 0 then r.activeLeases - 1 else 0)
  }

  // -------------------------------------------------------------- restart loop

  function EndLoopTask(r: Runtime, task: nat): Runtime {
    r.(loops := r.loops - {task}, restartTask := if r.restartTask == Some(task) then None else r.restartTask)
  }

  function ScheduleRestart(r: Runtime): Runtime {
    if r.state != FAILED || !r.config.mode.Managed? then r
    else if !r.config.mode.restart.enabled || r.restartAttempts >= r.config.mode.restart.maxAttempts then r
    else if r.restartTask.Some? && r.restartTask.value in r.loops then r
    else r.(restartTask := Some(r.nextTask), loops := r.loops[r.nextTask := AtTop], nextTask := r.nextTask + 1)
  }

  /** First lock section of the loop: claim the next attempt number, or end. */
  function LoopClaims(r: Runtime, task: nat): Runtime {
    if !(task in r.loops && r.loops[task] == AtTop && r.section == Free) then r
    else if !r.config.mode.Managed? || r.state != FAILED || !r.config.mode.restart.enabled
      || r.restartAttempts >= r.config.mode.restart.maxAttempts then EndLoopTask(r, task)
    else r.(restartAttempts := r.restartAttempts + 1, loops := r.loops[task := Sleeping(r.restartAttempts + 1)])
  }

  /** Second lock section, after the backoff: start, or end. */
  function LoopStarts(r: Runtime, task: nat): Runtime {
    if !(task in r.loops && r.loops[task].Sleeping? && r.section == Free) then r
    else if !LoopMayStart(r, task) then EndLoopTask(r, task)
    else BeginStart(LoopStarting(r, task), ByLoop(task))
  }

  predicate LoopMayStart(r: Runtime, task: nat) {
    && task in r.loops && r.loops[task].Sleeping? && r.config.mode.Managed? && r.state == FAILED
    && r.config.mode.restart.enabled && r.loops[task].attempt <= r.config.mode.restart.maxAttempts
  }

  function LoopStarting(r: Runtime, task: nat): Runtime
    requires task in r.loops && r.loops[task].Sleeping?
  {
    var attempt := r.loops[task].attempt;
    r.(restartsTotal := r.restartsTotal + 1, starts := r.starts + [attempt],
       loops := r.loops[task := Starting(attempt)])
  }

  // -------------------------------------------------------------------- start

  /** What a failed or refused start means to its caller: a restart loop goes round again. */
  function StartRaises(r: Runtime, who: Actor): Runtime {
    if who.ByLoop? && who.task in r.loops then r.(loops := r.loops[who.task := AtTop]) else r
  }

  /** `_start_locked` up to its first await; the lock is held. */
  function BeginStart(r: Runtime, who: Actor): Runtime {
    if !r.config.mode.Managed? then StartRaises(r, who)
    else if IsRunning(r) && r.state == RUNNING then (if who.ByLoop? then EndLoopTask(r, who.task) else r)
    else if r.state == DRAINING then StartRaises(r, who)
    else if r.restartTask.Some? && who != ByLoop(r.restartTask.value) && r.restartTask.value in r.loops
      then r.(section := AwaitingLoop(who))
    else EnterStarting(r, who)
  }

  /** From the optional wait for a superseded restart task to the launch. Only a demand start
      clears the attempt counter. */
  function EnterStarting(r: Runtime, who: Actor): Runtime {
    var s := if who == ByRequest then r.(restartAttempts := 0, starts := []) else r;
    if !Resolved(s.config) then StartRaises(s.(state := FAILED, section := Free), who)
    else s.(state := STARTING, section := Launching(who))
  }

  /** `start_managed_server`, called by a request that may hold an old handle. */
  function DemandStart(r: Runtime): Runtime {
    if r.section != Free || r.state == FAILED then r else BeginStart(r, ByRequest)
  }

  function LoopGone(r: Runtime): Runtime {
    if r.section.AwaitingLoop? && r.restartTask.Some?
      then EnterStarting(r.(loops := r.loops - {r.restartTask.value}, restartTask := None), r.section.who)
      else r
  }

  function Spawned(r: Runtime): Runtime {
    if r.section.Launching? && r.config.mode.Managed? then
      r.(process := Some(r.nextProcess), exitTask := Some(r.nextProcess),
         monitors := r.monitors + {r.nextProcess},
         alive := r.alive[r.nextProcess := r.config.mode.launch],
         nextProcess := r.nextProcess + 1, section := Probing(r.section.who, r.nextProcess))
    else r
  }

  function Ready(r: Runtime): Runtime {
    if !r.section.Probing? then r
    else
      var s := r.(state := RUNNING, section := Free);
      if r.section.who.ByLoop? then EndLoopTask(s, r.section.who.task) else s
  }

  /** Launch error, early exit or readiness timeout. */
  function StartFails(r: Runtime): Runtime {
    if r.section.Launching? || r.section.Probing? then r.(section := Terminating(r.section.who, FAILED, EndLoop)) else r
  }

  /** An exception that `_start_locked` does not catch, such as the HTTP client's InvalidURL, leaves
      it: the lock is released and nothing is cleaned up. */
  function StartEscapes(r: Runtime): Runtime {
    if !(r.section.Launching? || r.section.Probing?) then r
    else
      var s := r.(section := Free);
      if r.section.who.ByLoop? then EndLoopTask(s, r.section.who.task) else s
  }

  /** The requesting task is cancelled; the restart loop is cancelled only by a lock holder. A gather that
      is cancelled still waits for its tasks, so the superseded loop is over when the request resumes. */
  function StartCancelled(r: Runtime): Runtime {
    if r.section.AwaitingLoop? then (if r.section.who == ByRequest then AwaitedLoopEnds(r).(section := Free) else r)
    else if (r.section.Launching? || r.section.Probing?) && r.section.who == ByRequest
      then r.(section := Terminating(ByRequest, STOPPED, EndLoop))
    else r
  }

  function AwaitedLoopEnds(r: Runtime): Runtime {
    if r.restartTask.Some? then EndLoopTask(r, r.restartTask.value) else r
  }

  // ---------------------------------------------------------------- terminate

  /** The superseded restart task has finished; the caller's own is left alone. */
  function LoopEnded(r: Runtime): Runtime
    requires r.section.Terminating?
  {
    var s := r.(section := r.section.(stage := EndMonitor));
    if r.restartTask.Some? && r.section.who != ByLoop(r.restartTask.value)
      then EndLoopTask(s, r.restartTask.value) else s
  }

  function MonitorEnded(r: Runtime): Runtime
    requires r.section.Terminating?
  {
    r.(section := r.section.(stage := EndProcess), exitTask := None,
       monitors := if r.exitTask.Some? then r.monitors - {r.exitTask.value} else r.monitors)
  }

  function ProcessEnded(r: Runtime): Runtime
    requires r.section.Terminating?
  {
    r.(section := r.section.(stage := EndLogs),
       alive := if r.process.Some? then r.alive - {r.process.value} else r.alive)
  }

  /** The final state is set and the lock released; a failed start then asks for a restart. */
  function Terminated(r: Runtime): Runtime
    requires r.section.Terminating?
  {
    var s := r.(process := None, state := r.section.final, section := Free);
    if r.section.who == ByDrain then s.(drain := Closing)
    else if r.section.final != FAILED then s
    else StartRaises(ScheduleRestart(s), r.section.who)
  }

  /** One await of `_terminate_locked` completes. */
  function TerminateStep(r: Runtime): Runtime {
    if !r.section.Terminating? then r
    else
      match r.section.stage
      case EndLoop => LoopEnded(r)
      case EndMonitor => MonitorEnded(r)
      case EndProcess => ProcessEnded(r)
      case EndLogs => Terminated(r)
  }

  /** Cancellation reaches a request while it terminates what it launched: the await is left, with the
      task it waits for over, the lock is released, and nothing more of the cleanup happens. */
  function CleanupCancelled(r: Runtime): Runtime {
    if !(r.section.Terminating? && r.section.who == ByRequest) then r
    else
      match r.section.stage
      case EndLoop => AwaitedLoopEnds(r).(section := Free)
      case EndMonitor =>
        r.(section := Free, monitors := if r.exitTask.Some? then r.monitors - {r.exitTask.value} else r.monitors)
      case _ => r.(section := Free)
  }

  // ------------------------------------------------------------- exit monitor

  function ProcessExits(r: Runtime, pid: nat): Runtime {
    r.(alive := r.alive - {pid})
  }

  function MonitorWakes(r: Runtime, pid: nat): Runtime {
    if !(pid in r.monitors && pid !in r.alive && r.section == Free) then r
    else if r.process != Some(pid) then r.(monitors := r.monitors - {pid})
    else r.(process := None, exitTask := None, section := Reaping(pid))
  }

  function MonitorDecides(r: Runtime): Runtime {
    if !r.section.Reaping? then r
    else
      var s := r.(monitors := r.monitors - {r.section.pid}, section := Free);
      if r.state == DRAINING || r.state == STOPPED then s else ScheduleRestart(s.(state := FAILED))
  }

  // ------------------------------------------------------------- idle checker

  /** First lock section; the clock condition is left to the caller. */
  function IdleMarks(r: Runtime): Runtime {
    if r.section == Free && r.config.mode.Managed? && r.state == RUNNING && r.activeLeases == 0 && !r.idlePending
      then r.(state := DRAINING, idlePending := true) else r
  }

  function IdleStops(r: Runtime): Runtime {
    if r.section == Free && r.idlePending && r.activeLeases == 0
      then r.(idlePending := false, section := Terminating(ByIdle, STOPPED, EndLoop)) else r
  }

  // -------------------------------------------------------------------- drain

  function DrainMarks(r: Runtime): Runtime {
    if r.section == Free && r.drain == Requested then r.(state := DRAINING, drain := Marked) else r
  }

  /** `cancel_legacy_tasks` returns. Which tasks it waited for is the bridge's concern. */
  function DrainLegacyGone(r: Runtime): Runtime {
    if r.drain == Marked then r.(drain := LegacyGone) else r
  }

  function DrainLeasesGone(r: Runtime): Runtime {
    if r.drain == LegacyGone && r.activeLeases == 0 then r.(drain := LeasesGone) else r
  }

  function DrainStops(r: Runtime): Runtime {
    if r.drain == LeasesGone && r.section == Free
      then r.(drain := Stopping, section := Terminating(ByDrain, DRAINING, EndLoop)) else r
  }

  /** `close_endpoint` returns. Which sessions it closed is the bridge's concern. */
  function DrainCloses(r: Runtime): Runtime {
    if r.drain == Closing then r.(drain := Done) else r
  }

  // -------------------------------------------------------------------- steps

  datatype StartStep = Demand | LoopIsGone | Spawn | BecomeReady

  datatype FailStep = StartFailed | StartIsCancelled | StartRaisesOther | Terminate | CleanupIsCancelled

  datatype LoopStep = Claim(task: nat) | Restart(task: nat)

  datatype MonitorStep = Exit(pid: nat) | Wake(pid: nat) | Decide

  datatype IdleStep = IdleMark | IdleStop

  datatype DrainStep = DrainMark | LegacyDone | LeasesDone | DrainStop | SessionsDone

  datatype ServeStep = Acquire | Release(lease: nat)

  datatype Step =
    | Starts(start: StartStep) | Fails(fail: FailStep) | Loops(loop: LoopStep) | Monitors(monitor: MonitorStep)
    | Idles(idle: IdleStep) | Drains(drain: DrainStep) | Serves(serve: ServeStep)

  function ApplyStart(r: Runtime, s: StartStep): Runtime {
    match s
    case Demand => DemandStart(r)
    case LoopIsGone => LoopGone(r)
    case Spawn => Spawned(r)
    case BecomeReady => Ready(r)
  }

  function ApplyFail(r: Runtime, s: FailStep): Runtime {
    match s
    case StartFailed => StartFails(r)
    case StartIsCancelled => StartCancelled(r)
    case StartRaisesOther => StartEscapes(r)
    case Terminate => TerminateStep(r)
    case CleanupIsCancelled => CleanupCancelled(r)
  }

  function ApplyLoop(r: Runtime, s: LoopStep): Runtime {
    match s
    case Claim(t) => LoopClaims(r, t)
    case Restart(t) => LoopStarts(r, t)
  }

  function ApplyMonitor(r: Runtime, s: MonitorStep): Runtime {
    match s
    case Exit(p) => ProcessExits(r, p)
    case Wake(p) => MonitorWakes(r, p)
    case Decide => MonitorDecides(r)
  }

  function ApplyIdle(r: Runtime, s: IdleStep): Runtime {
    match s
    case IdleMark => IdleMarks(r)
    case IdleStop => IdleStops(r)
  }

  function ApplyDrain(r: Runtime, s: DrainStep): Runtime {
    match s
    case DrainMark => DrainMarks(r)
    case LegacyDone => DrainLegacyGone(r)
    case LeasesDone => DrainLeasesGone(r)
    case DrainStop => DrainStops(r)
    case SessionsDone => DrainCloses(r)
  }

  function ApplyServe(r: Runtime, s: ServeStep): Runtime {
    match s
    case Acquire => AcquireLease(r)
    case Release(l) => ReleaseLease(r, l)
  }

  function Apply(r: Runtime, s: Step): Runtime {
    match s
    case Starts(t) => ApplyStart(r, t)
    case Fails(t) => ApplyFail(r, t)
    case Loops(t) => ApplyLoop(r, t)
    case Monitors(t) => ApplyMonitor(r, t)
    case Idles(t) => ApplyIdle(r, t)
    case Drains(t) => ApplyDrain(r, t)
    case Serves(t) => ApplyServe(r, t)
  }

  /** A request is cancelled while it cleans up after its own start, or an exception leaves a start uncaught. */
  predicate Abandons(r: Runtime, s: Step) {
    || (s == Fails(CleanupIsCancelled) && r.section.Terminating? && r.section.who == ByRequest)
    || (s == Fails(StartRaisesOther) && (r.section.Launching? || r.section.Probing?))
  }

  /** A drain marks the runtime while the idle checker sits between its lock sections. */
  predicate MarksIdleWindow(r: Runtime, s: Step) {
    s == Drains(DrainMark) && r.section == Free && r.drain == Requested && r.idlePending
  }

  /** The events after which the runtime is no longer safe are excluded. */
  predicate Admitted(r: Runtime, s: Step) {
    !Abandons(r, s) && !MarksIdleWindow(r, s)
  }

  // ---------------------------------------------------------------- invariant

  ghost predicate LeasesCounted(r: Runtime) {
    r.activeLeases == Unreleased(r.leases)
  }

  /** One restart task at most; it holds the lock while it starts, and goes on after a failed start. */
  ghost predicate LoopOwned(r: Runtime) {
    && (forall t <- r.loops :: r.restartTask == Some(t))
    && (forall t <- r.loops :: r.loops[t].Starting? ==> Holder(r) == Some(ByLoop(t)))
    && (r.section.Terminating? && r.section.who.ByLoop? ==> r.section.final == FAILED)
  }

  /** One process at most, launched as configured; one restart task at most. */
  ghost predicate Supervised(r: Runtime) {
    && LoopOwned(r)
    && (forall p <- r.alive :: r.process == Some(p) && r.config.mode.Managed? && r.alive[p] == r.config.mode.launch)
    && (r.config.mode.Remote? ==> UnmanagedOnly(r))
    && (r.process.Some? ==> r.process.value < r.nextProcess)
  }

  ghost predicate UnmanagedOnly(r: Runtime) {
    && r.process.None? && r.loops == map[]
    && r.state == (if Rank(r.drain) >= 2 then DRAINING else RUNNING)
    && (r.section == Free || Holder(r) == Some(ByDrain))
  }

  function Port(e: Endpoint): Option<nat> {
    if e.mode.Managed? then e.mode.launch.readiness.port else None
  }

  /** Who holds the lock inside `_start_locked` or `_terminate_locked`. */
  function Holder(r: Runtime): Option<Actor> {
    match r.section
    case AwaitingLoop(who) => Some(who)
    case Launching(who) => Some(who)
    case Probing(who, _) => Some(who)
    case Terminating(who, _, _) => Some(who)
    case _ => None
  }

  ghost predicate LoopHolds(r: Runtime, who: Actor) {
    who.ByLoop? ==> who.task in r.loops && r.loops[who.task].Starting?
  }

  ghost predicate Starter(who: Actor) {
    who.ByRequest? || who.ByLoop?
  }

  ghost predicate Sectioned(r: Runtime) {
    match r.section
    case Free => r.state != STARTING && (r.state == STOPPED || r.state == FAILED ==> r.alive == map[])
    case AwaitingLoop(who) => who == ByRequest && r.alive == map[] && (r.state == STOPPED || r.state == RUNNING)
    case Launching(who) => Starter(who) && r.state == STARTING && r.alive == map[] && LoopHolds(r, who)
    case Probing(who, pid) => Starter(who) && r.state == STARTING && r.process == Some(pid) && LoopHolds(r, who)
    case Reaping(_) => r.state != STARTING && r.alive == map[] && r.process.None?
    case Terminating(who, final, stage) =>
      && CleaningUp(r, who, final) && LoopHolds(r, who)
      && (stage == EndLogs ==> r.alive == map[])
      && (stage != EndLoop && !who.ByLoop? ==> r.loops == map[])
  }

  ghost predicate CleaningUp(r: Runtime, who: Actor, final: State) {
    match who
    case ByRequest => r.state == STARTING && (final == STOPPED || final == FAILED)
    case ByLoop(_) => r.state == STARTING && final == FAILED
    case ByIdle => r.state == DRAINING && final == STOPPED
    case ByDrain => r.state != STARTING && final == DRAINING
  }

  /** The phases of a drain, in order. */
  function Rank(d: Drain): nat {
    match d
    case NotDrained => 0 case Requested => 1 case Marked => 2 case LegacyGone => 3
    case LeasesGone => 4 case Stopping => 5 case Closing => 6 case Done => 7
  }

  ghost predicate StoppedBy(r: Runtime, who: Actor) {
    r.section.Terminating? && r.section.who == who
  }

  /** What a runtime keeps however requests, crashes, restarts, idle stops and drains interleave. */
  ghost predicate Sound(r: Runtime) {
    && LeasesCounted(r) && Supervised(r) && Sectioned(r)
    && (r.drain == Stopping <==> StoppedBy(r, ByDrain))
    && (r.idlePending ==> r.config.mode.Managed? && r.state == DRAINING && !StoppedBy(r, ByIdle))
  }

  /** What a drain and an idle stop find in their phases. */
  ghost predicate Drained(r: Runtime) {
    && (r.idlePending ==> r.activeLeases == 0 && (r.section == Free || r.section.Reaping?))
    && (StoppedBy(r, ByIdle) ==> r.activeLeases == 0)
    && (r.idlePending || StoppedBy(r, ByIdle) ==> Rank(r.drain) <= 1)
    && (Rank(r.drain) >= 2 ==> r.state == DRAINING)
    && (Rank(r.drain) >= 4 ==> r.activeLeases == 0)
    && (Rank(r.drain) >= 6 ==> r.alive == map[] && r.process.None? && r.loops == map[] && r.section == Free)
  }

  ghost predicate Safe(r: Runtime) {
    Sound(r) && Drained(r)
  }

  // ------------------------------------------------------------- preservation

  lemma {:induction false} UnreleasedUpdate(leases: seq<bool>, l: nat)
    requires l < |leases| && !leases[l]
    ensures Unreleased(leases) == Unreleased(leases[l := true]) + 1
    decreases |leases|
  {
    var n := |leases| - 1;
    if l < n {
      UnreleasedUpdate(leases[..n], l);
      assert leases[l := true][..n] == leases[..n][l := true];
    } else {
      assert leases[l := true][..n] == leases[..n];
    }
  }

  lemma {:induction false} NoneUnreleased(leases: seq<bool>, l: nat)
    requires l < |leases| && Unreleased(leases) == 0
    ensures leases[l]
    decreases |leases|
  {
    if l < |leases| - 1 {
      NoneUnreleased(leases[..|leases| - 1], l);
    }
  }

  lemma AcquireCounts(r: Runtime)
    requires LeasesCounted(r)
    ensures LeasesCounted(AcquireLease(r))
  {
    assert (r.leases + [false])[..|r.leases|] == r.leases;
  }

  /** A first release finds something to take back, and takes back one; a later one changes nothing. */
  lemma ReleaseCounts(r: Runtime, l: nat)
    requires LeasesCounted(r)
    ensures LeasesCounted(ReleaseLease(r, l))
    ensures l < |r.leases| && !r.leases[l] ==>
      r.activeLeases > 0 && ReleaseLease(r, l) == r.(activeLeases := r.activeLeases - 1, leases := r.leases[l := true])
    ensures l >= |r.leases| || r.leases[l] ==> ReleaseLease(r, l) == r
  {
    if l < |r.leases| && !r.leases[l] {
      UnreleasedUpdate(r.leases, l);
    }
  }

  lemma AcquireKeeps(r: Runtime)
    requires Sound(r)
    ensures Sound(AcquireLease(r))
  {
    AcquireCounts(r);
  }

  lemma ReleaseKeeps(r: Runtime, l: nat)
    requires Sound(r)
    ensures Sound(ReleaseLease(r, l))
  {
    ReleaseCounts(r, l);
  }

  lemma OneLoop(r: Runtime, task: nat)
    requires LoopOwned(r) && (task in r.loops || r.restartTask == Some(task))
    ensures r.loops - {task} == map[]
    ensures task in r.loops ==> EndLoopTask(r, task) == r.(loops := map[], restartTask := None)
  {
  }

  ghost predicate ReadyToStart(r: Runtime, who: Actor) {
    && Starter(who) && r.config.mode.Managed? && r.alive == map[]
    && r.state != STARTING && r.state != DRAINING && !r.section.Terminating?
    && (r.process.Some? ==> r.process.value < r.nextProcess)
    && LoopHolds(r, who) && forall t <- r.loops :: who == ByLoop(t) && r.restartTask == Some(t)
  }

  lemma EnterStartingKeeps(r: Runtime, who: Actor)
    requires LeasesCounted(r) && r.drain != Stopping && !r.idlePending && ReadyToStart(r, who)
    ensures Sound(EnterStarting(r, who))
  {
  }

  lemma ScheduleKeeps(r: Runtime)
    requires Sound(r) && (r.state == FAILED ==> r.drain != Stopping)
    ensures Sound(ScheduleRestart(r))
  {
  }

  lemma DemandStartKeeps(r: Runtime)
    requires Sound(r)
    ensures Sound(DemandStart(r))
  {
    if r.section == Free && r.state != FAILED && BeginStart(r, ByRequest) == EnterStarting(r, ByRequest)
      && r.config.mode.Managed? && r.state != DRAINING && !(r.restartTask.Some? && r.restartTask.value in r.loops) {
      assert r.loops == map[];
      if r.alive == map[] {
        EnterStartingKeeps(r, ByRequest);
      }
    }
  }

  lemma LoopGoneKeeps(r: Runtime)
    requires Sound(r)
    ensures Sound(LoopGone(r))
  {
    if r.section.AwaitingLoop? && r.restartTask.Some? {
      OneLoop(r, r.restartTask.value);
      EnterStartingKeeps(r.(loops := map[], restartTask := None), ByRequest);
    }
  }

  lemma SpawnedKeeps(r: Runtime)
    requires Sound(r)
    ensures Sound(Spawned(r))
  {
  }

  lemma ReadyKeeps(r: Runtime)
    requires Sound(r)
    ensures Sound(Ready(r))
  {
    if r.section.Probing? && r.section.who.ByLoop? {
      OneLoop(r, r.section.who.task);
    }
  }

  lemma StartFailsKeeps(r: Runtime)
    requires Sound(r)
    ensures Sound(StartFails(r))
  {
  }

  lemma StartCancelledKeeps(r: Runtime)
    requires Sound(r)
    ensures Sound(StartCancelled(r))
  {
  }

  lemma TerminateKeeps(r: Runtime)
    requires Sound(r)
    ensures Sound(TerminateStep(r))
  {
    if r.section.Terminating? {
      match r.section.stage
      case EndLoop => TerminateLoopKeeps(r);
      case EndMonitor => TerminateMonitorKeeps(r);
      case EndProcess => TerminateProcessKeeps(r);
      case EndLogs => TerminateEndKeeps(r);
    }
  }

  lemma TerminateLoopKeeps(r: Runtime)
    requires Sound(r) && r.section.Terminating? && r.section.stage == EndLoop
    ensures Sound(LoopEnded(r))
  {
    if r.restartTask.Some? {
      OneLoop(r, r.restartTask.value);
    }
  }

  lemma TerminateMonitorKeeps(r: Runtime)
    requires Sound(r) && r.section.Terminating? && r.section.stage == EndMonitor
    ensures Sound(MonitorEnded(r))
  {
  }

  lemma TerminateProcessKeeps(r: Runtime)
    requires Sound(r) && r.section.Terminating? && r.section.stage == EndProcess
    ensures Sound(ProcessEnded(r))
  {
    assert r.process.Some? ==> r.alive - {r.process.value} == map[];
  }

  lemma TerminateEndKeeps(r: Runtime)
    requires Sound(r) && r.section.Terminating? && r.section.stage == EndLogs
    ensures Sound(Terminated(r))
  {
    if r.section.who == ByRequest && r.section.final == FAILED {
      var s := r.(process := None, state := FAILED, section := Free);
      assert Sound(s);
      ScheduleKeeps(s);
    }
  }

  lemma ExitKeeps(r: Runtime, pid: nat)
    requires Sound(r)
    ensures Sound(ProcessExits(r, pid))
  {
  }

  lemma MonitorWakesKeeps(r: Runtime, pid: nat)
    requires Sound(r)
    ensures Sound(MonitorWakes(r, pid))
  {
    if r.process == Some(pid) && pid !in r.alive {
      assert r.alive == map[];
    }
  }

  lemma MonitorDecidesKeeps(r: Runtime)
    requires Sound(r)
    ensures Sound(MonitorDecides(r))
  {
    if r.section.Reaping? && r.state != DRAINING && r.state != STOPPED {
      var s := r.(monitors := r.monitors - {r.section.pid}, section := Free, state := FAILED);
      assert Sound(s);
      ScheduleKeeps(s);
    }
  }

  lemma LoopClaimsKeeps(r: Runtime, task: nat)
    requires Sound(r)
    ensures Sound(LoopClaims(r, task))
  {
    if task in r.loops {
      OneLoop(r, task);
    }
  }

  lemma LoopStartsKeeps(r: Runtime, task: nat)
    requires Sound(r)
    ensures Sound(LoopStarts(r, task))
  {
    if task in r.loops && r.section == Free {
      OneLoop(r, task);
      if LoopMayStart(r, task) {
        EnterStartingKeeps(LoopStarting(r, task), ByLoop(task));
      }
    }
  }

  lemma IdleMarksKeeps(r: Runtime)
    requires Sound(r)
    ensures Sound(IdleMarks(r))
  {
  }

  lemma IdleStopsKeeps(r: Runtime)
    requires Sound(r)
    ensures Sound(IdleStops(r))
  {
  }

  lemma DrainMarksKeeps(r: Runtime)
    requires Sound(r)
    ensures Sound(DrainMarks(r))
  {
  }

  lemma DrainLegacyKeeps(r: Runtime)
    requires Sound(r)
    ensures Sound(DrainLegacyGone(r))
  {
  }

  lemma DrainLeasesKeeps(r: Runtime)
    requires Sound(r)
    ensures Sound(DrainLeasesGone(r))
  {
  }

  lemma DrainStopsKeeps(r: Runtime)
    requires Sound(r)
    ensures Sound(DrainStops(r))
  {
  }

  lemma DrainClosesKeeps(r: Runtime)
    requires Sound(r)
    ensures Sound(DrainCloses(r))
  {
  }
}
