/** What the supervisor does about a process that is gone, and that what has begun can be finished:
    a crash is noticed and followed by a restart, a demand start launches, a termination and a drain
    reach their end. */
module Recovery {
  import opened Common
  import opened Lifecycle
  import opened LifecycleSafety
  import opened Reload

  // ------------------------------------------------- nothing is left unattended

  /** The policy in force permits another attempt. */
  predicate MayRetry(r: Runtime) {
    && Resolved(r.config) && r.config.mode.restart.enabled
    && r.restartAttempts < r.config.mode.restart.maxAttempts
  }

  predicate RestartUnderWay(r: Runtime) {
    r.restartTask.Some? && r.restartTask.value in r.loops
  }

  /** A failed runtime that may be restarted has an unfinished restart task. */
  ghost predicate Recovering(r: Runtime) {
    r.section == Free && r.state == FAILED && MayRetry(r) ==> RestartUnderWay(r)
  }

  /** A recorded process has its own unfinished exit monitor, until a termination has ended that. */
  ghost predicate Watched(r: Runtime) {
    r.process.Some? && !(r.section.Terminating? && (r.section.stage == EndProcess || r.section.stage == EndLogs)) ==>
      r.process.value in r.monitors && r.exitTask == r.process
  }

  ghost predicate Attended(r: Runtime) {
    Recovering(r) && Watched(r)
  }

  lemma ScheduleRecovers(r: Runtime)
    ensures Recovering(ScheduleRestart(r))
  {
  }

  lemma StartKeepsAttended(r: Runtime, s: StartStep)
    requires Sound(r) && Attended(r)
    ensures Attended(ApplyStart(r, s))
  {
    match s
    case Demand => DemandKeepsAttended(r);
    case LoopIsGone =>
    case Spawn =>
    case BecomeReady =>
  }

  lemma DemandKeepsAttended(r: Runtime)
    requires Sound(r) && Attended(r)
    ensures Attended(DemandStart(r))
  {
  }

  lemma FailKeepsAttended(r: Runtime, s: FailStep)
    requires Sound(r) && Attended(r) && !Abandons(r, Fails(s))
    ensures Attended(ApplyFail(r, s))
  {
    match s
    case StartFailed =>
    case StartIsCancelled =>
    case StartRaisesOther =>
    case Terminate => TerminateKeepsAttended(r);
    case CleanupIsCancelled =>
  }

  lemma TerminateKeepsAttended(r: Runtime)
    requires Sound(r) && Attended(r)
    ensures Attended(TerminateStep(r))
  {
    if r.section.Terminating? && r.section.stage == EndLogs {
      TerminatedIsAttended(r);
    }
  }

  lemma TerminatedIsAttended(r: Runtime)
    requires Sound(r) && r.section.Terminating? && r.section.stage == EndLogs
    ensures Attended(Terminated(r))
  {
    if r.section.who != ByDrain && r.section.final == FAILED {
      ScheduleRecovers(r.(process := None, state := FAILED, section := Free));
    }
  }

  lemma LoopKeepsAttended(r: Runtime, s: LoopStep)
    requires Sound(r) && Budgeted(r) && Attended(r)
    ensures Attended(ApplyLoop(r, s))
  {
    if s.task in r.loops { OneLoop(r, s.task); }
  }

  lemma MonitorKeepsAttended(r: Runtime, s: MonitorStep)
    requires Sound(r) && Attended(r)
    ensures Attended(ApplyMonitor(r, s))
  {
    if s.Decide? && r.section.Reaping? && r.state != DRAINING && r.state != STOPPED {
      ScheduleRecovers(r.(monitors := r.monitors - {r.section.pid}, section := Free, state := FAILED));
    }
  }

  lemma IdleKeepsAttended(r: Runtime, s: IdleStep)
    requires Attended(r)
    ensures Attended(ApplyIdle(r, s))
  {
  }

  lemma DrainKeepsAttended(r: Runtime, s: DrainStep)
    requires Attended(r)
    ensures Attended(ApplyDrain(r, s))
  {
  }

  lemma ServeKeepsAttended(r: Runtime, s: ServeStep)
    requires Attended(r)
    ensures Attended(ApplyServe(r, s))
  {
  }

  lemma StepKeepsAttended(r: Runtime, s: Step)
    requires Sound(r) && Budgeted(r) && Attended(r) && !Abandons(r, s)
    ensures Attended(Apply(r, s))
  {
    match s
    case Starts(t) => StartKeepsAttended(r, t);
    case Fails(t) => FailKeepsAttended(r, t);
    case Loops(t) => LoopKeepsAttended(r, t);
    case Monitors(t) => MonitorKeepsAttended(r, t);
    case Idles(t) => IdleKeepsAttended(r, t);
    case Drains(t) => DrainKeepsAttended(r, t);
    case Serves(t) => ServeKeepsAttended(r, t);
  }

  // ------------------------------------------------------------ after a crash

  /** The recorded process has exited by itself. */
  ghost predicate Crashed(r: Runtime, pid: nat) {
    r.process == Some(pid) && pid !in r.alive && r.section == Free
  }

  /** The exit monitor of a process that is gone is there to notice it; it fails the runtime, unless that
      is stopping anyway, and has it restarted if the policy permits. */
  lemma CrashIsNoticed(r: Runtime, pid: nat)
    requires Sound(r) && Attended(r) && Crashed(r, pid)
    ensures pid in r.monitors
    ensures var r' := Run(r, [Monitors(Wake(pid)), Monitors(Decide)]);
      && r'.section == Free && r'.process.None? && r'.alive == map[] && pid !in r'.monitors
      && r'.config == r.config && r'.restartAttempts == r.restartAttempts
      && r'.state == (if r.state == DRAINING || r.state == STOPPED then r.state else FAILED)
      && (r'.state == FAILED && MayRetry(r) ==> RestartUnderWay(r'))
  {
    var r1 := MonitorWakes(r, pid);
    MonitorWakesKeeps(r, pid);
    MonitorKeepsAttended(r, Wake(pid));
    MonitorDecidesKeeps(r1);
    MonitorKeepsAttended(r1, Decide);
    WakesFor(r, pid);
    Decides(r1);
    TwoSteps(r, Monitors(Wake(pid)), Monitors(Decide));
  }

  lemma TwoSteps(r: Runtime, s: Step, t: Step)
    ensures Run(r, [s, t]) == Apply(Apply(r, s), t)
  {
    assert [s, t][1..] == [t] && [t][1..] == [];
    assert Run(Apply(r, s), [t]) == Run(Apply(Apply(r, s), t), []);
  }

  lemma WakesFor(r: Runtime, pid: nat)
    requires Sound(r) && Watched(r) && Crashed(r, pid)
    ensures MonitorWakes(r, pid) == r.(process := None, exitTask := None, section := Reaping(pid)) && r.alive == map[]
  {
  }

  lemma Decides(r: Runtime)
    requires r.section.Reaping?
    ensures var r' := MonitorDecides(r);
      && r'.section == Free && r'.process == r.process && r'.alive == r.alive && r.section.pid !in r'.monitors
      && r'.config == r.config && r'.restartAttempts == r.restartAttempts
      && r'.state == (if r.state == DRAINING || r.state == STOPPED then r.state else FAILED)
  {
  }

  /** So it goes when a live process exits. */
  lemma ExitIsNoticed(r: Runtime, pid: nat)
    requires Sound(r) && Attended(r) && pid in r.alive && r.section == Free && r.state == RUNNING
    ensures var r' := Run(r, [Monitors(Exit(pid))] + [Monitors(Wake(pid)), Monitors(Decide)]);
      && r'.state == FAILED && r'.process.None? && r'.alive == map[] && r'.leases == r.leases
      && (MayRetry(r) ==> RestartUnderWay(r'))
  {
    var crash := [Monitors(Wake(pid)), Monitors(Decide)];
    var e := ProcessExits(r, pid);
    ExitKeeps(r, pid);
    MonitorKeepsAttended(r, Exit(pid));
    CrashIsNoticed(e, pid);
    OneStep(r, Monitors(Exit(pid)));
    TwoSteps(e, crash[0], crash[1]);
    RunConcat(r, [Monitors(Exit(pid))], crash);
    StepKeepsTerms(e, crash[0]);
    StepKeepsTerms(Apply(e, crash[0]), crash[1]);
    MonitorsKeepLeases(e, Wake(pid));
    MonitorsKeepLeases(Apply(e, crash[0]), Decide);
  }

  lemma MonitorsKeepLeases(r: Runtime, s: MonitorStep)
    ensures ApplyMonitor(r, s).leases == r.leases
  {
  }

  /** A failed runtime whose restart is under way is started again by its loop: at once, if that sleeps
      already, or after it has claimed the next number. */
  lemma RestartLaunches(r: Runtime) returns (steps: seq<Step>)
    requires Sound(r) && Budgeted(r) && r.section == Free && r.state == FAILED && MayRetry(r) && RestartUnderWay(r)
    ensures var r' := Run(r, steps);
      && r'.section == Launching(ByLoop(r.restartTask.value)) && r'.state == STARTING && r'.config == r.config
      && r'.restartAttempts == r.restartAttempts + (if r.loops[r.restartTask.value] == AtTop then 1 else 0)
      && r'.starts == r.starts + [r'.restartAttempts] && r'.process == r.process
  {
    var t := r.restartTask.value;
    if r.loops[t] == AtTop {
      Claims(r, t);
      LoopClaimsKeeps(r, t);
      LoopLaunches(LoopClaims(r, t), t);
      TwoSteps(r, Loops(Claim(t)), Loops(LoopStep.Restart(t)));
      steps := [Loops(Claim(t)), Loops(LoopStep.Restart(t))];
    } else {
      LoopLaunches(r, t);
      OneStep(r, Loops(LoopStep.Restart(t)));
      steps := [Loops(LoopStep.Restart(t))];
    }
  }

  lemma Claims(r: Runtime, t: nat)
    requires r.section == Free && r.state == FAILED && MayRetry(r) && t in r.loops && r.loops[t] == AtTop
    ensures var n := r.restartAttempts + 1;
      LoopClaims(r, t) == r.(restartAttempts := n, loops := r.loops[t := Sleeping(n)])
  {
  }

  lemma OneStep(r: Runtime, s: Step)
    ensures Run(r, [s]) == Apply(r, s)
  {
    assert [s][1..] == [];
    assert Run(Apply(r, s), []) == Apply(r, s);
  }

  lemma LoopLaunches(r: Runtime, t: nat)
    requires LoopOwned(r) && r.section == Free && r.state == FAILED && Resolved(r.config) && t in r.loops
    requires r.config.mode.restart.enabled && r.restartAttempts <= r.config.mode.restart.maxAttempts
    requires r.loops[t] == Sleeping(r.restartAttempts)
    ensures var r' := LoopStarts(r, t);
      && r'.section == Launching(ByLoop(t)) && r'.state == STARTING && r'.config == r.config
      && r'.restartAttempts == r.restartAttempts && r'.starts == r.starts + [r.restartAttempts]
      && r'.process == r.process
  {
    OneLoop(r, t);
    var s := LoopStarting(r, t);
    assert BeginStart(s, ByLoop(t)) == EnterStarting(s, ByLoop(t));
  }

  /** A restart loop that may not go on is ended by its next lock section: one that is to claim a number, and
      one that has slept and may not start. */
  lemma LoopEndsWhenDone(r: Runtime, t: nat)
    requires LoopOwned(r) && r.section == Free && t in r.loops
    ensures r.loops[t] == AtTop
      && !(r.config.mode.Managed? && r.state == FAILED && r.config.mode.restart.enabled
           && r.restartAttempts < r.config.mode.restart.maxAttempts)
      ==> LoopClaims(r, t) == r.(loops := map[], restartTask := None)
    ensures r.loops[t].Sleeping?
      && !(r.config.mode.Managed? && r.state == FAILED && r.config.mode.restart.enabled
           && r.loops[t].attempt <= r.config.mode.restart.maxAttempts)
      ==> LoopStarts(r, t) == r.(loops := map[], restartTask := None)
  {
    OneLoop(r, t);
  }

  // --------------------------------------------------------- starting on demand

  /** The demand start, resumed if it first had to wait for a superseded restart task. */
  function DemandStarted(r: Runtime): Runtime {
    if DemandStart(r).section.AwaitingLoop? then LoopGone(DemandStart(r)) else DemandStart(r)
  }

  /** A runtime that a request finds idle or dead, and neither failed nor draining, is started with a
      fresh count; every other one is left as it is. */
  lemma DemandMeans(r: Runtime)
    requires Sound(r) && r.section == Free
    ensures r.config.mode.Managed? && (r.state == STOPPED || (r.state == RUNNING && r.alive == map[])) ==>
      var r' := DemandStarted(r);
      && r'.restartAttempts == 0 && r'.loops == map[] && r'.config == r.config && r'.leases == r.leases
      && (if Resolved(r.config) then r'.section == Launching(ByRequest) && r'.state == STARTING
          else r'.section == Free && r'.state == FAILED)
    ensures
      (r.config.mode.Remote? || r.state == FAILED || r.state == DRAINING
       || (r.state == RUNNING && r.alive != map[])) ==> DemandStart(r) == r
  {
    if r.restartTask.Some? {
      OneLoop(r, r.restartTask.value);
    }
  }

  /** A launched process that becomes ready serves: it is the one recorded, monitored, launched as
      configured, and the runtime grants leases. */
  lemma LaunchServes(r: Runtime)
    requires Sound(r) && r.section.Launching?
    ensures var r' := Run(r, [Starts(Spawn), Starts(BecomeReady)]);
      && r'.state == RUNNING && r'.section == Free && r'.process == Some(r.nextProcess)
      && r'.alive == map[r.nextProcess := r.config.mode.launch] && r.nextProcess in r'.monitors
      && r'.config == r.config && CanLease(r') && (r.section.who.ByLoop? ==> r'.loops == map[])
  {
    TwoSteps(r, Starts(Spawn), Starts(BecomeReady));
    if r.section.who.ByLoop? {
      OneLoop(Spawned(r), r.section.who.task);
    }
  }

  /** A remote runtime grants leases until a drain marks it; a managed one exactly while it is RUNNING. */
  lemma CanLeaseMeans(r: Runtime)
    ensures r.config.mode.Managed? ==> (CanLease(r) <==> r.state == RUNNING)
    ensures r.config.mode.Remote? && Sound(r) ==> (CanLease(r) <==> Rank(r.drain) < 2)
    ensures r.state == DRAINING || r.state == FAILED ==> !CanLease(r)
    ensures CanLease(r) ==> AcquireLease(r) == r.(activeLeases := r.activeLeases + 1, leases := r.leases + [false])
    ensures !CanLease(r) ==> AcquireLease(r) == r
  {
  }

  /** A new runtime has nothing running and nothing to recover; a remote one serves at once, a managed one
      has to be started. */
  lemma NewRuntimeIs(e: Endpoint)
    ensures var r := FromConfig(e);
      && r.config == e && Attended(r) && r.process.None? && r.alive == map[] && r.loops == map[] && r.monitors == {}
      && r.leases == [] && r.activeLeases == r.restartAttempts == r.restartsTotal == 0
      && r.section == Free && r.drain == NotDrained && !r.idlePending
      && r.state == (if e.mode.Managed? then STOPPED else RUNNING) && (CanLease(r) <==> e.mode.Remote?)
  {
  }

  // ---------------------------------------------------- what has begun can be finished

  function Awaits(n: nat): seq<Step> {
    seq(n, _ => Fails(Terminate))
  }

  lemma FourAwaits(r: Runtime)
    ensures Run(r, Awaits(4)) == TerminateStep(TerminateStep(TerminateStep(TerminateStep(r))))
  {
    assert Awaits(4) == [Fails(Terminate), Fails(Terminate)] + [Fails(Terminate), Fails(Terminate)];
    RunConcat(r, [Fails(Terminate), Fails(Terminate)], [Fails(Terminate), Fails(Terminate)]);
    TwoSteps(r, Fails(Terminate), Fails(Terminate));
    TwoSteps(TerminateStep(TerminateStep(r)), Fails(Terminate), Fails(Terminate));
  }

  lemma {:induction false} RunConcat(r: Runtime, a: seq<Step>, b: seq<Step>)
    ensures Run(r, a + b) == Run(Run(r, a), b)
    decreases |a|
  {
    if a == [] {
      assert a + b == b;
    } else {
      assert (a + b)[1..] == a[1..] + b;
      RunConcat(Apply(r, a[0]), a[1..], b);
    }
  }

  /** A termination comes to its end: no process, the final state, the lock free; a failed runtime that
      may be restarted will be. */
  lemma TerminationFinishes(r: Runtime)
    requires Sound(r) && Attended(r) && r.section.Terminating? && r.section.stage == EndLoop
    ensures var r' := Run(r, Awaits(4));
      && Sound(r') && r'.section == Free && r'.process.None? && r'.alive == map[] && r'.state == r.section.final
      && r'.config == r.config && r'.leases == r.leases && r'.restartAttempts == r.restartAttempts
      && r'.drain == (if r.section.who == ByDrain then Closing else r.drain)
      && (r.process.Some? ==> r.process.value !in r'.monitors)
      && (r'.state == FAILED && MayRetry(r) ==> RestartUnderWay(r'))
  {
    hide Sound, Attended, TerminateStep;
    FourAwaits(r);
    if r.process.Some? {
      AttendedIsWatched(r);
      MonitorsEnd(r);
    }
    var a := TerminateStep(r);
    var b := TerminateStep(a);
    var c := TerminateStep(b);
    AwaitMeans(r);
    AwaitMeans(a);
    AwaitMeans(b);
    LastAwaitMeans(c);
  }

  lemma AttendedIsWatched(r: Runtime)
    requires Attended(r)
    ensures Watched(r)
  {
  }

  /** A termination ends the exit monitor of the process it terminates. */
  lemma MonitorsEnd(r: Runtime)
    requires Sound(r) && Watched(r) && r.section.Terminating? && r.section.stage == EndLoop && r.process.Some?
    ensures r.process.value !in TerminateStep(TerminateStep(TerminateStep(TerminateStep(r)))).monitors
  {
    var a := TerminateStep(r);
    assert a.exitTask == r.process && a.section.stage == EndMonitor;
    assert r.process.value !in TerminateStep(a).monitors;
    TerminateDropsMonitors(TerminateStep(a));
    TerminateDropsMonitors(TerminateStep(TerminateStep(a)));
  }

  lemma TerminateDropsMonitors(r: Runtime)
    ensures TerminateStep(r).monitors <= r.monitors
  {
  }

  lemma AwaitMeans(r: Runtime)
    requires Sound(r) && Attended(r) && r.section.Terminating? && r.section.stage != EndLogs
    ensures var r' := TerminateStep(r);
      && Sound(r') && Attended(r') && r'.section == r.section.(stage := NextStage(r.section.stage))
      && r'.config == r.config && r'.leases == r.leases && r'.restartAttempts == r.restartAttempts
      && r'.drain == r.drain
  {
    TerminateKeeps(r);
    TerminateKeepsAttended(r);
    AwaitPasses(r);
    TerminateKeepsTerms(r);
    TerminateKeepsStarts(r);
  }

  lemma LastAwaitMeans(r: Runtime)
    requires Sound(r) && Attended(r) && r.section.Terminating? && r.section.stage == EndLogs
    ensures var r' := TerminateStep(r);
      && Sound(r') && r'.section == Free && r'.process.None? && r'.alive == map[] && r'.state == r.section.final
      && r'.config == r.config && r'.leases == r.leases && r'.restartAttempts == r.restartAttempts
      && r'.drain == (if r.section.who == ByDrain then Closing else r.drain)
      && (r'.state == FAILED && MayRetry(r) ==> RestartUnderWay(r'))
  {
    TerminateKeeps(r);
    TerminateKeepsAttended(r);
    TerminateKeepsTerms(r);
    TerminateKeepsStarts(r);
  }

  lemma Then4(r: Runtime, s: Step, final: State)
    requires Sound(Apply(r, s)) && Attended(Apply(r, s))
    requires Apply(r, s).section.Terminating? && Apply(r, s).section.stage == EndLoop
    requires Apply(r, s).section.final == final
    ensures var r' := Run(r, [s] + Awaits(4));
      && Sound(r') && r'.section == Free && r'.process.None? && r'.alive == map[] && r'.state == final
      && r'.config == Apply(r, s).config && r'.leases == Apply(r, s).leases
      && (final == FAILED && MayRetry(Apply(r, s)) ==> RestartUnderWay(r'))
      && r'.drain == (if Apply(r, s).section.who == ByDrain then Closing else Apply(r, s).drain)
  {
    OneStep(r, s);
    RunConcat(r, [s], Awaits(4));
    TerminationFinishes(Apply(r, s));
  }

  /** A start that fails ends FAILED, without a process, and with a restart under way if the policy
      permits one. */
  lemma FailedStartEnds(r: Runtime)
    requires Sound(r) && Attended(r) && (r.section.Launching? || r.section.Probing?)
    ensures var r' := Run(r, [Fails(StartFailed)] + Awaits(4));
      && r'.section == Free && r'.state == FAILED && r'.process.None? && r'.alive == map[]
      && (MayRetry(r) ==> RestartUnderWay(r'))
  {
    StepKeepsSound(r, Fails(StartFailed));
    FailKeepsAttended(r, StartFailed);
    Then4(r, Fails(StartFailed), FAILED);
  }

  /** A request's start that is cancelled ends STOPPED, without a process. */
  lemma CancelledStartEnds(r: Runtime)
    requires Sound(r) && Attended(r) && (r.section == Launching(ByRequest) || r.section.Probing?)
    requires r.section.who == ByRequest
    ensures var r' := Run(r, [Fails(StartIsCancelled)] + Awaits(4));
      r'.section == Free && r'.state == STOPPED && r'.process.None? && r'.alive == map[]
  {
    StepKeepsSound(r, Fails(StartIsCancelled));
    FailKeepsAttended(r, StartIsCancelled);
    Then4(r, Fails(StartIsCancelled), STOPPED);
  }

  /** A request that is cancelled while it waits for a superseded restart task leaves that ended and the lock
      free; nothing else has changed. */
  lemma CancelledWaitEnds(r: Runtime)
    requires Sound(r) && r.section.AwaitingLoop?
    ensures StartCancelled(r) == r.(section := Free, loops := map[], restartTask := None)
      || (r.restartTask.None? && StartCancelled(r) == r.(section := Free))
    ensures StartCancelled(r).loops == map[]
  {
    if r.restartTask.Some? {
      OneLoop(r, r.restartTask.value);
    }
  }

  /** A request that is cancelled in the cleanup of its own start leaves state, process and leases as they
      are; the task that it was waiting for is over, and the lock free. */
  lemma CancelledCleanupLeaves(r: Runtime)
    requires Sound(r) && Watched(r) && r.section.Terminating? && r.section.who == ByRequest
    ensures var r' := CleanupCancelled(r);
      && r'.section == Free && r'.state == r.state == STARTING
      && r'.process == r.process && r'.alive == r.alive && r'.leases == r.leases
      && (r.section.stage == EndLoop ==> r'.loops == map[])
      && (r.section.stage == EndMonitor && r.process.Some? ==> r.process.value !in r'.monitors)
  {
    if r.restartTask.Some? {
      OneLoop(r, r.restartTask.value);
    }
  }

  /** A RUNNING runtime without leases can be stopped when idle; with a lease, or in any other state, the
      idle checker leaves it alone. */
  lemma IdleRuntimeStops(r: Runtime)
    requires Sound(r) && Attended(r) && r.section == Free && !r.idlePending
    ensures r.config.mode.Managed? && r.state == RUNNING && r.activeLeases == 0 ==>
      var r' := Run(r, [Idles(IdleMark)] + ([Idles(IdleStop)] + Awaits(4)));
      r'.section == Free && r'.state == STOPPED && r'.process.None? && r'.alive == map[]
    ensures r.config.mode.Remote? || r.state != RUNNING || r.activeLeases > 0 ==> IdleMarks(r) == r
    ensures forall m: Runtime :: m.activeLeases > 0 || m.section != Free ==> IdleStops(m) == m
  {
    if r.config.mode.Managed? && r.state == RUNNING && r.activeLeases == 0 {
      var m := IdleMarks(r);
      StepKeepsSound(r, Idles(IdleMark));
      IdleKeepsAttended(r, IdleMark);
      StepKeepsSound(m, Idles(IdleStop));
      IdleKeepsAttended(m, IdleStop);
      Then4(m, Idles(IdleStop), STOPPED);
      OneStep(r, Idles(IdleMark));
      RunConcat(r, [Idles(IdleMark)], [Idles(IdleStop)] + Awaits(4));
    }
  }

  const DrainBegins := [Drains(DrainMark), Drains(LegacyDone), Drains(LeasesDone)]

  /** A drain without leases comes to its end, and leaves the runtime retired. */
  lemma DrainCompletes(r: Runtime) returns (steps: seq<Step>)
    requires Safe(r) && Attended(r) && r.section == Free && r.drain == Requested && r.activeLeases == 0
    requires !r.idlePending
    ensures AdmittedRun(r, steps) && Run(r, steps).drain == Done && Retired(Run(r, steps))
  {
    MarkedDrain(r);
    DrainEnds(r.(state := DRAINING, drain := LeasesGone));
    steps := DrainBegins + DrainEnd();
    RunConcat(r, DrainBegins, DrainEnd());
    DrainStepsAdmitted(r, steps);
    RunKeepsSafe(r, steps);
    DoneIsRetired(Run(r, steps));
  }

  function DrainEnd(): seq<Step> {
    [Drains(DrainStop)] + (Awaits(4) + [Drains(SessionsDone)])
  }

  lemma DrainEnds(m: Runtime)
    requires Sound(m) && Attended(m) && m.state == DRAINING && m.drain == LeasesGone && m.section == Free
    ensures Run(m, DrainEnd()).drain == Done
  {
    hide Sound, Attended, Awaits, Run;
    var t := m.(drain := Stopping, section := Terminating(ByDrain, DRAINING, EndLoop));
    DrainStopBegins(m);
    DrainTerminates(t);
    OneStep(m, Drains(DrainStop));
    RunConcat(m, [Drains(DrainStop)], Awaits(4) + [Drains(SessionsDone)]);
  }

  lemma DrainStopBegins(m: Runtime)
    requires Sound(m) && Attended(m) && m.state == DRAINING && m.drain == LeasesGone && m.section == Free
    ensures var t := m.(drain := Stopping, section := Terminating(ByDrain, DRAINING, EndLoop));
      Apply(m, Drains(DrainStop)) == t && Sound(t) && Attended(t)
  {
    DrainStopsKeeps(m);
  }

  lemma MarkedDrain(r: Runtime)
    requires Safe(r) && Attended(r) && r.section == Free && r.drain == Requested && r.activeLeases == 0
    ensures var m := r.(state := DRAINING, drain := LeasesGone);
      Run(r, DrainBegins) == m && Sound(m) && Attended(m)
  {
    var a := DrainMarks(r);
    TwoSteps(r, Drains(DrainMark), Drains(LegacyDone));
    OneStep(DrainLegacyGone(a), Drains(LeasesDone));
    RunConcat(r, [Drains(DrainMark), Drains(LegacyDone)], [Drains(LeasesDone)]);
    assert DrainBegins == [Drains(DrainMark), Drains(LegacyDone)] + [Drains(LeasesDone)];
    DrainMarksKeeps(r);
    DrainLegacyKeeps(a);
    DrainLeasesKeeps(DrainLegacyGone(a));
  }

  lemma DrainTerminates(t: Runtime)
    requires Sound(t) && Attended(t) && t.section == Terminating(ByDrain, DRAINING, EndLoop)
    ensures Run(t, Awaits(4) + [Drains(SessionsDone)]).drain == Done
  {
    hide Sound, Attended, Awaits;
    TerminationFinishes(t);
    RunConcat(t, Awaits(4), [Drains(SessionsDone)]);
    OneStep(Run(t, Awaits(4)), Drains(SessionsDone));
  }

  /** Nothing in the steps of a drain's run is excluded, once the mark is outside the idle window. */
  lemma {:induction false} DrainStepsAdmitted(r: Runtime, steps: seq<Step>)
    requires !r.idlePending && forall s <- steps :: s.Drains? || s == Fails(Terminate)
    ensures AdmittedRun(r, steps)
    decreases |steps|
  {
    if steps != [] {
      assert steps[0] in steps;
      NeverIdle(r, steps[0]);
      DrainStepsAdmitted(Apply(r, steps[0]), steps[1..]);
    }
  }

  lemma NeverIdle(r: Runtime, s: Step)
    requires !r.idlePending && (s.Drains? || s == Fails(Terminate))
    ensures !Apply(r, s).idlePending
  {
  }

  lemma {:induction false} RunKeepsSafe(r: Runtime, steps: seq<Step>)
    requires Safe(r) && AdmittedRun(r, steps)
    ensures Safe(Run(r, steps))
    decreases |steps|
  {
    if steps != [] {
      StepKeepsSafe(r, steps[0]);
      RunKeepsSafe(Apply(r, steps[0]), steps[1..]);
    }
  }

  // ------------------------------------------------------------------- all runs

  ghost predicate AttendedWorld(w: World) {
    forall rid <- w.objects :: Attended(w.objects[rid])
  }

  lemma ReconfigureAttended(r: Runtime, e: Endpoint)
    requires Watched(r)
    ensures Attended(Reconfigure(r, e))
  {
    ScheduleRecovers(r.(config := e));
  }

  lemma PublishKeepsAttended(w: World)
    requires AttendedWorld(w)
    ensures AttendedWorld(Publish(w))
  {
    if ReadyToPublish(w) {
      var c := w.pending.value;
      forall rid | rid in Publish(w).objects ensures Attended(NextObject(w, c, rid)) {
        if rid in w.objects && rid.path in c {
          ReconfigureAttended(w.objects[rid], c[rid.path]);
        }
      }
    }
  }

  lemma BeginKeepsAttended(w: World, c: Config)
    requires AttendedWorld(w)
    ensures AttendedWorld(BeginReload(w, c))
  {
    forall rid | rid in w.objects ensures Attended(BeginReload(w, c).objects[rid]) {
      assert Attended(w.objects[rid].(drain := Requested));
    }
  }

  lemma WorldStepKeepsAttended(w: World, s: WorldStep)
    requires SoundWorld(w) && AccountedWorld(w) && AttendedWorld(w) && !AbandonsStart(w, s)
    ensures AttendedWorld(ApplyWorld(w, s))
  {
    match s
    case OnRuntime(rid, t) => if rid in w.objects { StepKeepsAttended(w.objects[rid], t); }
    case StartReload(c) => BeginKeepsAttended(w, c);
    case PublishSnapshot => PublishKeepsAttended(w);
  }

  lemma {:induction false} RunKeepsAttended(w: World, steps: seq<WorldStep>)
    requires SoundWorld(w) && AccountedWorld(w) && AttendedWorld(w) && NoneAbandoned(w, steps)
    ensures AttendedWorld(RunWorld(w, steps)) && SoundWorld(RunWorld(w, steps)) && AccountedWorld(RunWorld(w, steps))
    decreases |steps|
  {
    if steps != [] {
      WorldStepKeepsAttended(w, steps[0]);
      WorldStepKeepsSound(w, steps[0]);
      WorldStepKeepsAccounts(w, steps[0]);
      RunKeepsAttended(ApplyWorld(w, steps[0]), steps[1..]);
    }
  }

  /** In every run without an abandoned start, reloads, drains and lost marks included, a resolved managed
      runtime that is FAILED with a free lock and whose policy in force permits another attempt has an
      unfinished restart task. */
  lemma FailedIsRestarted(steps: seq<WorldStep>, rid: Rid)
    requires NoneAbandoned(EmptyWorld, steps) && rid in RunWorld(EmptyWorld, steps).objects
    ensures var r := RunWorld(EmptyWorld, steps).objects[rid];
      && r.state == FAILED && r.section == Free && Resolved(r.config)
      && r.config.mode.restart.enabled && r.restartAttempts < r.config.mode.restart.maxAttempts
      ==> r.restartTask.Some? && r.restartTask.value in r.loops
  {
    RunKeepsAttended(EmptyWorld, steps);
    assert Attended(RunWorld(EmptyWorld, steps).objects[rid]);
  }

  /** In every such run: when a process has exited by itself while its endpoint was RUNNING, steps of its
      monitor and of the restart loop lead to the next launch, if the policy permits one. */
  lemma CrashIsFollowedByLaunch(steps: seq<WorldStep>, rid: Rid, pid: nat) returns (more: seq<Step>)
    requires NoneAbandoned(EmptyWorld, steps) && rid in RunWorld(EmptyWorld, steps).objects
    requires var r := RunWorld(EmptyWorld, steps).objects[rid]; Crashed(r, pid) && r.state == RUNNING && MayRetry(r)
    ensures var r := Run(RunWorld(EmptyWorld, steps).objects[rid], more);
      r.section.Launching? && r.section.who.ByLoop? && r.state == STARTING && r.process.None?
  {
    RunKeepsAttended(EmptyWorld, steps);
    var r := RunWorld(EmptyWorld, steps).objects[rid];
    assert Attended(r) && Sound(r) && Accounted(r);
    more := CrashLaunches(r, pid);
  }

  lemma CrashLaunches(r: Runtime, pid: nat) returns (more: seq<Step>)
    requires Sound(r) && Accounted(r) && Attended(r) && Crashed(r, pid) && r.state == RUNNING && MayRetry(r)
    ensures var r' := Run(r, more);
      r'.section.Launching? && r'.section.who.ByLoop? && r'.state == STARTING && r'.process.None?
  {
    var crash := [Monitors(Wake(pid)), Monitors(Decide)];
    CrashIsNoticed(r, pid);
    TwoSteps(r, crash[0], crash[1]);
    var f := Run(r, crash);
    StepKeepsSound(r, crash[0]);
    StepKeepsSound(Apply(r, crash[0]), crash[1]);
    StepKeepsAccounts(r, crash[0]);
    StepKeepsAccounts(Apply(r, crash[0]), crash[1]);
    var rest := RestartLaunches(f);
    RunConcat(r, crash, rest);
    more := crash + rest;
  }
}
