/** What the steps of an endpoint runtime keep, over single steps and over whole runs. */
module LifecycleSafety {
  import opened Common
  import opened Lifecycle

  // ------------------------------------------------ what most steps leave alone

  /** Same configuration, leases and drain phase. */
  ghost predicate SameTerms(r: Runtime, r': Runtime) {
    r'.config == r.config && r'.leases == r.leases && r'.activeLeases == r.activeLeases && r'.drain == r.drain
  }

  lemma EnterStartingTerms(r: Runtime, who: Actor)
    ensures SameTerms(r, EnterStarting(r, who))
  {
  }

  lemma BeginStartTerms(r: Runtime, who: Actor)
    ensures SameTerms(r, BeginStart(r, who))
  {
    EnterStartingTerms(r, who);
  }

  lemma StartKeepsTerms(r: Runtime, s: StartStep)
    ensures SameTerms(r, ApplyStart(r, s))
  {
    match s
    case Demand => BeginStartTerms(r, ByRequest);
    case LoopIsGone =>
      if r.section.AwaitingLoop? && r.restartTask.Some? {
        EnterStartingTerms(r.(loops := r.loops - {r.restartTask.value}, restartTask := None), r.section.who);
      }
    case Spawn =>
    case BecomeReady =>
  }

  lemma ScheduleKeepsTerms(r: Runtime)
    ensures SameTerms(r, ScheduleRestart(r))
  {
  }

  /** The step that ends a drain's termination. */
  predicate EndsDrain(r: Runtime) {
    r.section.Terminating? && r.section.who == ByDrain && r.section.stage == EndLogs
  }

  lemma TerminateKeepsTerms(r: Runtime)
    ensures SameTerms(r.(drain := if EndsDrain(r) then Closing else r.drain), TerminateStep(r))
  {
    if r.section.Terminating? && r.section.stage == EndLogs {
      ScheduleKeepsTerms(r.(process := None, state := r.section.final, section := Free));
    }
  }

  lemma FailKeepsTerms(r: Runtime, s: FailStep)
    ensures s == Terminate || SameTerms(r, ApplyFail(r, s))
  {
    match s
    case StartFailed =>
    case StartIsCancelled =>
    case StartRaisesOther =>
    case Terminate =>
    case CleanupIsCancelled =>
  }

  lemma LoopKeepsTerms(r: Runtime, s: LoopStep)
    ensures SameTerms(r, ApplyLoop(r, s))
  {
    match s
    case Claim(_) =>
    case Restart(t) => if LoopMayStart(r, t) { BeginStartTerms(LoopStarting(r, t), ByLoop(t)); }
  }

  lemma MonitorKeepsTerms(r: Runtime, s: MonitorStep)
    ensures SameTerms(r, ApplyMonitor(r, s))
  {
  }

  /** Only the steps of a drain move its phase, and only serving changes leases. */
  lemma StepKeepsTerms(r: Runtime, s: Step)
    ensures Apply(r, s).config == r.config
    ensures s.Serves? || (Apply(r, s).leases == r.leases && Apply(r, s).activeLeases == r.activeLeases)
    ensures Apply(r, s).drain == r.drain || s.Drains? || (s == Fails(Terminate) && EndsDrain(r))
  {
    match s
    case Starts(t) => StartKeepsTerms(r, t);
    case Fails(t) => FailKeepsTerms(r, t); TerminateKeepsTerms(r);
    case Loops(t) => LoopKeepsTerms(r, t);
    case Monitors(t) => MonitorKeepsTerms(r, t);
    case Idles(_) =>
    case Drains(_) =>
    case Serves(_) =>
  }

  lemma StepKeepsDrain(r: Runtime, s: Step)
    requires StoppedBy(r, ByDrain) ==> r.drain == Stopping
    ensures Apply(r, s).drain == NotDrained <==> r.drain == NotDrained
  {
    StepKeepsTerms(r, s);
    if s == Fails(Terminate) {
      TerminateKeepsTerms(r);
    }
  }

  // ------------------------------------------------- every step but an abandoned start

  lemma StartKeepsSound(r: Runtime, s: StartStep)
    requires Sound(r)
    ensures Sound(ApplyStart(r, s))
  {
    match s
    case Demand => DemandStartKeeps(r);
    case LoopIsGone => LoopGoneKeeps(r);
    case Spawn => SpawnedKeeps(r);
    case BecomeReady => ReadyKeeps(r);
  }

  lemma FailKeepsSound(r: Runtime, s: FailStep)
    requires Sound(r) && !Abandons(r, Fails(s))
    ensures Sound(ApplyFail(r, s))
  {
    match s
    case StartFailed => StartFailsKeeps(r);
    case StartIsCancelled => StartCancelledKeeps(r);
    case StartRaisesOther =>
    case Terminate => TerminateKeeps(r);
    case CleanupIsCancelled =>
  }

  lemma LoopKeepsSound(r: Runtime, s: LoopStep)
    requires Sound(r)
    ensures Sound(ApplyLoop(r, s))
  {
    match s
    case Claim(t) => LoopClaimsKeeps(r, t);
    case Restart(t) => LoopStartsKeeps(r, t);
  }

  lemma MonitorKeepsSound(r: Runtime, s: MonitorStep)
    requires Sound(r)
    ensures Sound(ApplyMonitor(r, s))
  {
    match s
    case Exit(p) => ExitKeeps(r, p);
    case Wake(p) => MonitorWakesKeeps(r, p);
    case Decide => MonitorDecidesKeeps(r);
  }

  lemma IdleKeepsSound(r: Runtime, s: IdleStep)
    requires Sound(r)
    ensures Sound(ApplyIdle(r, s))
  {
    match s
    case IdleMark => IdleMarksKeeps(r);
    case IdleStop => IdleStopsKeeps(r);
  }

  lemma DrainKeepsSound(r: Runtime, s: DrainStep)
    requires Sound(r)
    ensures Sound(ApplyDrain(r, s))
  {
    match s
    case DrainMark => DrainMarksKeeps(r);
    case LegacyDone => DrainLegacyKeeps(r);
    case LeasesDone => DrainLeasesKeeps(r);
    case DrainStop => DrainStopsKeeps(r);
    case SessionsDone => DrainClosesKeeps(r);
  }

  lemma ServeKeepsSound(r: Runtime, s: ServeStep)
    requires Sound(r)
    ensures Sound(ApplyServe(r, s))
  {
    match s
    case Acquire => AcquireKeeps(r);
    case Release(l) => ReleaseKeeps(r, l);
  }

  lemma StepKeepsSound(r: Runtime, s: Step)
    requires Sound(r) && !Abandons(r, s)
    ensures Sound(Apply(r, s))
  {
    match s
    case Starts(t) => StartKeepsSound(r, t);
    case Fails(t) => FailKeepsSound(r, t);
    case Loops(t) => LoopKeepsSound(r, t);
    case Monitors(t) => MonitorKeepsSound(r, t);
    case Idles(t) => IdleKeepsSound(r, t);
    case Drains(t) => DrainKeepsSound(r, t);
    case Serves(t) => ServeKeepsSound(r, t);
  }

  /** What the supervisor promises of a runtime at every moment. */
  ghost predicate SupervisorOk(r: Runtime) {
    && (r.section == Free ==> r.state != STARTING)
    && (r.section == Free && (r.state == STOPPED || r.state == FAILED) ==> r.alive == map[])
    && |r.alive| <= 1 && |r.loops| <= 1
  }

  lemma SoundMeansOk(r: Runtime)
    requires Sound(r)
    ensures SupervisorOk(r)
  {
    AtMostOne(r.alive, r.process);
    AtMostOne(r.loops, r.restartTask);
  }

  lemma AtMostOne<V>(m: map<nat, V>, only: Option<nat>)
    requires forall k <- m :: only == Some(k)
    ensures |m| <= 1
  {
    if only.Some? {
      SubsetSize(m.Keys, {only.value});
    } else {
      assert m.Keys == {};
    }
  }

  lemma AbandonedIsStarting(r: Runtime, s: Step)
    requires Sound(r) && Abandons(r, s)
    ensures Apply(r, s).section == Free && Apply(r, s).state == STARTING
  {
    if s == Fails(StartRaisesOther) {
      EscapeFreesLock(r);
    } else {
      assert Apply(r, s) == CleanupCancelled(r);
    }
  }

  lemma EscapeFreesLock(r: Runtime)
    requires r.section.Launching? || r.section.Probing?
    ensures StartEscapes(r).section == Free && StartEscapes(r).state == r.state
  {
  }

  /** A step breaks the supervisor's promise exactly when it abandons a start. */
  lemma SupervisorStepIff(r: Runtime, s: Step)
    requires Sound(r)
    ensures SupervisorOk(Apply(r, s)) <==> !Abandons(r, s)
  {
    if Abandons(r, s) {
      AbandonedIsStarting(r, s);
    } else {
      StepKeepsSound(r, s);
      SoundMeansOk(Apply(r, s));
    }
  }

  // ---------------------------------------------------- the phases of idle stops and drains

  lemma StartKeepsDrained(r: Runtime, s: StartStep)
    requires Safe(r)
    ensures Drained(ApplyStart(r, s))
  {
  }

  lemma FailKeepsDrained(r: Runtime, s: FailStep)
    requires Safe(r) && Admitted(r, Fails(s))
    ensures Drained(ApplyFail(r, s))
  {
    if s.Terminate? { TerminateKeepsDrained(r); }
  }

  lemma TerminateKeepsDrained(r: Runtime)
    requires Safe(r)
    ensures Drained(TerminateStep(r))
  {
    if r.section.Terminating? && r.section.stage == EndLogs {
      TerminatedIsDrained(r);
    }
  }

  lemma TerminatedIsDrained(r: Runtime)
    requires Safe(r) && r.section.Terminating? && r.section.stage == EndLogs
    ensures Drained(Terminated(r))
  {
    if r.section.final == FAILED {
      ScheduleKeepsDrained(r.(process := None, state := FAILED, section := Free));
    }
  }

  lemma ScheduleKeepsDrained(r: Runtime)
    requires Drained(r)
    ensures Drained(ScheduleRestart(r))
  {
  }

  lemma LoopKeepsDrained(r: Runtime, s: LoopStep)
    requires Safe(r)
    ensures Drained(ApplyLoop(r, s))
  {
    match s
    case Claim(t) => ClaimKeepsDrained(r, t);
    case Restart(t) => RestartKeepsDrained(r, t);
  }

  lemma ClaimKeepsDrained(r: Runtime, task: nat)
    requires Safe(r)
    ensures Drained(LoopClaims(r, task))
  {
  }

  lemma RestartKeepsDrained(r: Runtime, task: nat)
    requires Safe(r)
    ensures Drained(LoopStarts(r, task))
  {
  }

  lemma MonitorKeepsDrained(r: Runtime, s: MonitorStep)
    requires Safe(r)
    ensures Drained(ApplyMonitor(r, s))
  {
    if s.Decide? && r.section.Reaping? && r.state != DRAINING {
      ScheduleKeepsDrained(r.(monitors := r.monitors - {r.section.pid}, section := Free, state := FAILED));
    }
  }

  lemma IdleKeepsDrained(r: Runtime, s: IdleStep)
    requires Safe(r)
    ensures Drained(ApplyIdle(r, s))
  {
  }

  lemma DrainKeepsDrained(r: Runtime, s: DrainStep)
    requires Safe(r) && Admitted(r, Drains(s))
    ensures Drained(ApplyDrain(r, s))
  {
  }

  lemma ServeKeepsDrained(r: Runtime, s: ServeStep)
    requires Safe(r)
    ensures Drained(ApplyServe(r, s))
  {
  }

  lemma StepKeepsSafe(r: Runtime, s: Step)
    requires Safe(r) && Admitted(r, s)
    ensures Safe(Apply(r, s))
  {
    StepKeepsSound(r, s);
    match s
    case Starts(t) => StartKeepsDrained(r, t);
    case Fails(t) => FailKeepsDrained(r, t);
    case Loops(t) => LoopKeepsDrained(r, t);
    case Monitors(t) => MonitorKeepsDrained(r, t);
    case Idles(t) => IdleKeepsDrained(r, t);
    case Drains(t) => DrainKeepsDrained(r, t);
    case Serves(t) => ServeKeepsDrained(r, t);
  }

  /** The excluded events are exactly the ones that leave a safe runtime unsafe. */
  lemma StepSafeIff(r: Runtime, s: Step)
    requires Safe(r)
    ensures Safe(Apply(r, s)) <==> Admitted(r, s)
  {
    if Admitted(r, s) {
      StepKeepsSafe(r, s);
    } else if s.Drains? {
      assert Rank(DrainMarks(r).drain) == 2 && DrainMarks(r).idlePending;
    } else {
      AbandonedIsStarting(r, s);
    }
  }

  // ----------------------------------------------------------------- all runs

  function Run(r: Runtime, steps: seq<Step>): Runtime
    decreases |steps|
  {
    if steps == [] then r else Run(Apply(r, steps[0]), steps[1..])
  }

  ghost predicate NeverAbandons(r: Runtime, steps: seq<Step>)
    decreases |steps|
  {
    steps == [] || (!Abandons(r, steps[0]) && NeverAbandons(Apply(r, steps[0]), steps[1..]))
  }

  lemma {:induction false} RunKeepsSound(r: Runtime, steps: seq<Step>)
    requires Sound(r) && NeverAbandons(r, steps)
    ensures Sound(Run(r, steps))
    decreases |steps|
  {
    if steps != [] {
      StepKeepsSound(r, steps[0]);
      RunKeepsSound(Apply(r, steps[0]), steps[1..]);
    }
  }

  ghost predicate AdmittedRun(r: Runtime, steps: seq<Step>)
    decreases |steps|
  {
    steps == [] || (Admitted(r, steps[0]) && AdmittedRun(Apply(r, steps[0]), steps[1..]))
  }

  // ------------------------------------------------------- stale exit monitors

  /** Once a newer process has taken its place, the monitor of an older one can only end, and does end when
      its process is gone and the lock is free: in every later state it leaves state, process, tasks and
      leases as they are. */
  lemma {:induction false} StaleMonitorHarmless(r: Runtime, steps: seq<Step>, pid: nat)
    requires Stale(r, pid)
    ensures var r' := Run(r, steps);
      MonitorWakes(r', pid) ==
        if pid !in r'.alive && r'.section == Free then r'.(monitors := r'.monitors - {pid}) else r'
    decreases |steps|
  {
    if steps != [] {
      StaysStale(r, steps[0], pid);
      StaleMonitorHarmless(Apply(r, steps[0]), steps[1..], pid);
    }
  }

  ghost predicate Stale(r: Runtime, pid: nat) {
    r.process != Some(pid) && pid < r.nextProcess
  }

  lemma StaysStale(r: Runtime, s: Step, pid: nat)
    requires Stale(r, pid)
    ensures Stale(Apply(r, s), pid)
  {
    match s
    case Starts(t) => StartStaysStale(r, t, pid);
    case Fails(t) => FailStaysStale(r, t, pid);
    case Loops(t) => LoopStaysStale(r, t, pid);
    case Monitors(t) =>
    case Idles(t) =>
    case Drains(t) =>
    case Serves(t) =>
  }

  lemma StartStaysStale(r: Runtime, s: StartStep, pid: nat)
    requires Stale(r, pid)
    ensures Stale(ApplyStart(r, s), pid)
  {
  }

  lemma FailStaysStale(r: Runtime, s: FailStep, pid: nat)
    requires Stale(r, pid)
    ensures Stale(ApplyFail(r, s), pid)
  {
    if s.Terminate? { TerminateStaysStale(r, pid); }
  }

  lemma TerminateStaysStale(r: Runtime, pid: nat)
    requires Stale(r, pid)
    ensures Stale(TerminateStep(r), pid)
  {
  }

  lemma LoopStaysStale(r: Runtime, s: LoopStep, pid: nat)
    requires Stale(r, pid)
    ensures Stale(ApplyLoop(r, s), pid)
  {
  }

  // ------------------------------------------------------------------- drains

  /** While a drain or an idle stop terminates the process no lease is out and none is granted. */
  lemma TerminationIsIdle(r: Runtime)
    requires Safe(r) && r.section.Terminating? && (r.section.who == ByIdle || r.section.who == ByDrain)
    ensures r.state == DRAINING && AcquireLease(r) == r
    ensures forall l: nat :: l < |r.leases| ==> r.leases[l]
  {
    forall l: nat | l < |r.leases| ensures r.leases[l] { NoneUnreleased(r.leases, l); }
  }

  /** From its mark on, a drained runtime stays DRAINING: it grants no lease, launches no process and
      never goes back a phase, whoever still holds a handle on it. */
  ghost predicate Frozen(r: Runtime, r': Runtime) {
    && r'.state == DRAINING && Rank(r.drain) <= Rank(r'.drain)
    && |r'.leases| == |r.leases| && r'.nextProcess == r.nextProcess
  }

  lemma MarkedStepFrozen(r: Runtime, s: Step)
    requires Safe(r) && Rank(r.drain) >= 2 && Admitted(r, s)
    ensures Frozen(r, Apply(r, s))
  {
    match s
    case Starts(t) => MarkedStartFrozen(r, t);
    case Fails(t) => MarkedFailFrozen(r, t);
    case Loops(t) => MarkedLoopFrozen(r, t);
    case Monitors(t) => MarkedMonitorFrozen(r, t);
    case Idles(t) => MarkedIdleFrozen(r, t);
    case Drains(t) =>
    case Serves(t) =>
  }

  lemma MarkedStartFrozen(r: Runtime, s: StartStep)
    requires Safe(r) && Rank(r.drain) >= 2
    ensures Frozen(r, ApplyStart(r, s))
  {
  }

  lemma MarkedFailFrozen(r: Runtime, s: FailStep)
    requires Safe(r) && Rank(r.drain) >= 2
    ensures Frozen(r, ApplyFail(r, s))
  {
  }

  lemma MarkedLoopFrozen(r: Runtime, s: LoopStep)
    requires Safe(r) && Rank(r.drain) >= 2
    ensures Frozen(r, ApplyLoop(r, s))
  {
  }

  lemma MarkedMonitorFrozen(r: Runtime, s: MonitorStep)
    requires Safe(r) && Rank(r.drain) >= 2
    ensures Frozen(r, ApplyMonitor(r, s))
  {
  }

  lemma MarkedIdleFrozen(r: Runtime, s: IdleStep)
    requires Safe(r) && Rank(r.drain) >= 2
    ensures Frozen(r, ApplyIdle(r, s))
  {
  }

  lemma {:induction false} MarkedRunFrozen(r: Runtime, steps: seq<Step>)
    requires Safe(r) && Rank(r.drain) >= 2 && AdmittedRun(r, steps)
    ensures Frozen(r, Run(r, steps)) && Safe(Run(r, steps))
    decreases |steps|
  {
    if steps != [] {
      StepKeepsSafe(r, steps[0]);
      MarkedStepFrozen(r, steps[0]);
      MarkedRunFrozen(Apply(r, steps[0]), steps[1..]);
    }
  }

  /** A runtime whose drain is done is retired for good; its bridge sessions are another component's. */
  ghost predicate Retired(r: Runtime) {
    && r.state == DRAINING && r.process.None? && r.alive == map[] && r.loops == map[]
    && r.activeLeases == 0 && (forall l: nat :: l < |r.leases| ==> r.leases[l])
  }

  lemma DoneIsRetired(r: Runtime)
    requires Safe(r) && r.drain == Done
    ensures Retired(r)
  {
    forall l: nat | l < |r.leases| ensures r.leases[l] { NoneUnreleased(r.leases, l); }
  }

  // ------------------------------------------------------------ restart budget

  ghost predicate Increasing(a: seq<nat>) {
    forall i, j :: 0 <= i < j < |a| ==> a[i] < a[j]
  }

  /** Supervisor starts since the last demand start carry increasing numbers, none above the counter;
      a sleeping loop carries the counter itself and has not used it yet. */
  ghost predicate Budgeted(r: Runtime) {
    && Increasing(r.starts) && (forall a <- r.starts :: 1 <= a <= r.restartAttempts)
    && forall t <- r.loops :: r.loops[t].Sleeping? ==>
      r.loops[t].attempt == r.restartAttempts >= 1 && forall a <- r.starts :: a < r.restartAttempts
  }

  lemma StepKeepsBudget(r: Runtime, s: Step)
    requires LoopOwned(r) && Budgeted(r)
    ensures Budgeted(Apply(r, s))
  {
    match s
    case Starts(t) => StartKeepsBudget(r, t);
    case Fails(t) => FailKeepsBudget(r, t);
    case Loops(t) => LoopKeepsBudget(r, t);
    case Monitors(t) => MonitorKeepsBudget(r, t);
    case Idles(t) => IdleQuiet(r, t);
    case Drains(t) => DrainQuiet(r, t);
    case Serves(t) => ServeQuiet(r, t);
  }

  /** Steps that leave the restart history alone. */
  ghost predicate SameHistory(r: Runtime, r': Runtime) {
    r'.starts == r.starts && r'.restartAttempts == r.restartAttempts
  }

  lemma IdleQuiet(r: Runtime, s: IdleStep)
    ensures SameHistory(r, ApplyIdle(r, s)) && ApplyIdle(r, s).loops == r.loops
  {
  }

  lemma DrainQuiet(r: Runtime, s: DrainStep)
    ensures SameHistory(r, ApplyDrain(r, s)) && ApplyDrain(r, s).loops == r.loops
  {
  }

  lemma ServeQuiet(r: Runtime, s: ServeStep)
    ensures SameHistory(r, ApplyServe(r, s)) && ApplyServe(r, s).loops == r.loops
  {
  }

  lemma MonitorQuiet(r: Runtime, s: MonitorStep)
    ensures SameHistory(r, ApplyMonitor(r, s))
  {
  }

  lemma StartKeepsBudget(r: Runtime, s: StartStep)
    requires LoopOwned(r) && Budgeted(r)
    ensures Budgeted(ApplyStart(r, s))
  {
    match s
    case Demand => DemandKeepsBudget(r);
    case LoopIsGone => LoopGoneKeepsBudget(r);
    case Spawn =>
    case BecomeReady => ReadyKeepsBudget(r);
  }

  /** Entering STARTING leaves no loop asleep, or the count as it was. */
  lemma EnterKeepsBudget(r: Runtime, who: Actor)
    requires Budgeted(r) && (who == ByRequest ==> r.loops == map[])
    ensures Budgeted(EnterStarting(r, who))
  {
  }

  lemma DemandKeepsBudget(r: Runtime)
    requires LoopOwned(r) && Budgeted(r)
    ensures Budgeted(DemandStart(r))
  {
    if r.restartTask.None? || r.restartTask.value !in r.loops {
      assert r.loops == map[];
      EnterKeepsBudget(r, ByRequest);
    }
  }

  lemma LoopGoneKeepsBudget(r: Runtime)
    requires LoopOwned(r) && Budgeted(r)
    ensures Budgeted(LoopGone(r))
  {
    if r.section.AwaitingLoop? && r.restartTask.Some? {
      OneLoop(r, r.restartTask.value);
      EnterKeepsBudget(r.(loops := map[], restartTask := None), r.section.who);
    }
  }

  lemma ReadyKeepsBudget(r: Runtime)
    requires LoopOwned(r) && Budgeted(r)
    ensures Budgeted(Ready(r))
  {
  }

  lemma ScheduleKeepsBudget(r: Runtime)
    requires Budgeted(r)
    ensures Budgeted(ScheduleRestart(r))
  {
  }

  lemma FailKeepsBudget(r: Runtime, s: FailStep)
    requires LoopOwned(r) && Budgeted(r)
    ensures Budgeted(ApplyFail(r, s))
  {
    match s
    case StartFailed =>
    case StartIsCancelled => CancelKeepsBudget(r);
    case StartRaisesOther => EscapeKeepsBudget(r);
    case Terminate => TerminateStepKeepsBudget(r);
    case CleanupIsCancelled => CleanupKeepsBudget(r);
  }

  lemma CancelKeepsBudget(r: Runtime)
    requires Budgeted(r)
    ensures Budgeted(StartCancelled(r))
  {
  }

  lemma CleanupKeepsBudget(r: Runtime)
    requires Budgeted(r)
    ensures Budgeted(CleanupCancelled(r))
  {
  }

  lemma EscapeKeepsBudget(r: Runtime)
    requires Budgeted(r)
    ensures Budgeted(StartEscapes(r))
  {
  }

  lemma TerminateStepKeepsBudget(r: Runtime)
    requires Budgeted(r)
    ensures Budgeted(TerminateStep(r))
  {
    if r.section.Terminating? && r.section.stage == EndLogs {
      TerminatedKeepsBudget(r);
    }
  }

  lemma TerminatedKeepsBudget(r: Runtime)
    requires Budgeted(r) && r.section.Terminating?
    ensures Budgeted(Terminated(r))
  {
    var s := r.(process := None, state := r.section.final, section := Free);
    assert Budgeted(s);
    ScheduleKeepsBudget(s);
  }

  lemma LoopKeepsBudget(r: Runtime, s: LoopStep)
    requires LoopOwned(r) && Budgeted(r)
    ensures Budgeted(ApplyLoop(r, s))
  {
    if s.task in r.loops { OneLoop(r, s.task); }
    if s.Restart? && LoopMayStart(r, s.task) { RestartKeepsBudget(r, s.task); }
  }

  lemma IncreasingAppend(a: seq<nat>, b: nat, top: nat)
    requires Increasing(a) && forall x <- a :: 1 <= x < b
    requires 1 <= b <= top
    ensures Increasing(a + [b]) && forall x <- a + [b] :: 1 <= x <= top
  {
    forall i, j | 0 <= i < j < |a + [b]| ensures (a + [b])[i] < (a + [b])[j] {
      assert a[i] in a;
    }
    assert forall x <- a + [b] :: x in a || x == b;
  }

  lemma RestartKeepsBudget(r: Runtime, task: nat)
    requires LoopOwned(r) && Budgeted(r) && LoopMayStart(r, task)
    ensures Budgeted(BeginStart(LoopStarting(r, task), ByLoop(task)))
  {
    var s := LoopStarting(r, task);
    IncreasingAppend(r.starts, r.loops[task].attempt, r.restartAttempts);
    assert forall t <- s.loops :: t == task;
    assert Budgeted(s);
    assert BeginStart(s, ByLoop(task)) == EnterStarting(s, ByLoop(task));
  }

  lemma MonitorKeepsBudget(r: Runtime, s: MonitorStep)
    requires LoopOwned(r) && Budgeted(r)
    ensures Budgeted(ApplyMonitor(r, s))
  {
  }

  // ------------------------------------------------------ every step whatsoever

  lemma StartKeepsLoop(r: Runtime, s: StartStep)
    requires LoopOwned(r)
    ensures LoopOwned(ApplyStart(r, s))
  {
    if r.restartTask.Some? { OneLoop(r, r.restartTask.value); }
  }

  lemma FailKeepsLoop(r: Runtime, s: FailStep)
    requires LoopOwned(r)
    ensures LoopOwned(ApplyFail(r, s))
  {
    if r.restartTask.Some? { OneLoop(r, r.restartTask.value); }
    match s
    case StartRaisesOther => EscapeKeepsLoop(r);
    case Terminate => TerminateKeepsLoop(r);
    case _ =>
  }

  lemma EscapeKeepsLoop(r: Runtime)
    requires LoopOwned(r)
    ensures LoopOwned(StartEscapes(r))
  {
  }

  lemma TerminateKeepsLoop(r: Runtime)
    requires LoopOwned(r)
    ensures LoopOwned(TerminateStep(r))
  {
    if r.section.Terminating? && r.section.stage == EndLogs {
      TerminatedKeepsLoop(r);
    }
  }

  lemma TerminatedKeepsLoop(r: Runtime)
    requires LoopOwned(r) && r.section.Terminating?
    ensures LoopOwned(Terminated(r))
  {
  }

  lemma LoopKeepsLoop(r: Runtime, s: LoopStep)
    requires LoopOwned(r)
    ensures LoopOwned(ApplyLoop(r, s))
  {
    if s.task in r.loops { OneLoop(r, s.task); }
  }

  lemma MonitorKeepsLoop(r: Runtime, s: MonitorStep)
    requires LoopOwned(r)
    ensures LoopOwned(ApplyMonitor(r, s))
  {
  }

  lemma IdleKeepsLoop(r: Runtime, s: IdleStep)
    requires LoopOwned(r)
    ensures LoopOwned(ApplyIdle(r, s))
  {
  }

  lemma DrainKeepsLoop(r: Runtime, s: DrainStep)
    requires LoopOwned(r)
    ensures LoopOwned(ApplyDrain(r, s))
  {
  }

  lemma StepKeepsLoop(r: Runtime, s: Step)
    requires LoopOwned(r)
    ensures LoopOwned(Apply(r, s))
  {
    match s
    case Starts(t) => StartKeepsLoop(r, t);
    case Fails(t) => FailKeepsLoop(r, t);
    case Loops(t) => LoopKeepsLoop(r, t);
    case Monitors(t) => MonitorKeepsLoop(r, t);
    case Idles(t) => IdleKeepsLoop(r, t);
    case Drains(t) => DrainKeepsLoop(r, t);
    case Serves(t) => ServeQuiet(r, t);
  }

  /** What no step breaks, not even an abandoned start: the lease count, one restart task at most, and
      the restart budget. */
  ghost predicate Accounted(r: Runtime) {
    LeasesCounted(r) && LoopOwned(r) && Budgeted(r)
  }

  lemma StepKeepsAccounts(r: Runtime, s: Step)
    requires Accounted(r)
    ensures Accounted(Apply(r, s))
  {
    StepKeepsLoop(r, s);
    StepKeepsBudget(r, s);
    StepKeepsTerms(r, s);
    if s.Serves? {
      ServeKeepsCount(r, s.serve);
    }
  }

  lemma ServeKeepsCount(r: Runtime, s: ServeStep)
    requires LeasesCounted(r)
    ensures LeasesCounted(ApplyServe(r, s))
  {
    match s
    case Acquire => AcquireCounts(r);
    case Release(l) => ReleaseCounts(r, l);
  }

  /** What a step keeps of a runtime: its accounts in any case, its soundness unless it abandons a start,
      and its safety if it is admitted. */
  ghost predicate Kept(r: Runtime, s: Step, r': Runtime) {
    && (Accounted(r) ==> Accounted(r'))
    && (Sound(r) && !Abandons(r, s) ==> Sound(r'))
    && (Safe(r) && Admitted(r, s) ==> Safe(r'))
  }

  lemma StepKeeps(r: Runtime, s: Step)
    ensures Kept(r, s, Apply(r, s))
  {
    if Accounted(r) { StepKeepsAccounts(r, s); }
    if Sound(r) && !Abandons(r, s) { StepKeepsSound(r, s); }
    if Safe(r) && Admitted(r, s) { StepKeepsSafe(r, s); }
  }

  /** The counter and every start made are within `cap`, and so is the policy in force. */
  ghost predicate WithinCap(r: Runtime, cap: nat) {
    && (r.config.mode.Managed? ==> r.config.mode.restart.maxAttempts <= cap)
    && r.restartAttempts <= cap && forall a <- r.starts :: a <= cap
  }

  /** A start of the supervisor is within the policy in force when it is made. */
  lemma SupervisorStartWithinPolicy(r: Runtime, s: Step)
    requires LoopOwned(r) && |Apply(r, s).starts| > |r.starts|
    ensures s.Loops? && s.loop.Restart? && LoopMayStart(r, s.loop.task)
    ensures Apply(r, s).starts == r.starts + [r.loops[s.loop.task].attempt]
    ensures r.loops[s.loop.task].attempt <= r.config.mode.restart.maxAttempts && r.config.mode.restart.enabled
  {
    StartsOnlyByLoop(r, s);
    if LoopMayStart(r, s.loop.task) {
      var t := s.loop.task;
      assert BeginStart(LoopStarting(r, t), ByLoop(t)) == EnterStarting(LoopStarting(r, t), ByLoop(t));
    }
  }

  /** A restart task is made only for a failed runtime that has none, while the policy in force permits
      another attempt. */
  lemma RestartTaskWithinPolicy(r: Runtime, s: Step)
    ensures forall t <- Apply(r, s).loops :: t !in r.loops ==> RestartGranted(Apply(r, s), t)
  {
    match s
    case Starts(d) => StartMakesNoLoop(r, d);
    case Fails(f) => FailMakesLoop(r, f);
    case Loops(l) => LoopMakesNoLoop(r, l);
    case Monitors(m) => MonitorMakesLoop(r, m);
    case _ =>
  }

  ghost predicate RestartGranted(r: Runtime, t: nat) {
    && r.state == FAILED && r.config.mode.Managed? && r.config.mode.restart.enabled
    && r.restartAttempts < r.config.mode.restart.maxAttempts && r.restartTask == Some(t)
  }

  lemma ScheduleMakesLoop(r: Runtime)
    ensures forall t <- ScheduleRestart(r).loops :: t in r.loops || RestartGranted(ScheduleRestart(r), t)
    ensures r.restartTask.Some? && r.restartTask.value in r.loops ==> ScheduleRestart(r) == r
  {
  }

  lemma StartMakesNoLoop(r: Runtime, s: StartStep)
    ensures ApplyStart(r, s).loops.Keys <= r.loops.Keys
  {
    match s
    case Demand => DemandMakesNoLoop(r);
    case _ =>
  }

  lemma DemandMakesNoLoop(r: Runtime)
    ensures DemandStart(r).loops.Keys <= r.loops.Keys
  {
  }

  lemma FailMakesLoop(r: Runtime, s: FailStep)
    ensures forall t <- ApplyFail(r, s).loops :: t in r.loops || RestartGranted(ApplyFail(r, s), t)
  {
    if s.Terminate? && r.section.Terminating? && r.section.stage == EndLogs {
      TerminatedMakesLoop(r);
    }
  }

  lemma TerminatedMakesLoop(r: Runtime)
    requires r.section.Terminating?
    ensures forall t <- Terminated(r).loops :: t in r.loops || RestartGranted(Terminated(r), t)
  {
    ScheduleMakesLoop(r.(process := None, state := r.section.final, section := Free));
  }

  lemma MonitorMakesLoop(r: Runtime, s: MonitorStep)
    ensures forall t <- ApplyMonitor(r, s).loops :: t in r.loops || RestartGranted(ApplyMonitor(r, s), t)
  {
    if s.Decide? && r.section.Reaping? {
      ScheduleMakesLoop(r.(monitors := r.monitors - {r.section.pid}, section := Free, state := FAILED));
    }
  }

  lemma LoopMakesNoLoop(r: Runtime, s: LoopStep)
    ensures ApplyLoop(r, s).loops.Keys <= r.loops.Keys
  {
  }

  /** The attempt counter goes up only when the loop claims the next number on a failed runtime within the
      policy in force; it goes down only to zero, when a demand start begins. */
  lemma CounterWithinPolicy(r: Runtime, s: Step)
    ensures var r' := Apply(r, s);
      && (r'.restartAttempts > r.restartAttempts ==>
          && s.Loops? && s.loop.Claim? && r.state == FAILED && r.section == Free && r.config.mode.Managed?
          && r.config.mode.restart.enabled && r'.restartAttempts == r.restartAttempts + 1
          && r'.restartAttempts <= r.config.mode.restart.maxAttempts && s.loop.task in r'.loops
          && r'.loops[s.loop.task] == Sleeping(r'.restartAttempts))
      && (r'.restartAttempts < r.restartAttempts ==>
          && s.Starts? && r'.restartAttempts == 0 && r'.starts == []
          && (r'.section == Launching(ByRequest) || r'.state == FAILED))
  {
    match s
    case Starts(t) => StartCounts(r, t); StartClears(r, t);
    case Fails(t) => FailKeepsStarts(r, t);
    case Loops(t) =>
    case Monitors(t) => MonitorQuiet(r, t);
    case _ =>
  }

  lemma StartClears(r: Runtime, s: StartStep)
    ensures ApplyStart(r, s).restartAttempts == r.restartAttempts
      || ApplyStart(r, s).section == Launching(ByRequest) || ApplyStart(r, s).state == FAILED
  {
    match s
    case Demand => DemandClears(r);
    case _ =>
  }

  lemma DemandClears(r: Runtime)
    ensures DemandStart(r).restartAttempts == r.restartAttempts
      || DemandStart(r).section == Launching(ByRequest) || DemandStart(r).state == FAILED
  {
  }

  /** The total counts the starts the supervisor has made. */
  lemma TotalCountsStarts(r: Runtime, s: Step)
    requires LoopOwned(r)
    ensures Apply(r, s).restartsTotal == r.restartsTotal + (if |Apply(r, s).starts| > |r.starts| then 1 else 0)
  {
    match s
    case Starts(t) => StartsOnlyByLoop(r, s); TotalStays(r, t);
    case Fails(t) => FailKeepsTotal(r, t);
    case Loops(t) => LoopCountsStart(r, t);
    case _ =>
  }

  lemma TotalStays(r: Runtime, s: StartStep)
    ensures ApplyStart(r, s).restartsTotal == r.restartsTotal
  {
  }

  lemma FailKeepsTotal(r: Runtime, s: FailStep)
    ensures ApplyFail(r, s).restartsTotal == r.restartsTotal && ApplyFail(r, s).starts == r.starts
  {
    FailKeepsStarts(r, s);
  }

  lemma LoopCountsStart(r: Runtime, s: LoopStep)
    requires LoopOwned(r)
    ensures ApplyLoop(r, s).restartsTotal ==
      r.restartsTotal + (if |ApplyLoop(r, s).starts| > |r.starts| then 1 else 0)
  {
    if s.Restart? && s.task in r.loops && LoopMayStart(r, s.task) {
      var r' := LoopStarting(r, s.task);
      assert BeginStart(r', ByLoop(s.task)) == EnterStarting(r', ByLoop(s.task));
    }
  }

  lemma StartsOnlyByLoop(r: Runtime, s: Step)
    ensures (s.Loops? && s.loop.Restart?) || |Apply(r, s).starts| <= |r.starts|
  {
    match s
    case Starts(t) => assert |ApplyStart(r, t).starts| <= |r.starts|;
    case Fails(t) => FailKeepsStarts(r, t);
    case _ =>
  }

  lemma FailKeepsStarts(r: Runtime, s: FailStep)
    ensures SameHistory(r, ApplyFail(r, s))
  {
    if s.Terminate? { TerminateKeepsStarts(r); }
  }

  lemma TerminateKeepsStarts(r: Runtime)
    ensures SameHistory(r, TerminateStep(r))
  {
  }

  lemma StepKeepsCap(r: Runtime, s: Step, cap: nat)
    requires LoopOwned(r) && WithinCap(r, cap)
    ensures WithinCap(Apply(r, s), cap)
  {
    StepKeepsTerms(r, s);
    match s
    case Starts(t) => StartCounts(r, t);
    case Fails(t) => FailKeepsStarts(r, t);
    case Loops(t) => LoopKeepsCap(r, t, cap);
    case Monitors(t) => MonitorQuiet(r, t);
    case Idles(t) => IdleQuiet(r, t);
    case Drains(t) => DrainQuiet(r, t);
    case Serves(t) => ServeQuiet(r, t);
  }

  ghost predicate CounterKeptOrCleared(r: Runtime, r': Runtime) {
    || (r'.starts == r.starts && r'.restartAttempts == r.restartAttempts)
    || (r'.starts == [] && r'.restartAttempts == 0)
  }

  lemma StartCounts(r: Runtime, s: StartStep)
    ensures CounterKeptOrCleared(r, ApplyStart(r, s))
  {
    match s
    case Demand => DemandCounts(r);
    case LoopIsGone => LoopGoneCounts(r);
    case _ =>
  }

  lemma DemandCounts(r: Runtime)
    ensures CounterKeptOrCleared(r, DemandStart(r))
  {
  }

  lemma LoopGoneCounts(r: Runtime)
    ensures CounterKeptOrCleared(r, LoopGone(r))
  {
  }

  lemma LoopKeepsCap(r: Runtime, s: LoopStep, cap: nat)
    requires LoopOwned(r) && WithinCap(r, cap)
    ensures WithinCap(ApplyLoop(r, s), cap)
  {
    if s.Restart? && LoopMayStart(r, s.task) {
      var a, r' := r.loops[s.task].attempt, LoopStarting(r, s.task);
      assert BeginStart(r', ByLoop(s.task)) == EnterStarting(r', ByLoop(s.task));
      assert forall b <- r'.starts :: b in r.starts || b == a;
    }
  }

  /** A demand start clears the count; between two of them there is one start at most for each
      number up to the counter. */
  lemma StartsBounded(r: Runtime, cap: nat)
    requires Budgeted(r) && WithinCap(r, cap)
    ensures Increasing(r.starts) && |r.starts| <= r.restartAttempts <= cap
  {
    IncreasingBounded(r.starts, r.restartAttempts);
  }

  lemma {:induction false} IncreasingBounded(a: seq<nat>, n: nat)
    requires Increasing(a) && forall x <- a :: 1 <= x <= n
    ensures |a| <= n
    decreases n
  {
    if a != [] {
      var last, init := a[|a| - 1], a[..|a| - 1];
      assert last in a;
      forall x | x in init ensures 1 <= x <= last - 1 {
        var i :| 0 <= i < |init| && init[i] == x;
        assert a[i] in a && a[i] < a[|a| - 1];
      }
      IncreasingBounded(init, last - 1);
    }
  }

  // -------------------------------------------------------------- the backoff

  function Pow2(k: nat): (n: nat)
    ensures n >= 1
  {
    if k == 0 then 1 else 2 * Pow2(k - 1)
  }

  function Backoff(initial: real, attempt: nat): real {
    initial * (Pow2(if attempt >= 1 then attempt - 1 else 0) as real)
  }

  /** `_restart_delay`. */
  function RestartDelay(c: Restart, attempt: nat): real {
    if Backoff(c.initialBackoff, attempt) < c.maxBackoff then Backoff(c.initialBackoff, attempt) else c.maxBackoff
  }

  /** Delays stay within the configured bounds and never shrink from one attempt to a later one. */
  lemma DelaysGrow(c: Restart, a: nat, b: nat)
    requires 0.0 < c.initialBackoff <= c.maxBackoff && a <= b
    ensures c.initialBackoff <= RestartDelay(c, a) <= RestartDelay(c, b) <= c.maxBackoff
  {
    BackoffGrows(c.initialBackoff, 0, a);
    BackoffGrows(c.initialBackoff, a, b);
    assert Backoff(c.initialBackoff, 0) == c.initialBackoff;
  }

  /** The first delay is the initial one, and each later one twice the one before, up to the maximum. */
  lemma DelaysDouble(c: Restart, a: nat)
    requires 0.0 < c.initialBackoff <= c.maxBackoff && a >= 1
    ensures RestartDelay(c, 1) == c.initialBackoff
    ensures RestartDelay(c, a + 1) ==
      if 2.0 * RestartDelay(c, a) < c.maxBackoff then 2.0 * RestartDelay(c, a) else c.maxBackoff
  {
    assert Backoff(c.initialBackoff, 1) == c.initialBackoff;
    BackoffDoubles(c.initialBackoff, a);
  }

  lemma BackoffDoubles(initial: real, a: nat)
    requires a >= 1
    ensures Backoff(initial, a + 1) == 2.0 * Backoff(initial, a)
  {
    var n := Pow2(a - 1) as real;
    assert Pow2(a) == 2 * Pow2(a - 1);
    assert initial * (2.0 * n) == 2.0 * (initial * n);
  }

  lemma BackoffGrows(initial: real, a: nat, b: nat)
    requires 0.0 < initial && a <= b
    ensures Backoff(initial, a) <= Backoff(initial, b)
  {
    var i, j := if a >= 1 then a - 1 else 0, if b >= 1 then b - 1 else 0;
    Pow2Grows(i, j);
    Scales(initial, Pow2(i) as real, Pow2(j) as real);
  }

  lemma {:induction false} Pow2Grows(i: nat, j: nat)
    requires i <= j
    ensures Pow2(i) <= Pow2(j)
    decreases j
  {
    if i < j {
      Pow2Grows(i, j - 1);
    }
  }

  lemma Scales(x: real, a: real, b: real)
    requires 0.0 < x && a <= b
    ensures x * a <= x * b
  {
    assert x * (b - a) == x * b - x * a;
    assert x * (b - a) >= 0.0;
  }

  // ------------------------------------------- what the excluded events lead to

  /** When a drain marks a safe runtime, some continuation leaves DRAINING again if and only if the
      mark falls into the idle checker's window. */
  lemma MarkIsLostIff(r: Runtime)
    requires Safe(r) && r.section == Free && r.drain == Requested
    ensures (exists steps :: AdmittedRun(DrainMarks(r), steps) && Run(DrainMarks(r), steps).state != DRAINING)
      <==> r.idlePending
  {
    var m := DrainMarks(r);
    if r.idlePending {
      var steps := IdleStopFinishes(m);
      assert AdmittedRun(m, steps) && Run(m, steps).state != DRAINING;
    } else {
      StepKeepsSafe(r, Drains(DrainMark));
      forall steps | AdmittedRun(m, steps) ensures Run(m, steps).state == DRAINING {
        MarkedRunFrozen(m, steps);
      }
    }
  }

  lemma IdleStopFinishes(m: Runtime) returns (steps: seq<Step>)
    requires m.idlePending && m.section == Free && m.activeLeases == 0
    ensures AdmittedRun(m, steps) && Run(m, steps).state == STOPPED
  {
    steps := AwaitsFinish(IdleStops(m), 4);
    steps := Prepend(m, Idles(IdleStop), steps);
  }

  /** The awaits of an idle stop's termination, the last `n` of them. */
  lemma AwaitsFinish(r: Runtime, n: nat) returns (steps: seq<Step>)
    requires 1 <= n <= 4
    requires r.section == Terminating(ByIdle, STOPPED, [EndLogs, EndProcess, EndMonitor, EndLoop][n - 1])
    ensures AdmittedRun(r, steps) && Run(r, steps).state == STOPPED
    decreases n
  {
    if n == 1 {
      steps := [];
    } else {
      AwaitPasses(r);
      steps := AwaitsFinish(TerminateStep(r), n - 1);
    }
    steps := Prepend(r, Fails(Terminate), steps);
  }

  function NextStage(s: Stage): Stage {
    match s
    case EndLoop => EndMonitor
    case EndMonitor => EndProcess
    case _ => EndLogs
  }

  lemma AwaitPasses(r: Runtime)
    requires r.section.Terminating? && r.section.stage != EndLogs
    ensures TerminateStep(r).section == r.section.(stage := NextStage(r.section.stage))
  {
  }

  lemma Prepend(r: Runtime, s: Step, rest: seq<Step>) returns (steps: seq<Step>)
    requires Admitted(r, s) && AdmittedRun(Apply(r, s), rest)
    ensures AdmittedRun(r, steps) && Run(r, steps) == Run(Apply(r, s), rest)
  {
    steps := [s] + rest;
    assert steps[1..] == rest;
  }

  lemma {:induction false} RunSnoc(r: Runtime, steps: seq<Step>, s: Step)
    ensures Run(r, steps + [s]) == Apply(Run(r, steps), s)
    decreases |steps|
  {
    if steps == [] {
      assert steps + [s] == [s] && [s][1..] == [];
      assert Run(Apply(r, s), []) == Apply(r, s);
    } else {
      assert (steps + [s])[1..] == steps[1..] + [s];
      RunSnoc(Apply(r, steps[0]), steps[1..], s);
    }
  }

  lemma Then(r0: Runtime, r: Runtime, steps: seq<Step>, s: Step) returns (r': Runtime, steps': seq<Step>)
    requires r == Run(r0, steps)
    ensures r' == Apply(r, s) == Run(r0, steps')
  {
    RunSnoc(r0, steps, s);
    r', steps' := Apply(r, s), steps + [s];
  }

  /** The lock is free, the state is STARTING, and the next request launches another process. */
  lemma SecondProcess(r0: Runtime, r1: Runtime, before: seq<Step>) returns (steps: seq<Step>)
    requires r1 == Run(r0, before) && Resolved(r1.config) && r1.config == r0.config
    requires r1.section == Free && r1.state == STARTING && r1.restartTask.None? && r1.nextProcess == 1
    requires 0 in r1.alive && r1.alive[0] == r1.config.mode.launch
    ensures var r := Run(r0, steps); 0 in r.alive && 1 in r.alive && r.alive[0] == r.alive[1] == r0.config.mode.launch
  {
    var r;
    r, steps := Then(r0, r1, before, Starts(Demand));
    assert r.section == Launching(ByRequest) && r.alive == r1.alive;
    r, steps := Then(r0, r, steps, Starts(Spawn));
  }

  /** A demand start has launched its process. */
  lemma FirstProcess(config: Endpoint) returns (r: Runtime, steps: seq<Step>)
    requires Resolved(config)
    ensures r == Run(FromConfig(config), steps) && r.config == config && r.section == Probing(ByRequest, 0)
    ensures r.state == STARTING && r.restartTask.None? && r.nextProcess == 1
    ensures r.alive == map[0 := config.mode.launch]
  {
    var r0 := FromConfig(config);
    r, steps := Then(r0, r0, [], Starts(Demand));
    r, steps := Then(r0, r, steps, Starts(Spawn));
  }

  /** A request cancelled while it cleans up a failed start, in its wait for the exit monitor: the next
      request launches a second process on the same port beside the first. */
  lemma CancelledCleanupLeavesTwoProcesses(config: Endpoint) returns (steps: seq<Step>)
    requires Resolved(config)
    ensures var r := Run(FromConfig(config), steps);
      0 in r.alive && 1 in r.alive && r.alive[0] == r.alive[1] == config.mode.launch
  {
    var r0 := FromConfig(config);
    var r;
    r, steps := FirstProcess(config);
    r, steps := Then(r0, r, steps, Fails(StartFailed));
    r, steps := Then(r0, r, steps, Fails(Terminate));
    assert r.section == Terminating(ByRequest, FAILED, EndMonitor);
    r, steps := Then(r0, r, steps, Fails(CleanupIsCancelled));
    steps := SecondProcess(r0, r, steps);
  }

  /** An exception that leaves a start uncaught once the process runs: the same two processes. */
  lemma EscapedExceptionLeavesTwoProcesses(config: Endpoint) returns (steps: seq<Step>)
    requires Resolved(config)
    ensures var r := Run(FromConfig(config), steps);
      0 in r.alive && 1 in r.alive && r.alive[0] == r.alive[1] == config.mode.launch
  {
    var r0 := FromConfig(config);
    var r;
    r, steps := FirstProcess(config);
    r, steps := Then(r0, r, steps, Fails(StartRaisesOther));
    steps := SecondProcess(r0, r, steps);
  }

  /** A drain that marks the runtime between the two lock sections of an idle stop: the idle stop
      ends in STOPPED, a request starts the process again and holds a lease under the drain. */
  lemma DrainInsideIdleStopIsLeased(config: Endpoint) returns (before: seq<Step>, after: seq<Step>)
    requires Resolved(config)
    ensures var r := Run(Run(FromConfig(config), before).(drain := Requested), after);
      r.drain == Marked && r.state == RUNNING && r.activeLeases == 1
  {
    var r0 := FromConfig(config);
    var r;
    r, before := Then(r0, r0, [], Starts(Demand));
    r, before := Then(r0, r, before, Starts(Spawn));
    r, before := Then(r0, r, before, Starts(BecomeReady));
    r, before := Then(r0, r, before, Idles(IdleMark));
    after := LeasedUnderMark(r.(drain := Requested));
  }

  lemma LeasedUnderMark(r1: Runtime) returns (steps: seq<Step>)
    requires Resolved(r1.config) && r1.idlePending && r1.section == Free && r1.drain == Requested
    requires r1.activeLeases == 0
    requires r1.process.Some? && r1.alive.Keys == {r1.process.value} && r1.restartTask.None?
    ensures var r := Run(r1, steps); r.drain == Marked && r.state == RUNNING && r.activeLeases == 1
  {
    steps := StopUnderMark(r1);
    var r := Run(r1, steps);
    r, steps := Then(r1, r, steps, Starts(Demand));
    assert r.section == Launching(ByRequest);
    r, steps := Then(r1, r, steps, Starts(Spawn));
    r, steps := Then(r1, r, steps, Starts(BecomeReady));
    r, steps := Then(r1, r, steps, Serves(Acquire));
  }

  lemma StopUnderMark(r1: Runtime) returns (steps: seq<Step>)
    requires r1.idlePending && r1.section == Free && r1.drain == Requested && r1.activeLeases == 0
    requires r1.process.Some? && r1.alive.Keys == {r1.process.value} && r1.restartTask.None?
    ensures var r := Run(r1, steps);
      && r.state == STOPPED && r.section == Free && r.drain == Marked && r.alive == map[] && r.process.None?
      && r.config == r1.config && r.restartTask.None? && r.activeLeases == 0
  {
    var r;
    r, steps := Then(r1, r1, [], Drains(DrainMark));
    r, steps := Then(r1, r, steps, Idles(IdleStop));
    steps := ProcessStops(r1, r, steps);
  }

  /** The awaits of an idle stop that finds a running process and no restart task. */
  lemma ProcessStops(r0: Runtime, r1: Runtime, before: seq<Step>) returns (steps: seq<Step>)
    requires r1 == Run(r0, before) && r1.section == Terminating(ByIdle, STOPPED, EndLoop)
    requires r1.process.Some? && r1.alive.Keys == {r1.process.value} && r1.restartTask.None?
    ensures Run(r0, steps) == r1.(state := STOPPED, section := Free, alive := map[], process := None, exitTask := None,
      monitors := if r1.exitTask.Some? then r1.monitors - {r1.exitTask.value} else r1.monitors)
  {
    var r;
    r, steps := Then(r0, r1, before, Fails(Terminate));
    assert r == r1.(section := Terminating(ByIdle, STOPPED, EndMonitor));
    r, steps := Then(r0, r, steps, Fails(Terminate));
    r, steps := Then(r0, r, steps, Fails(Terminate));
    assert r.alive == map[];
    r, steps := Then(r0, r, steps, Fails(Terminate));
  }
}
