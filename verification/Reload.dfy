/** The registry of endpoint runtimes and the transactional reload of a configuration snapshot
    (mcp_router/server.py, MCPRouter.apply_configuration). */
module Reload {
  import opened Common
  import opened Lifecycle
  import opened LifecycleSafety

  type Config = map<string, Endpoint>

  /** What configuration validation promises: paths name their endpoints, every managed endpoint
      has a readiness port, and no two share one. */
  ghost predicate ValidConfig(c: Config) {
    && (forall p <- c :: c[p].path == p && (c[p].mode.Managed? ==> Port(c[p]).Some?))
    && (forall p, q :: p in c && q in c && p != q && c[p].mode.Managed? && c[q].mode.Managed? ==>
          Port(c[p]) != Port(c[q]))
  }

  /** `_endpoint_requires_runtime_reset`. */
  predicate RequiresReset(previous: Endpoint, candidate: Endpoint) {
    || previous.mode.Managed? != candidate.mode.Managed?
    || previous.url != candidate.url || previous.transport != candidate.transport || previous.bridge != candidate.bridge
    || (previous.mode.Managed? && candidate.mode.Managed? && previous.mode.launch != candidate.mode.launch)
  }

  /** `b` differs from `a` in nothing but what may be replaced in place. */
  predicate OnlyInPlace(a: Endpoint, b: Endpoint) {
    && b.url == a.url && b.transport == a.transport && b.bridge == a.bridge
    && (if a.mode.Managed?
        then b.mode == Managed(a.mode.launch, if b.mode.Managed? then b.mode.restart else a.mode.restart)
        else b.mode == Remote)
  }

  /** A runtime is reset exactly when more changes than path, summary and restart policy: any one of url,
      transport, bridge, mode, argv, env, cwd, readiness and shell command does it. */
  lemma RequiresResetIff(a: Endpoint, b: Endpoint)
    ensures !RequiresReset(a, b) <==> OnlyInPlace(a, b)
    ensures !RequiresReset(a, b) <==>
      b == a.(path := b.path, summary := b.summary,
              mode := if a.mode.Managed? && b.mode.Managed? then a.mode.(restart := b.mode.restart) else a.mode)
  {
  }

  datatype World = World(
    objects: map<Rid, Runtime>,     // every runtime object ever made
    registry: map<string, Rid>,     // _runtimes
    pending: Option<Config>,        // the snapshot a reload is working towards, while it holds the reload lock
    generation: nat)

  /** The runtime now published under a path, unless the snapshot has to replace or remove it. */
  predicate KeepsPath(w: World, c: Config, path: string) {
    && path in c && path in w.registry && w.registry[path] in w.objects
    && !RequiresReset(w.objects[w.registry[path]].config, c[path])
  }

  // -------------------------------------------------------------------- steps

  /** A step of one runtime; the handle may be to any runtime object ever made. */
  function At(w: World, rid: Rid, s: Step): World {
    if rid in w.objects then w.(objects := w.objects[rid := Apply(w.objects[rid], s)]) else w
  }

  predicate Registered(w: World, rid: Rid) {
    rid.path in w.registry && w.registry[rid.path] == rid
  }

  // ---------------------------------------------------------------- invariant

  ghost predicate ObjectsSafe(w: World) {
    forall rid <- w.objects ::
      && Safe(w.objects[rid]) && Budgeted(w.objects[rid])
      && w.objects[rid].config.path == rid.path && rid.generation < w.generation
  }

  ghost predicate RegistrySafe(w: World) {
    && (forall p <- w.registry :: w.registry[p].path == p && w.registry[p] in w.objects)
    && (forall rid <- w.objects :: !Registered(w, rid) ==> w.objects[rid].drain == Done)
  }

  ghost predicate PortsApart(w: World)
    requires RegistrySafe(w)
  {
    forall p, q :: p in w.registry && q in w.registry && p != q ==>
      var e, f := w.objects[w.registry[p]].config, w.objects[w.registry[q]].config;
      e.mode.Managed? && f.mode.Managed? ==> Port(e).Some? && Port(e) != Port(f)
  }

  /** The runtimes a reload drains are exactly the ones the pending snapshot cannot keep. */
  ghost predicate PendingSafe(w: World)
    requires RegistrySafe(w)
  {
    && (w.pending.Some? ==> ValidConfig(w.pending.value))
    && forall p <- w.registry ::
      w.objects[w.registry[p]].drain != NotDrained <==> w.pending.Some? && !KeepsPath(w, w.pending.value, p)
  }

  ghost predicate WorldSafe(w: World) {
    ObjectsSafe(w) && RegistrySafe(w) && PortsApart(w) && PendingSafe(w)
  }

  lemma InitiallySafe()
    ensures WorldSafe(EmptyWorld)
  {
  }

  /** Replacing one runtime value by another with the same configuration and drain status. */
  ghost predicate Replaceable(r: Runtime, r': Runtime) {
    && r'.config == r.config
    && (r'.drain == NotDrained <==> r.drain == NotDrained)
    && (r.drain == Done ==> r'.drain == Done)
  }

  lemma ReplaceKeepsSafe(w: World, rid: Rid, r: Runtime)
    requires WorldSafe(w) && rid in w.objects && Safe(r) && Budgeted(r) && Replaceable(w.objects[rid], r)
    ensures WorldSafe(w.(objects := w.objects[rid := r]))
  {
    ObjectsStay(w, rid, r);
    RegistryStays(w, rid, r);
    PortsStay(w, rid, r);
    PendingStays(w, rid, r);
  }

  lemma ObjectsStay(w: World, rid: Rid, r: Runtime)
    requires ObjectsSafe(w) && rid in w.objects && Safe(r) && Budgeted(r) && r.config == w.objects[rid].config
    ensures ObjectsSafe(w.(objects := w.objects[rid := r]))
  {
  }

  lemma RegistryStays(w: World, rid: Rid, r: Runtime)
    requires RegistrySafe(w) && rid in w.objects && Replaceable(w.objects[rid], r)
    ensures RegistrySafe(w.(objects := w.objects[rid := r]))
  {
    var w' := w.(objects := w.objects[rid := r]);
    assert forall x :: Registered(w', x) <==> Registered(w, x);
  }

  lemma PortsStay(w: World, rid: Rid, r: Runtime)
    requires RegistrySafe(w) && PortsApart(w) && rid in w.objects && Replaceable(w.objects[rid], r)
    requires RegistrySafe(w.(objects := w.objects[rid := r]))
    ensures PortsApart(w.(objects := w.objects[rid := r]))
  {
    var w' := w.(objects := w.objects[rid := r]);
    assert forall p <- w.registry :: w'.objects[w.registry[p]].config == w.objects[w.registry[p]].config;
  }

  lemma PendingStays(w: World, rid: Rid, r: Runtime)
    requires RegistrySafe(w) && PendingSafe(w) && rid in w.objects && Replaceable(w.objects[rid], r)
    requires RegistrySafe(w.(objects := w.objects[rid := r]))
    ensures PendingSafe(w.(objects := w.objects[rid := r]))
  {
    var w' := w.(objects := w.objects[rid := r]);
    forall p | p in w.registry
      ensures w'.objects[w.registry[p]].drain != NotDrained <==> w.objects[w.registry[p]].drain != NotDrained
      ensures w.pending.Some? ==> (KeepsPath(w', w.pending.value, p) <==> KeepsPath(w, w.pending.value, p))
    {
    }
  }

  lemma AtKeepsSafe(w: World, rid: Rid, s: Step)
    requires WorldSafe(w) && (rid in w.objects ==> Admitted(w.objects[rid], s))
    ensures WorldSafe(At(w, rid, s))
  {
    if rid in w.objects {
      var r := w.objects[rid];
      StepIsHarmless(r, s);
      ReplaceKeepsSafe(w, rid, Apply(r, s));
    }
  }

  lemma StepIsHarmless(r: Runtime, s: Step)
    requires Safe(r) && Budgeted(r) && Admitted(r, s)
    ensures Safe(Apply(r, s)) && Budgeted(Apply(r, s)) && Apply(r, s).config == r.config
    ensures Apply(r, s).drain == NotDrained <==> r.drain == NotDrained
    ensures r.drain == Done ==> Apply(r, s).drain == Done
  {
    StepKeepsSafe(r, s);
    StepKeepsBudget(r, s);
    StepKeepsTerms(r, s);
    StepKeepsDrain(r, s);
    if r.drain == Done {
      MarkedStepFrozen(r, s);
    }
  }

  // ------------------------------------------------------- begin and publish

  /** The reload takes its lock: every runtime that cannot be kept is to be drained. */
  function BeginReload(w: World, c: Config): World {
    if w.pending.Some? then w
    else w.(pending := Some(c),
            objects := map rid | rid in w.objects ::
              if Registered(w, rid) && !KeepsPath(w, c, rid.path) then w.objects[rid].(drain := Requested)
              else w.objects[rid])
  }

  predicate ReadyToPublish(w: World) {
    && w.pending.Some?
    && forall p <- w.registry :: !KeepsPath(w, w.pending.value, p) ==>
      w.registry[p] in w.objects && w.objects[w.registry[p]].drain == Done
  }

  /** A kept runtime takes its new configuration in place; a failed one may now be restarted. */
  function Reconfigure(r: Runtime, e: Endpoint): Runtime {
    ScheduleRestart(r.(config := e))
  }

  function NextRegistry(w: World, c: Config): (registry: map<string, Rid>)
    ensures registry.Keys == c.Keys
  {
    map p | p in c :: if KeepsPath(w, c, p) then w.registry[p] else Rid(p, w.generation)
  }

  function FreshRids(w: World, c: Config): set<Rid> {
    set p | p in c && !KeepsPath(w, c, p) :: Rid(p, w.generation)
  }

  function NextObject(w: World, c: Config, rid: Rid): Runtime
    requires rid in w.objects || rid.path in c
  {
    if rid !in w.objects then FromConfig(c[rid.path])
    else if Registered(w, rid) && KeepsPath(w, c, rid.path) then Reconfigure(w.objects[rid], c[rid.path])
    else w.objects[rid]
  }

  /** The publication block: no await, so requests see the old snapshot or the new one. */
  function Publish(w: World): World {
    if !ReadyToPublish(w) then w
    else
      var c := w.pending.value;
      World(map rid | rid in w.objects.Keys + FreshRids(w, c) :: NextObject(w, c, rid),
            NextRegistry(w, c), None, w.generation + 1)
  }

  lemma RequestKeeps(r: Runtime)
    requires Safe(r) && Budgeted(r) && r.drain == NotDrained
    ensures Safe(r.(drain := Requested)) && Budgeted(r.(drain := Requested))
  {
  }

  lemma BeginKeepsSafe(w: World, c: Config)
    requires WorldSafe(w) && ValidConfig(c)
    ensures WorldSafe(BeginReload(w, c))
  {
    if w.pending.None? {
      BeginObjects(w, c);
      BeginRegistry(w, c);
      BeginPorts(w, c);
      BeginPending(w, c);
    }
  }

  lemma BeginRegistry(w: World, c: Config)
    requires RegistrySafe(w) && PendingSafe(w) && w.pending.None?
    ensures RegistrySafe(BeginReload(w, c))
  {
    var w' := BeginReload(w, c);
    assert forall x :: Registered(w', x) <==> Registered(w, x);
  }

  lemma BeginPorts(w: World, c: Config)
    requires RegistrySafe(w) && PortsApart(w) && w.pending.None? && RegistrySafe(BeginReload(w, c))
    ensures PortsApart(BeginReload(w, c))
  {
    var w' := BeginReload(w, c);
    assert forall p <- w.registry :: w'.objects[w.registry[p]].config == w.objects[w.registry[p]].config;
  }

  lemma BeginObjects(w: World, c: Config)
    requires WorldSafe(w) && w.pending.None?
    ensures ObjectsSafe(BeginReload(w, c))
  {
    forall rid | rid in w.objects && Registered(w, rid) && !KeepsPath(w, c, rid.path)
      ensures Safe(w.objects[rid].(drain := Requested)) && Budgeted(w.objects[rid].(drain := Requested))
    {
      RequestKeeps(w.objects[rid]);
    }
  }

  lemma BeginPending(w: World, c: Config)
    requires RegistrySafe(w) && PendingSafe(w) && w.pending.None? && ValidConfig(c)
    requires RegistrySafe(BeginReload(w, c))
    ensures PendingSafe(BeginReload(w, c))
  {
    var w' := BeginReload(w, c);
    forall p | p in w'.registry
      ensures w'.objects[w'.registry[p]].drain != NotDrained <==> !KeepsPath(w', c, p)
    {
      assert Registered(w, w.registry[p]);
      assert KeepsPath(w', c, p) <==> KeepsPath(w, c, p);
    }
  }

  lemma ReconfigureKeeps(r: Runtime, e: Endpoint)
    requires Safe(r) && Budgeted(r) && !RequiresReset(r.config, e)
    ensures Safe(Reconfigure(r, e)) && Budgeted(Reconfigure(r, e)) && Reconfigure(r, e).config == e
    ensures Reconfigure(r, e).drain == r.drain
  {
    var s := r.(config := e);
    assert Safe(s) && Budgeted(s);
    ScheduleKeeps(s);
    ScheduleKeepsDrained(s);
    ScheduleKeepsTerms(s);
    ScheduleKeepsBudget(s);
  }

  lemma FreshIsBudgeted(e: Endpoint)
    ensures Safe(FromConfig(e)) && Budgeted(FromConfig(e)) && FromConfig(e).config == e
  {
  }

  /** What publication does: the registry holds exactly the new paths; a kept runtime is the same
      object with its new configuration, any other path gets a fresh runtime, and every runtime
      that left the registry is retired. */
  lemma PublishMeans(w: World)
    requires WorldSafe(w) && ReadyToPublish(w)
    ensures var c, w' := w.pending.value, Publish(w);
      && w'.registry.Keys == c.Keys
      && (forall p <- c :: w'.registry[p] in w'.objects && w'.objects[w'.registry[p]].config == c[p])
      && (forall p <- c :: if KeepsPath(w, c, p)
            then w'.registry[p] == w.registry[p]
                 && w'.objects[w'.registry[p]] == Reconfigure(w.objects[w.registry[p]], c[p])
            else w'.registry[p] !in w.objects && w'.objects[w'.registry[p]] == FromConfig(c[p]))
      && (forall rid <- w.objects :: rid in w'.objects && (!Registered(w', rid) ==>
            w'.objects[rid] == w.objects[rid] && w'.objects[rid].drain == Done && Retired(w'.objects[rid])))
  {
    var c, w' := w.pending.value, Publish(w);
    forall p | p in c
      ensures w'.registry[p] in w'.objects && w'.objects[w'.registry[p]].config == c[p]
    {
      PublishedPath(w, p);
    }
    forall rid | rid in w.objects && !Registered(w', rid)
      ensures w'.objects[rid] == w.objects[rid] && w'.objects[rid].drain == Done && Retired(w'.objects[rid])
    {
      LeftBehind(w, rid);
    }
    forall p | p in c && !KeepsPath(w, c, p) ensures w'.registry[p] !in w.objects {
      assert w'.registry[p] == Rid(p, w.generation);
    }
  }

  lemma PublishedPath(w: World, p: string)
    requires WorldSafe(w) && ReadyToPublish(w) && p in w.pending.value
    ensures var c, w' := w.pending.value, Publish(w);
      && w'.registry[p] in w'.objects && w'.objects[w'.registry[p]].config == c[p]
      && w'.objects[w'.registry[p]] ==
         (if KeepsPath(w, c, p) then Reconfigure(w.objects[w.registry[p]], c[p]) else FromConfig(c[p]))
  {
    var c, w' := w.pending.value, Publish(w);
    var rid := w'.registry[p];
    if KeepsPath(w, c, p) {
      ReconfigureKeeps(w.objects[rid], c[p]);
    } else {
      assert rid !in w.objects;
    }
  }

  lemma LeftBehind(w: World, rid: Rid)
    requires WorldSafe(w) && ReadyToPublish(w) && rid in w.objects && !Registered(Publish(w), rid)
    ensures Publish(w).objects[rid] == w.objects[rid] && w.objects[rid].drain == Done && Retired(w.objects[rid])
  {
    var c := w.pending.value;
    assert !(Registered(w, rid) && KeepsPath(w, c, rid.path));
    DoneIsRetired(w.objects[rid]);
  }

  lemma PublishedObject(w: World, rid: Rid)
    requires WorldSafe(w) && ReadyToPublish(w) && rid in Publish(w).objects
    ensures var r := Publish(w).objects[rid];
      && Safe(r) && Budgeted(r) && r.config.path == rid.path && rid.generation <= w.generation
      && (Registered(Publish(w), rid) ==> r.drain == NotDrained)
  {
    var c := w.pending.value;
    if rid !in w.objects {
      assert rid in FreshRids(w, c);
      FreshIsBudgeted(c[rid.path]);
    } else if Registered(w, rid) && KeepsPath(w, c, rid.path) {
      ReconfigureKeeps(w.objects[rid], c[rid.path]);
    } else {
      assert Registered(Publish(w), rid) ==> NextRegistry(w, c)[rid.path] == Rid(rid.path, w.generation);
    }
  }

  lemma PublishKeepsSafe(w: World)
    requires WorldSafe(w)
    ensures WorldSafe(Publish(w))
  {
    if ReadyToPublish(w) {
      var w' := Publish(w);
      PublishMeans(w);
      assert ObjectsSafe(w') by {
        forall rid | rid in w'.objects
          ensures Safe(w'.objects[rid]) && Budgeted(w'.objects[rid])
          ensures w'.objects[rid].config.path == rid.path && rid.generation < w'.generation
        {
          PublishedObject(w, rid);
        }
      }
      assert RegistrySafe(w') by {
        forall rid | rid in w'.objects && !Registered(w', rid) ensures w'.objects[rid].drain == Done {
          assert rid in w.objects;
        }
      }
      assert PortsApart(w');
      assert PendingSafe(w') by {
        forall p | p in w'.registry ensures w'.objects[w'.registry[p]].drain == NotDrained {
          PublishedObject(w, w'.registry[p]);
        }
      }
    }
  }

  // ----------------------------------------------------------------- all runs

  datatype WorldStep = OnRuntime(rid: Rid, step: Step) | StartReload(config: Config) | PublishSnapshot

  function ApplyWorld(w: World, s: WorldStep): World {
    match s
    case OnRuntime(rid, t) => At(w, rid, t)
    case StartReload(c) => BeginReload(w, c)
    case PublishSnapshot => Publish(w)
  }

  ghost predicate AdmittedWorld(w: World, s: WorldStep) {
    match s
    case OnRuntime(rid, t) => rid in w.objects ==> Admitted(w.objects[rid], t)
    case StartReload(c) => ValidConfig(c)
    case PublishSnapshot => true
  }

  lemma WorldStepKeepsSafe(w: World, s: WorldStep)
    requires WorldSafe(w) && AdmittedWorld(w, s)
    ensures WorldSafe(ApplyWorld(w, s))
  {
    match s
    case OnRuntime(rid, t) => AtKeepsSafe(w, rid, t);
    case StartReload(c) => BeginKeepsSafe(w, c);
    case PublishSnapshot => PublishKeepsSafe(w);
  }

  /** The steps lead from `w` to `w'`, each one admitted where it is taken. */
  ghost predicate Reaches(w: World, steps: seq<WorldStep>, w': World)
    decreases |steps|
  {
    if steps == [] then w == w'
    else AdmittedWorld(w, steps[0]) && Reaches(ApplyWorld(w, steps[0]), steps[1..], w')
  }

  const EmptyWorld := World(map[], map[], None, 0)

  lemma {:induction false} ReachedIsSafe(w: World, steps: seq<WorldStep>, w': World)
    requires WorldSafe(w) && Reaches(w, steps, w')
    ensures WorldSafe(w')
    decreases |steps|
  {
    if steps != [] {
      WorldStepKeepsSafe(w, steps[0]);
      ReachedIsSafe(ApplyWorld(w, steps[0]), steps[1..], w');
    }
  }

  ghost predicate LivePort(w: World, rid: Rid, pid: nat, port: Option<nat>) {
    rid in w.objects && pid in w.objects[rid].alive && w.objects[rid].alive[pid].readiness.port == port
  }

  /** Across every run of requests, crashes, restarts, idle stops and reloads, two live processes
      never share a readiness port. */
  lemma LiveProcessesOnOwnPorts(steps: seq<WorldStep>, w: World, a: Rid, p: nat, b: Rid, q: nat, port: Option<nat>)
    requires Reaches(EmptyWorld, steps, w)
    requires LivePort(w, a, p, port) && LivePort(w, b, q, port)
    ensures a == b && p == q
  {
    ReachedIsSafe(EmptyWorld, steps, w);
    LiveIsRegistered(w, a, p);
    LiveIsRegistered(w, b, q);
  }

  lemma LiveIsRegistered(w: World, rid: Rid, pid: nat)
    requires WorldSafe(w) && rid in w.objects && pid in w.objects[rid].alive
    ensures Registered(w, rid) && w.objects[rid].process == Some(pid)
    ensures w.objects[rid].config.mode.Managed? && w.objects[rid].alive[pid] == w.objects[rid].config.mode.launch
  {
    assert Safe(w.objects[rid]);
  }

  /** A runtime that has left the registry. */
  ghost predicate Out(w: World, rid: Rid) {
    && rid in w.objects && !Registered(w, rid) && rid.generation < w.generation
    && Safe(w.objects[rid]) && w.objects[rid].drain == Done
  }

  lemma UnregisteredIsOut(w: World, rid: Rid)
    requires WorldSafe(w) && rid in w.objects && !Registered(w, rid)
    ensures Out(w, rid)
  {
  }

  /** It never comes back and stays retired: no lease, no process, no session, whatever request
      still holds a handle on it. */
  lemma {:induction false} RetiredForever(w: World, steps: seq<WorldStep>, w': World, rid: Rid)
    requires Out(w, rid) && Reaches(w, steps, w')
    ensures Out(w', rid) && Retired(w'.objects[rid]) && Frozen(w.objects[rid], w'.objects[rid])
    decreases |steps|
  {
    DoneIsRetired(w.objects[rid]);
    if steps != [] {
      StaysOut(w, steps[0], rid);
      RetiredForever(ApplyWorld(w, steps[0]), steps[1..], w', rid);
    }
  }

  ghost predicate StillOut(w: World, w': World, rid: Rid)
    requires rid in w.objects
  {
    Out(w', rid) && Frozen(w.objects[rid], w'.objects[rid])
  }

  lemma StaysOut(w: World, s: WorldStep, rid: Rid)
    requires Out(w, rid) && AdmittedWorld(w, s)
    ensures StillOut(w, ApplyWorld(w, s), rid)
  {
    match s
    case OnRuntime(x, t) => StaysOutAt(w, x, t, rid);
    case StartReload(c) => StaysOutBegin(w, c, rid);
    case PublishSnapshot => StaysOutPublish(w, rid);
  }

  lemma StaysOutAt(w: World, x: Rid, t: Step, rid: Rid)
    requires Out(w, rid) && (x in w.objects ==> Admitted(w.objects[x], t))
    ensures StillOut(w, At(w, x, t), rid)
  {
    if x == rid {
      StepKeepsSafe(w.objects[rid], t);
      MarkedStepFrozen(w.objects[rid], t);
    }
  }

  lemma StaysOutBegin(w: World, c: Config, rid: Rid)
    requires Out(w, rid)
    ensures StillOut(w, BeginReload(w, c), rid)
  {
  }

  lemma StaysOutPublish(w: World, rid: Rid)
    requires Out(w, rid)
    ensures StillOut(w, Publish(w), rid)
  {
    if ReadyToPublish(w) {
      var c := w.pending.value;
      assert rid.path in c && !KeepsPath(w, c, rid.path) ==>
        NextRegistry(w, c)[rid.path] == Rid(rid.path, w.generation);
    }
  }

  // ------------------------------------------------- every run, nothing excluded

  function RunWorld(w: World, steps: seq<WorldStep>): World
    decreases |steps|
  {
    if steps == [] then w else RunWorld(ApplyWorld(w, steps[0]), steps[1..])
  }

  ghost predicate AccountedWorld(w: World) {
    forall rid <- w.objects :: Accounted(w.objects[rid])
  }

  lemma ReconfigureKeepsAccounts(r: Runtime, e: Endpoint)
    requires Accounted(r)
    ensures Accounted(Reconfigure(r, e))
  {
  }

  lemma PublishKeepsAccounts(w: World)
    requires AccountedWorld(w)
    ensures AccountedWorld(Publish(w))
  {
    if ReadyToPublish(w) {
      var c := w.pending.value;
      forall rid | rid in Publish(w).objects ensures Accounted(NextObject(w, c, rid)) {
        if rid in w.objects && rid.path in c {
          ReconfigureKeepsAccounts(w.objects[rid], c[rid.path]);
        }
      }
    }
  }

  lemma WorldStepKeepsAccounts(w: World, s: WorldStep)
    requires AccountedWorld(w)
    ensures AccountedWorld(ApplyWorld(w, s))
  {
    match s
    case OnRuntime(rid, t) => if rid in w.objects { StepKeepsAccounts(w.objects[rid], t); }
    case StartReload(c) => BeginKeepsAccounts(w, c);
    case PublishSnapshot => PublishKeepsAccounts(w);
  }

  lemma BeginKeepsAccounts(w: World, c: Config)
    requires AccountedWorld(w)
    ensures AccountedWorld(BeginReload(w, c))
  {
    var w' := BeginReload(w, c);
    forall rid | rid in w'.objects ensures Accounted(w'.objects[rid]) {
      RequestKeepsAccounts(w.objects[rid]);
    }
  }

  lemma RequestKeepsAccounts(r: Runtime)
    requires Accounted(r)
    ensures Accounted(r.(drain := Requested))
  {
  }

  lemma {:induction false} RunKeepsAccounts(w: World, steps: seq<WorldStep>)
    requires AccountedWorld(w)
    ensures AccountedWorld(RunWorld(w, steps))
    decreases |steps|
  {
    if steps != [] {
      WorldStepKeepsAccounts(w, steps[0]);
      RunKeepsAccounts(ApplyWorld(w, steps[0]), steps[1..]);
    }
  }

  /** In every run whatsoever, abandoned starts and lost marks included, `active_leases` of every runtime
      object ever made is the number of its leases that are still out, and it has one restart task at most. */
  lemma LeasesCountedAlways(steps: seq<WorldStep>, rid: Rid)
    requires rid in RunWorld(EmptyWorld, steps).objects
    ensures var r := RunWorld(EmptyWorld, steps).objects[rid];
      r.activeLeases == Unreleased(r.leases) && |r.loops| <= 1
  {
    RunKeepsAccounts(EmptyWorld, steps);
    var r := RunWorld(EmptyWorld, steps).objects[rid];
    assert Accounted(r);
    AtMostOne(r.loops, r.restartTask);
  }

  /** Every configuration the run may publish keeps the restart policy of the path within `cap`. */
  ghost predicate CappedConfig(c: Config, path: string, cap: nat) {
    path in c && c[path].mode.Managed? ==> c[path].mode.restart.maxAttempts <= cap
  }

  ghost predicate CappedStep(s: WorldStep, path: string, cap: nat) {
    s.StartReload? ==> CappedConfig(s.config, path, cap)
  }

  ghost predicate CappedWorld(w: World, path: string, cap: nat) {
    && (forall rid <- w.objects :: rid.path == path ==> WithinCap(w.objects[rid], cap))
    && (w.pending.Some? ==> CappedConfig(w.pending.value, path, cap))
  }

  lemma ReconfigureKeepsCap(r: Runtime, e: Endpoint, cap: nat)
    requires WithinCap(r, cap) && (e.mode.Managed? ==> e.mode.restart.maxAttempts <= cap)
    ensures WithinCap(Reconfigure(r, e), cap)
  {
  }

  lemma PublishKeepsCap(w: World, path: string, cap: nat)
    requires CappedWorld(w, path, cap)
    ensures CappedWorld(Publish(w), path, cap)
  {
    if ReadyToPublish(w) {
      var c, w' := w.pending.value, Publish(w);
      forall rid | rid in w'.objects && rid.path == path ensures WithinCap(w'.objects[rid], cap) {
        if rid in w.objects && Registered(w, rid) && KeepsPath(w, c, rid.path) {
          ReconfigureKeepsCap(w.objects[rid], c[rid.path], cap);
        }
      }
    }
  }

  lemma BeginKeepsCap(w: World, c: Config, path: string, cap: nat)
    requires CappedWorld(w, path, cap) && CappedConfig(c, path, cap)
    ensures CappedWorld(BeginReload(w, c), path, cap)
  {
  }

  lemma WorldStepKeepsCap(w: World, s: WorldStep, path: string, cap: nat)
    requires AccountedWorld(w) && CappedWorld(w, path, cap) && CappedStep(s, path, cap)
    ensures CappedWorld(ApplyWorld(w, s), path, cap)
  {
    match s
    case OnRuntime(rid, t) =>
      if rid in w.objects && rid.path == path {
        StepKeepsCap(w.objects[rid], t, cap);
      }
    case StartReload(c) => BeginKeepsCap(w, c, path, cap);
    case PublishSnapshot => PublishKeepsCap(w, path, cap);
  }

  lemma {:induction false} RunKeepsCap(w: World, steps: seq<WorldStep>, path: string, cap: nat)
    requires AccountedWorld(w) && CappedWorld(w, path, cap)
    requires forall s <- steps :: CappedStep(s, path, cap)
    ensures CappedWorld(RunWorld(w, steps), path, cap)
    decreases |steps|
  {
    if steps != [] {
      assert steps[0] in steps;
      WorldStepKeepsCap(w, steps[0], path, cap);
      WorldStepKeepsAccounts(w, steps[0]);
      RunKeepsCap(ApplyWorld(w, steps[0]), steps[1..], path, cap);
    }
  }

  /** Supervisor budget: in every run whatsoever in which no published policy of a path allows more than
      `cap` attempts, at most `cap` supervisor starts lie between two demand starts, with increasing
      attempt numbers, on every runtime the path ever had. */
  lemma SupervisorBudget(steps: seq<WorldStep>, rid: Rid, cap: nat)
    requires rid in RunWorld(EmptyWorld, steps).objects
    requires forall s <- steps :: CappedStep(s, rid.path, cap)
    ensures var r := RunWorld(EmptyWorld, steps).objects[rid];
      Increasing(r.starts) && |r.starts| <= r.restartAttempts <= cap
  {
    RunKeepsAccounts(EmptyWorld, steps);
    RunKeepsCap(EmptyWorld, steps, rid.path, cap);
    assert Accounted(RunWorld(EmptyWorld, steps).objects[rid]);
    StartsBounded(RunWorld(EmptyWorld, steps).objects[rid], cap);
  }

  // ------------------------------------------------ every run without abandoned starts

  predicate AbandonsStart(w: World, s: WorldStep) {
    s.OnRuntime? && s.rid in w.objects && Abandons(w.objects[s.rid], s.step)
  }

  ghost predicate NoneAbandoned(w: World, steps: seq<WorldStep>)
    decreases |steps|
  {
    steps == [] || (!AbandonsStart(w, steps[0]) && NoneAbandoned(ApplyWorld(w, steps[0]), steps[1..]))
  }

  /** Runtimes are sound, new ones are new, and only a reload that replaces a runtime drains it. */
  ghost predicate SoundWorld(w: World) {
    ObjectsSound(w) && RegistryFiled(w) && OnlyReplacedDrain(w)
  }

  ghost predicate ObjectsSound(w: World) {
    forall rid <- w.objects :: Sound(w.objects[rid]) && rid.generation < w.generation
  }

  ghost predicate RegistryFiled(w: World) {
    forall p <- w.registry :: w.registry[p].path == p && w.registry[p] in w.objects
  }

  ghost predicate DrainJustified(w: World, p: string)
    requires p in w.registry && w.registry[p] in w.objects
  {
    w.objects[w.registry[p]].drain == NotDrained || (w.pending.Some? && !KeepsPath(w, w.pending.value, p))
  }

  ghost predicate OnlyReplacedDrain(w: World) {
    forall p <- w.registry :: w.registry[p] in w.objects ==> DrainJustified(w, p)
  }

  lemma AtKeepsSound(w: World, rid: Rid, s: Step)
    requires SoundWorld(w) && (rid in w.objects ==> !Abandons(w.objects[rid], s))
    ensures SoundWorld(At(w, rid, s))
  {
    if rid in w.objects {
      StepKeepsSound(w.objects[rid], s);
      StepKeepsTerms(w.objects[rid], s);
      StepKeepsDrain(w.objects[rid], s);
      ReplaceKeepsSound(w, rid, Apply(w.objects[rid], s));
    }
  }

  lemma ReplaceKeepsSound(w: World, rid: Rid, r: Runtime)
    requires SoundWorld(w) && rid in w.objects && Sound(r) && r.config == w.objects[rid].config
    requires r.drain == NotDrained <==> w.objects[rid].drain == NotDrained
    ensures SoundWorld(w.(objects := w.objects[rid := r]))
  {
    var w' := w.(objects := w.objects[rid := r]);
    forall p | p in w.registry ensures DrainJustified(w', p) {
      assert DrainJustified(w, p);
      assert w.pending.Some? ==> (KeepsPath(w', w.pending.value, p) <==> KeepsPath(w, w.pending.value, p));
    }
  }

  lemma RequestKeepsSound(r: Runtime)
    requires Sound(r) && r.drain == NotDrained
    ensures Sound(r.(drain := Requested))
  {
  }

  lemma BeginKeepsSound(w: World, c: Config)
    requires SoundWorld(w)
    ensures SoundWorld(BeginReload(w, c))
  {
    if w.pending.None? {
      BeginKeepsObjects(w, c);
      BeginJustifies(w, c);
    }
  }

  lemma BeginKeepsObjects(w: World, c: Config)
    requires ObjectsSound(w) && OnlyReplacedDrain(w) && w.pending.None?
    ensures ObjectsSound(BeginReload(w, c))
  {
    forall rid | rid in w.objects ensures Sound(BeginReload(w, c).objects[rid]) {
      if Registered(w, rid) && !KeepsPath(w, c, rid.path) {
        assert DrainJustified(w, rid.path);
        RequestKeepsSound(w.objects[rid]);
      }
    }
  }

  lemma BeginJustifies(w: World, c: Config)
    requires RegistryFiled(w) && OnlyReplacedDrain(w) && w.pending.None?
    ensures OnlyReplacedDrain(BeginReload(w, c))
  {
    var w' := BeginReload(w, c);
    forall p | p in w'.registry ensures DrainJustified(w', p) {
      assert DrainJustified(w, p);
      assert KeepsPath(w', c, p) <==> KeepsPath(w, c, p);
    }
  }

  lemma ReconfigureKeepsSound(r: Runtime, e: Endpoint)
    requires Sound(r) && r.drain == NotDrained && !RequiresReset(r.config, e)
    ensures Sound(Reconfigure(r, e)) && Reconfigure(r, e).drain == NotDrained
  {
    assert Sound(r.(config := e));
    ScheduleKeeps(r.(config := e));
    ScheduleKeepsTerms(r.(config := e));
  }

  lemma PublishedIsSound(w: World, rid: Rid)
    requires SoundWorld(w) && ReadyToPublish(w) && rid in Publish(w).objects
    ensures Sound(Publish(w).objects[rid]) && rid.generation < Publish(w).generation
    ensures Registered(Publish(w), rid) ==> Publish(w).objects[rid].drain == NotDrained
  {
    var c := w.pending.value;
    if rid in w.objects && Registered(w, rid) && KeepsPath(w, c, rid.path) {
      ReconfigureKeepsSound(w.objects[rid], c[rid.path]);
    } else if rid in w.objects {
      assert Registered(Publish(w), rid) ==> NextRegistry(w, c)[rid.path] == Rid(rid.path, w.generation);
    }
  }

  lemma PublishKeepsSound(w: World)
    requires SoundWorld(w)
    ensures SoundWorld(Publish(w))
  {
    if ReadyToPublish(w) {
      var w' := Publish(w);
      forall rid | rid in w'.objects
        ensures Sound(w'.objects[rid]) && rid.generation < w'.generation
        ensures Registered(w', rid) ==> w'.objects[rid].drain == NotDrained
      {
        PublishedIsSound(w, rid);
      }
      forall p | p in w'.registry ensures w'.registry[p].path == p && w'.registry[p] in w'.objects {
        assert KeepsPath(w, w.pending.value, p) || Rid(p, w.generation) in FreshRids(w, w.pending.value);
      }
    }
  }

  lemma WorldStepKeepsSound(w: World, s: WorldStep)
    requires SoundWorld(w) && !AbandonsStart(w, s)
    ensures SoundWorld(ApplyWorld(w, s))
  {
    match s
    case OnRuntime(rid, t) => AtKeepsSound(w, rid, t);
    case StartReload(c) => BeginKeepsSound(w, c);
    case PublishSnapshot => PublishKeepsSound(w);
  }

  lemma {:induction false} RunKeepsSoundWorld(w: World, steps: seq<WorldStep>)
    requires SoundWorld(w) && NoneAbandoned(w, steps)
    ensures SoundWorld(RunWorld(w, steps))
    decreases |steps|
  {
    if steps != [] {
      WorldStepKeepsSound(w, steps[0]);
      RunKeepsSoundWorld(ApplyWorld(w, steps[0]), steps[1..]);
    }
  }

  /** In every run without an abandoned start, lost marks included, and for every runtime object ever
      made: the supervisor's promise holds. */
  lemma SupervisorSafety(steps: seq<WorldStep>, rid: Rid)
    requires NoneAbandoned(EmptyWorld, steps) && rid in RunWorld(EmptyWorld, steps).objects
    ensures SupervisorOk(RunWorld(EmptyWorld, steps).objects[rid])
  {
    RunKeepsSoundWorld(EmptyWorld, steps);
    SoundMeansOk(RunWorld(EmptyWorld, steps).objects[rid]);
  }

  ghost predicate AllOk(w: World) {
    forall rid <- w.objects :: SupervisorOk(w.objects[rid])
  }

  /** The supervisor's promise holds of every runtime at every moment of the run. */
  ghost predicate AlwaysOk(w: World, steps: seq<WorldStep>)
    decreases |steps|
  {
    AllOk(w) && (steps == [] || AlwaysOk(ApplyWorld(w, steps[0]), steps[1..]))
  }

  lemma SoundIsOk(w: World)
    requires SoundWorld(w)
    ensures AllOk(w)
  {
    forall rid | rid in w.objects ensures SupervisorOk(w.objects[rid]) {
      SoundMeansOk(w.objects[rid]);
    }
  }

  /** And it holds at every moment of a run only if no start is abandoned. */
  lemma {:induction false} AlwaysOkIff(w: World, steps: seq<WorldStep>)
    requires SoundWorld(w)
    ensures AlwaysOk(w, steps) <==> NoneAbandoned(w, steps)
    decreases |steps|
  {
    SoundIsOk(w);
    if steps != [] {
      if AbandonsStart(w, steps[0]) {
        var rid := steps[0].rid;
        SupervisorStepIff(w.objects[rid], steps[0].step);
        assert !SupervisorOk(ApplyWorld(w, steps[0]).objects[rid]);
      } else {
        WorldStepKeepsSound(w, steps[0]);
        AlwaysOkIff(ApplyWorld(w, steps[0]), steps[1..]);
      }
    }
  }

  /** The exact condition, for all runs: the supervisor's promise holds of every runtime at every moment
      if and only if no start is abandoned. */
  lemma SupervisorSafetyIff(steps: seq<WorldStep>)
    ensures AlwaysOk(EmptyWorld, steps) <==> NoneAbandoned(EmptyWorld, steps)
  {
    AlwaysOkIff(EmptyWorld, steps);
  }

  // ------------------------------------------------- what runs is what is configured

  /** A runtime object keeps all of its configuration that its process or its sessions depend on. */
  lemma {:induction false} ServiceStays(w: World, steps: seq<WorldStep>, rid: Rid)
    requires rid in w.objects
    ensures rid in RunWorld(w, steps).objects
    ensures OnlyInPlace(w.objects[rid].config, RunWorld(w, steps).objects[rid].config)
    decreases |steps|
  {
    if steps != [] {
      StepKeepsService(w, steps[0], rid);
      ServiceStays(ApplyWorld(w, steps[0]), steps[1..], rid);
    }
  }

  lemma StepKeepsService(w: World, s: WorldStep, rid: Rid)
    requires rid in w.objects
    ensures rid in ApplyWorld(w, s).objects
    ensures OnlyInPlace(w.objects[rid].config, ApplyWorld(w, s).objects[rid].config)
  {
    match s
    case OnRuntime(x, t) => if x in w.objects { StepKeepsTerms(w.objects[x], t); }
    case StartReload(c) =>
    case PublishSnapshot => PublishKeepsService(w, rid);
  }

  lemma PublishKeepsService(w: World, rid: Rid)
    requires rid in w.objects
    ensures rid in Publish(w).objects
    ensures OnlyInPlace(w.objects[rid].config, Publish(w).objects[rid].config)
  {
    if ReadyToPublish(w) {
      var c := w.pending.value;
      if Registered(w, rid) && KeepsPath(w, c, rid.path) {
        RequiresResetIff(w.objects[rid].config, c[rid.path]);
        ScheduleKeepsTerms(w.objects[rid].(config := c[rid.path]));
      }
    }
  }

  /** In every run without an abandoned start: a live process is the recorded one of its runtime, and was
      launched with exactly the argv, env, cwd, readiness and shell command that are configured now. */
  lemma LiveProcessAsConfigured(steps: seq<WorldStep>, rid: Rid, pid: nat)
    requires NoneAbandoned(EmptyWorld, steps)
    requires rid in RunWorld(EmptyWorld, steps).objects && pid in RunWorld(EmptyWorld, steps).objects[rid].alive
    ensures var r := RunWorld(EmptyWorld, steps).objects[rid];
      r.process == Some(pid) && r.config.mode.Managed? && r.alive[pid] == r.config.mode.launch
  {
    RunKeepsSoundWorld(EmptyWorld, steps);
    assert Sound(RunWorld(EmptyWorld, steps).objects[rid]);
  }

  /** A reload drains a published runtime exactly when its path is gone or more of it changes than may be
      replaced in place. */
  lemma ReloadDrainsIff(w: World, c: Config, p: string)
    requires WorldSafe(w) && w.pending.None? && p in w.registry
    ensures var rid := w.registry[p];
      && rid in BeginReload(w, c).objects
      && (BeginReload(w, c).objects[rid].drain == NotDrained <==>
          p in c && OnlyInPlace(w.objects[rid].config, c[p]))
  {
    if p in c {
      RequiresResetIff(w.objects[w.registry[p]].config, c[p]);
    }
    assert Registered(w, w.registry[p]) && w.objects[w.registry[p]].drain == NotDrained;
  }

  /** The snapshot can be published exactly when every drain that it asked for is done; a runtime that was
      not drained stays the one under its path, any other path gets a new one. */
  lemma PublishesWhenDrained(w: World)
    requires WorldSafe(w) && w.pending.Some?
    ensures ReadyToPublish(w) <==>
      forall p <- w.registry :: w.objects[w.registry[p]].drain == NotDrained || w.objects[w.registry[p]].drain == Done
    ensures ReadyToPublish(w) ==> forall p <- w.pending.value ::
      Publish(w).registry[p] ==
        if p in w.registry && w.objects[w.registry[p]].drain == NotDrained then w.registry[p] else Rid(p, w.generation)
  {
    forall p | p in w.registry
      ensures KeepsPath(w, w.pending.value, p) <==> w.objects[w.registry[p]].drain == NotDrained
    {
    }
  }

  /** An empty gateway publishes its first snapshot at once. */
  lemma FirstSnapshot(c: Config)
    requires ValidConfig(c)
    ensures var w := RunWorld(EmptyWorld, [StartReload(c), PublishSnapshot]);
      w.registry.Keys == c.Keys && w.pending.None?
      && forall p <- c :: w.registry[p] in w.objects && w.objects[w.registry[p]] == FromConfig(c[p])
  {
    var steps := [StartReload(c), PublishSnapshot];
    var w := BeginReload(EmptyWorld, c);
    assert steps[1..] == [PublishSnapshot] && steps[1..][1..] == [];
    assert RunWorld(EmptyWorld, steps) == RunWorld(Publish(w), []);
    BeginKeepsSafe(EmptyWorld, c);
    PublishMeans(w);
  }
}
