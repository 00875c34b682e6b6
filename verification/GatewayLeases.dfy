/** The leases of the gateway over every run, with nothing excluded: whatever becomes of a runtime, a POST
    of the bridge holds its lease exactly while the runtime counts it. */
module GatewayLeases {
  import opened Common
  import opened Lifecycle
  import opened LifecycleSafety
  import opened Reload
  import opened Gateway
  import opened GatewaySafety
  import B = BridgeSession
  import G = LegacyBridge

  datatype RuntimeLease = RuntimeLease(rid: Rid, index: nat)

  /** Leases are acquired and released, and POSTs begun, by requests only. */
  predicate Outside(s: GatewayStep) {
    !s.BeginPost? && !(s.OnRuntime? && s.step.Serves?)
  }

  /** The bridge step gives the leases of a POST back. */
  predicate GivesLeasesBack(g: Gateway, s: GatewayStep) {
    && s.OnBridge? && Allowed(g, s.bridgeStep) && Moved(s.bridgeStep).Some?
    && var b, b' := g.bridge, G.Apply(g.bridge, s.bridgeStep);
       && s.bridgeStep.id in b.objects && s.bridgeStep.id in b'.objects
       && GivesBack(b.objects[s.bridgeStep.id], b'.objects[s.bridgeStep.id], Moved(s.bridgeStep).value)
  }

  function GivenBack(g: Gateway, s: GatewayStep): RuntimeLease
    requires GivesLeasesBack(g, s)
  {
    RuntimeLease(g.bridge.objects[s.bridgeStep.id].runtime, Moved(s.bridgeStep).value)
  }

  /** Sessions and POSTs belong to runtimes and leases, whatever state these are in. */
  ghost predicate LeasesLinked(g: Gateway) {
    && G.BridgeSafe(g.bridge) && PathsLinked(g.world, g.bridge)
    && PostsLinked(g.world, g.bridge) && NoneShared(g.bridge)
  }

  // ------------------------------------------------- the gateway without its requests

  /** Runtimes keep their leases, and new runtimes have none. */
  ghost predicate WorldStays(w: World, w': World) {
    && (forall rid <- w.objects :: rid in w'.objects && w'.objects[rid].leases == w.objects[rid].leases)
    && (forall rid <- w'.objects :: rid in w.objects || w'.objects[rid].leases == [])
  }

  lemma AtStays(w: World, rid: Rid, t: Step)
    requires !t.Serves?
    ensures WorldStays(w, At(w, rid, t))
  {
    if rid in w.objects {
      StepKeepsTerms(w.objects[rid], t);
    }
  }

  lemma PublishStays(w: World)
    ensures WorldStays(w, Publish(w))
  {
    if ReadyToPublish(w) {
      var c := w.pending.value;
      forall rid | rid in w.objects ensures Publish(w).objects[rid].leases == w.objects[rid].leases {
        if Registered(w, rid) && KeepsPath(w, c, rid.path) {
          ScheduleKeepsTerms(w.objects[rid].(config := c[rid.path]));
        }
      }
    }
  }

  lemma NothingStays(w: World)
    ensures WorldStays(w, w)
  {
  }

  lemma BeginStays(w: World, c: Config)
    ensures WorldStays(w, BeginReload(w, c))
  {
  }

  lemma QuietWorld(g: Gateway, s: GatewayStep)
    requires Outside(s) && !s.OnBridge?
    ensures WorldStays(g.world, ApplyGateway(g, s).world)
  {
    hide WorldStays;
    NothingStays(g.world);
    match s
    case OnRuntime(rid, t) => AtStays(g.world, rid, t);
    case StartReload(c) => BeginStays(g.world, c);
    case PublishSnapshot => PublishStays(g.world);
    case MarkDrain(rid) => AtStays(g.world, rid, Drains(DrainMark));
    case LegacyAwaited(rid) => AtStays(g.world, rid, Drains(LegacyDone));
    case DrainTerminated(rid) => AtStays(g.world, rid, Fails(Terminate));
    case DrainClosed(rid) => AtStays(g.world, rid, Drains(SessionsDone));
    case _ =>
  }

  lemma BridgeStepWorld(g: Gateway, s: GatewayStep)
    requires s.OnBridge?
    ensures ApplyGateway(g, s).world ==
      if GivesLeasesBack(g, s)
      then At(g.world, GivenBack(g, s).rid, Serves(Release(GivenBack(g, s).index))) else g.world
  {
  }

  /** No POST is added, and only the one given back loses its leases. */
  ghost predicate BridgeFollows(b: G.Bridge, b': G.Bridge, gone: Option<RuntimeLease>, at: nat) {
    && (forall s <- b.objects :: s in b'.objects && SessionFollows(b.objects[s], b'.objects[s], gone, s == at))
    && (forall s <- b'.objects :: s in b.objects || b'.objects[s].posts == map[])
  }

  ghost predicate SessionFollows(s: B.Session, s': B.Session, gone: Option<RuntimeLease>, here: bool) {
    && s'.runtime == s.runtime && s'.posts.Keys == s.posts.Keys
    && forall l <- s.posts ::
      s'.posts[l].leased <==> s.posts[l].leased && !(here && gone == Some(RuntimeLease(s.runtime, l)))
  }

  lemma MovedFollows(b: G.Bridge, b': G.Bridge, id: nat, moved: Option<nat>)
    requires BridgeMoves(b, b', id, moved)
    ensures BridgeFollows(b, b',
      if moved.Some? && GivesBack(b.objects[id], b'.objects[id], moved.value)
      then Some(RuntimeLease(b.objects[id].runtime, moved.value)) else None, id)
  {
  }

  function StepAt(s: GatewayStep): nat {
    if s.OnBridge? then s.bridgeStep.id else 0
  }

  lemma NothingFollows(b: G.Bridge, at: nat)
    ensures BridgeFollows(b, b, None, at)
  {
  }

  lemma BridgeStepFollows(g: Gateway, s: GatewayStep)
    requires G.BridgeSafe(g.bridge) && s.OnBridge?
    ensures BridgeFollows(g.bridge, ApplyGateway(g, s).bridge,
      if GivesLeasesBack(g, s) then Some(GivenBack(g, s)) else None, StepAt(s))
  {
    hide BridgeFollows, BridgeMoves, G.BridgeSafe;
    var b, t := g.bridge, s.bridgeStep;
    NothingFollows(b, t.id);
    if Allowed(g, t) {
      StepMoves(b, t);
      if t.id in b.objects {
        MovedFollows(b, G.Apply(b, t), t.id, Moved(t));
      }
    }
  }

  lemma CloseFollows(g: Gateway, rid: Rid, id: nat)
    requires G.BridgeSafe(g.bridge)
    ensures BridgeFollows(g.bridge, ClosesOne(g, rid, id).bridge, None, 0)
  {
    hide BridgeFollows, G.BridgeSafe;
    NothingFollows(g.bridge, 0);
    if id in g.bridge.objects {
      LeaveFollows(g.bridge, id);
    }
  }

  lemma LeaveFollows(b: G.Bridge, id: nat)
    requires G.BridgeSafe(b) && id in b.objects
    ensures BridgeFollows(b, G.Leave(b, id), None, 0)
  {
    hide BridgeMoves, G.BridgeSafe;
    StepMoves(b, G.FinishClose(id));
    MovedFollows(b, G.Leave(b, id), id, None);
  }

  lemma OpenFollows(g: Gateway, id: nat, rid: Rid, greeting: string)
    ensures BridgeFollows(g.bridge, Opens(g, id, rid, greeting).bridge, None, 0)
  {
    NothingFollows(g.bridge, 0);
    if rid in g.world.objects {
      OpenAdds(g.bridge, id, rid, g.world.objects[rid].config.bridge, greeting);
    }
  }

  lemma StepFollows(g: Gateway, s: GatewayStep)
    requires G.BridgeSafe(g.bridge) && Outside(s)
    ensures BridgeFollows(g.bridge, ApplyGateway(g, s).bridge,
      if GivesLeasesBack(g, s) then Some(GivenBack(g, s)) else None, StepAt(s))
  {
    hide BridgeFollows;
    NothingFollows(g.bridge, StepAt(s));
    match s
    case OnBridge(t) => BridgeStepFollows(g, s);
    case DrainClosesOne(rid, id) => CloseFollows(g, rid, id);
    case OpenSession(id, rid, greeting) => OpenFollows(g, id, rid, greeting);
    case _ =>
  }

  // ------------------------------------------------------- links without a condition

  lemma WorldKeepsLinks(g: Gateway, w': World)
    requires LeasesLinked(g) && WorldLeasesMove(g.world, w', g.bridge)
    ensures LeasesLinked(g.(world := w'))
  {
    MoveKeepsPosts(g.world, w', g.bridge);
  }

  lemma MovedKeepsLinks(g: Gateway, b': G.Bridge, id: nat, moved: Option<nat>)
    requires LeasesLinked(g) && BridgeMoves(g.bridge, b', id, moved) && G.BridgeSafe(b')
    requires moved.Some? ==> !GivesBack(g.bridge.objects[id], b'.objects[id], moved.value)
    ensures LeasesLinked(g.(bridge := b'))
  {
    MovedKeepsPaths(g.world, g.bridge, b', id, moved);
    MovedKeepsPosts(g.world, g.bridge, b', id, moved);
    MovedKeepsShares(g.bridge, b', id, moved);
  }

  lemma ReturnKeepsLinks(g: Gateway, b': G.Bridge, id: nat, l: nat, w': World)
    requires LeasesLinked(g) && BridgeMoves(g.bridge, b', id, Some(l)) && G.BridgeSafe(b')
    requires GivesBack(g.bridge.objects[id], b'.objects[id], l)
    requires w' == At(g.world, g.bridge.objects[id].runtime, Serves(Release(l)))
    ensures LeasesLinked(g.(bridge := b', world := w'))
  {
    var rid := g.bridge.objects[id].runtime;
    assert PostLinked(g.world, g.bridge, id, l);
    ReleaseReleases(g.world, rid, l);
    GivenBackKeepsPosts(g.world, g.bridge, b', id, l, w');
    MovedKeepsShares(g.bridge, b', id, Some(l));
    MovedKeepsPaths(w', g.bridge, b', id, Some(l));
  }

  lemma BridgeKeepsLinks(g: Gateway, t: G.BridgeStep)
    requires LeasesLinked(g)
    ensures LeasesLinked(Bridges(g, t))
  {
    if Allowed(g, t) {
      var b, b' := g.bridge, G.Apply(g.bridge, t);
      G.StepKeepsBridge(b, t);
      StepMoves(b, t);
      if t.id in b.objects {
        if Moved(t).Some? && GivesBack(b.objects[t.id], b'.objects[t.id], Moved(t).value) {
          ReturnKeepsLinks(g, b', t.id, Moved(t).value, Bridges(g, t).world);
        } else {
          MovedKeepsLinks(g, b', t.id, Moved(t));
        }
      }
    }
  }

  lemma OpenKeepsLinks(g: Gateway, id: nat, rid: Rid, greeting: string)
    requires LeasesLinked(g)
    ensures LeasesLinked(Opens(g, id, rid, greeting))
  {
    if rid in g.world.objects && g.world.objects[rid].state != DRAINING {
      var e := g.world.objects[rid].config;
      var b' := G.OpenSession(g.bridge, id, rid.path, rid, e.bridge, greeting);
      G.OpenKeeps(g.bridge, id, rid.path, rid, e.bridge, greeting);
      OpenAdds(g.bridge, id, rid, e.bridge, greeting);
      if b' != g.bridge {
        OpenedPosts(g.world, g.bridge, b', id, rid);
      }
    }
  }

  lemma CloseKeepsLinks(g: Gateway, rid: Rid, id: nat)
    requires LeasesLinked(g)
    ensures LeasesLinked(ClosesOne(g, rid, id))
  {
    if ClosesOne(g, rid, id) != g {
      G.LeaveBridgeKeeps(g.bridge, id);
      StepMoves(g.bridge, G.FinishClose(id));
      MovedKeepsLinks(g, G.Leave(g.bridge, id), id, None);
    }
  }

  lemma OutsideKeepsLinks(g: Gateway, s: GatewayStep)
    requires LeasesLinked(g) && Outside(s)
    ensures LeasesLinked(ApplyGateway(g, s))
  {
    hide LeasesLinked, WorldStays;
    match s
    case OnBridge(t) => BridgeKeepsLinks(g, t);
    case OpenSession(id, rid, greeting) => OpenKeepsLinks(g, id, rid, greeting);
    case DrainClosesOne(rid, id) => CloseKeepsLinks(g, rid, id);
    case _ =>
      QuietWorld(g, s);
      StaysKeepsLinks(g, ApplyGateway(g, s));
  }

  lemma StaysKeepsLinks(g: Gateway, g': Gateway)
    requires LeasesLinked(g) && WorldStays(g.world, g'.world) && g'.bridge == g.bridge
    ensures LeasesLinked(g')
  {
    WorldKeepsLinks(g, g'.world);
  }

  lemma BeginKeepsLinks(g: Gateway, id: nat, rid: Rid, l: nat)
    requires LeasesLinked(g) && MayBegin(g, id, rid, l)
    ensures LeasesLinked(BeginsPost(g, id, rid, l))
  {
    var b' := G.OnSession(g.bridge, id, B.Works(B.BeginPost(l)));
    G.OnSessionKeeps(g.bridge, id, B.Works(B.BeginPost(l)));
    BeginBegins(g.bridge, id, l);
    if b' != g.bridge {
      BegunPosts(g.world, g.bridge, b', id, l);
      BegunShares(g.bridge, b', id, l);
    }
  }

  // ------------------------------------------------------------- accounts of runtimes

  lemma AtKeepsAccounts(w: World, rid: Rid, t: Step)
    requires AccountedWorld(w)
    ensures AccountedWorld(At(w, rid, t))
  {
    WorldStepKeepsAccounts(w, WorldStep.OnRuntime(rid, t));
  }

  lemma OutsideKeepsAccounts(g: Gateway, s: GatewayStep)
    requires AccountedWorld(g.world)
    ensures AccountedWorld(ApplyGateway(g, s).world)
  {
    hide AccountedWorld;
    match s
    case OnRuntime(rid, t) => AtKeepsAccounts(g.world, rid, t);
    case StartReload(c) => BeginKeepsAccounts(g.world, c);
    case PublishSnapshot => PublishKeepsAccounts(g.world);
    case MarkDrain(rid) => AtKeepsAccounts(g.world, rid, Drains(DrainMark));
    case LegacyAwaited(rid) => AtKeepsAccounts(g.world, rid, Drains(LegacyDone));
    case DrainTerminated(rid) => AtKeepsAccounts(g.world, rid, Fails(Terminate));
    case DrainClosed(rid) => AtKeepsAccounts(g.world, rid, Drains(SessionsDone));
    case OnBridge(t) =>
      BridgeStepWorld(g, s);
      if GivesLeasesBack(g, s) {
        AtKeepsAccounts(g.world, GivenBack(g, s).rid, Serves(Release(GivenBack(g, s).index)));
      }
    case _ =>
  }

  // ------------------------------------------------------------------- all runs

  lemma StepKeepsLeasesLinked(g: Gateway, s: GatewayStep)
    requires LeasesLinked(g)
    ensures LeasesLinked(ApplyGateway(g, s))
  {
    hide LeasesLinked;
    if Outside(s) {
      OutsideKeepsLinks(g, s);
    } else if s.BeginPost? {
      if MayBegin(g, s.id, s.rid, s.lease) {
        BeginKeepsLinks(g, s.id, s.rid, s.lease);
      }
    } else if OwnStep(g, s.rid, s.step) {
      ServeKeepsLinks(g, s.rid, s.step.serve);
    }
  }

  lemma ServeKeepsLinks(g: Gateway, rid: Rid, t: ServeStep)
    requires LeasesLinked(g) && (t.Release? ==> !Used(g.bridge, rid, t.lease))
    ensures LeasesLinked(Advance(g, rid, Serves(t)))
  {
    WorldKeepsLinks(g, At(g.world, rid, Serves(t)));
  }

  function RunGateway(g: Gateway, steps: seq<GatewayStep>): Gateway
    decreases |steps|
  {
    if steps == [] then g else RunGateway(ApplyGateway(g, steps[0]), steps[1..])
  }

  lemma {:induction false} RunKeepsLeasesLinked(g: Gateway, steps: seq<GatewayStep>)
    requires LeasesLinked(g)
    ensures LeasesLinked(RunGateway(g, steps))
    decreases |steps|
  {
    hide LeasesLinked, ApplyGateway;
    if steps != [] {
      StepKeepsLeasesLinked(g, steps[0]);
      RunKeepsLeasesLinked(ApplyGateway(g, steps[0]), steps[1..]);
    }
  }

  /** In every run, abandoned starts and lost marks included, the lease of a POST is unreleased exactly
      while the POST's request or its entered response task owns it. */
  lemma PostLeaseCounted(steps: seq<GatewayStep>, id: nat, l: nat)
    requires var b := RunGateway(EmptyGateway, steps).bridge; id in b.objects && l in b.objects[id].posts
    ensures var g := RunGateway(EmptyGateway, steps);
      var s := g.bridge.objects[id];
      && s.runtime in g.world.objects && l < |g.world.objects[s.runtime].leases|
      && (g.world.objects[s.runtime].leases[l] <==> B.LeaseOwner(s.posts[l]) == B.Nobody)
  {
    RunKeepsLeasesLinked(EmptyGateway, steps);
    LinkedIsCounted(RunGateway(EmptyGateway, steps), id, l);
  }

  lemma LinkedIsCounted(g: Gateway, id: nat, l: nat)
    requires LeasesLinked(g) && id in g.bridge.objects && l in g.bridge.objects[id].posts
    ensures var s := g.bridge.objects[id];
      && s.runtime in g.world.objects && l < |g.world.objects[s.runtime].leases|
      && (g.world.objects[s.runtime].leases[l] <==> B.LeaseOwner(s.posts[l]) == B.Nobody)
  {
    assert PostLinked(g.world, g.bridge, id, l) && B.SessionSafe(g.bridge.objects[id]);
    assert B.PostSafe(g.bridge.objects[id].posts[l]);
  }
}
