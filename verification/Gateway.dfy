/** The registry of runtimes and the legacy bridge together (mcp_router/server.py): sessions are
    opened and POSTs begun against a runtime, a POST's lease is a lease of its runtime, and a drain
    waits for the runtime's compatibility tasks and closes its endpoint's sessions. */
module Gateway {
  import opened Common
  import opened Lifecycle
  import opened LifecycleSafety
  import opened Reload
  import B = BridgeSession
  import G = LegacyBridge

  /** Compatibility tasks; a POST is known by the runtime lease that its request holds. */
  datatype Task = ExpiryOf(session: nat) | SetupOf(session: nat, lease: nat) | ResponseOf(session: nat, lease: nat)

  datatype Gateway = Gateway(
    world: World,
    bridge: G.Bridge,
    awaited: map<Rid, set<Task>>,  // what `cancel_legacy_tasks` of a drain waits for
    closing: map<Rid, set<nat>>)   // what `close_endpoint` of a drain has still to close

  const EmptyGateway := Gateway(EmptyWorld, G.EmptyBridge, map[], map[])

  predicate Of(b: G.Bridge, id: nat, rid: Rid) {
    id in b.objects && b.objects[id].runtime == rid
  }

  predicate Unfinished(b: G.Bridge, rid: Rid, t: Task) {
    && Of(b, t.session, rid)
    && var s := b.objects[t.session];
      match t
      case ExpiryOf(_) => s.expiry != B.Ended
      case SetupOf(_, l) => l in s.posts && s.posts[l].setup
      case ResponseOf(_, l) => l in s.posts && s.posts[l].response.Task?
  }

  /** `legacy_tasks`: tasks are tracked when they are made and dropped when they are done. */
  function LegacyTasks(b: G.Bridge, rid: Rid): set<Task> {
    (set id | id in b.objects && Unfinished(b, rid, ExpiryOf(id)) :: ExpiryOf(id))
    + (set id, l | id in b.objects && l in b.objects[id].posts && Unfinished(b, rid, SetupOf(id, l)) :: SetupOf(id, l))
    + (set id, l | id in b.objects && l in b.objects[id].posts && Unfinished(b, rid, ResponseOf(id, l))
        :: ResponseOf(id, l))
  }

  /** The lease belongs to a POST of the runtime. */
  predicate Used(b: G.Bridge, rid: Rid, l: nat) {
    exists id :: id in b.objects && Of(b, id, rid) && l in b.objects[id].posts
  }

  // -------------------------------------------------------------------- steps

  datatype GatewayStep =
    | OnRuntime(rid: Rid, step: Step)
    | StartReload(config: Config)
    | PublishSnapshot
    | MarkDrain(rid: Rid)               // drain_and_stop: the mark, and the tasks it will wait for
    | LegacyAwaited(rid: Rid)           // cancel_legacy_tasks returns
    | DrainTerminated(rid: Rid)         // stop_managed_server returns; close_endpoint lists its sessions
    | DrainClosesOne(rid: Rid, id: nat) // the drain's close of one session ends
    | DrainClosed(rid: Rid)             // close_endpoint returns
    | OpenSession(id: nat, rid: Rid, greeting: string)
    | BeginPost(id: nat, rid: Rid, lease: nat)
    | OnBridge(bridgeStep: G.BridgeStep)

  /** Steps that a runtime takes without the bridge. */
  predicate OwnStep(g: Gateway, rid: Rid, t: Step) {
    match t
    case Drains(d) => d == LeasesDone || d == DrainStop
    case Fails(f) => !(f == Terminate && rid in g.world.objects && EndsDrain(g.world.objects[rid]))
    case Serves(s) => s.Release? ==> !Used(g.bridge, rid, s.lease)
    case _ => true
  }

  function Advance(g: Gateway, rid: Rid, t: Step): Gateway {
    g.(world := At(g.world, rid, t))
  }

  predicate DrainsAt(g: Gateway, rid: Rid, d: Drain) {
    rid in g.world.objects && g.world.objects[rid].drain == d
  }

  function MarksDrain(g: Gateway, rid: Rid): Gateway {
    if DrainsAt(g, rid, Requested) && g.world.objects[rid].section == Free
      then Advance(g, rid, Drains(DrainMark)).(awaited := g.awaited[rid := LegacyTasks(g.bridge, rid)]) else g
  }

  function AwaitsLegacy(g: Gateway, rid: Rid): Gateway {
    if DrainsAt(g, rid, Marked) && rid in g.awaited && forall t <- g.awaited[rid] :: !Unfinished(g.bridge, rid, t)
      then Advance(g, rid, Drains(LegacyDone)) else g
  }

  function TerminatesDrain(g: Gateway, rid: Rid): Gateway {
    if rid in g.world.objects && EndsDrain(g.world.objects[rid])
      then
        Advance(g, rid, Fails(Terminate)).(closing := g.closing[rid := G.EndpointSessions(g.bridge, rid.path)])
      else g
  }

  predicate ClosedByDrain(b: G.Bridge, id: nat) {
    id in b.objects && B.MayLeave(b.objects[id]) && b.objects[id].cleanup.who == B.Drainer
  }

  function ClosesOne(g: Gateway, rid: Rid, id: nat): Gateway {
    if rid in g.closing && id in g.closing[rid] && ClosedByDrain(g.bridge, id)
      then g.(bridge := G.Leave(g.bridge, id), closing := g.closing[rid := g.closing[rid] - {id}]) else g
  }

  function ClosesEndpoint(g: Gateway, rid: Rid): Gateway {
    if DrainsAt(g, rid, Closing) && rid in g.closing && g.closing[rid] == {}
      then Advance(g, rid, Drains(SessionsDone)) else g
  }

  /** The GET of a compatibility client: no await lies between the state check and the admission. */
  function Opens(g: Gateway, id: nat, rid: Rid, greeting: string): Gateway {
    if rid in g.world.objects && g.world.objects[rid].state != DRAINING
      then g.(bridge := G.OpenSession(g.bridge, id, rid.path, rid, g.world.objects[rid].config.bridge, greeting)) else g
  }

  /** A POST whose request holds the lease reaches its session. */
  function BeginsPost(g: Gateway, id: nat, rid: Rid, l: nat): Gateway {
    if MayBegin(g, id, rid, l) then g.(bridge := G.OnSession(g.bridge, id, B.Works(B.BeginPost(l)))) else g
  }

  predicate MayBegin(g: Gateway, id: nat, rid: Rid, l: nat) {
    && Of(g.bridge, id, rid) && rid in g.world.objects && l < |g.world.objects[rid].leases|
    && !g.world.objects[rid].leases[l] && !Used(g.bridge, rid, l)
  }

  /** What the bridge does by itself. */
  predicate Allowed(g: Gateway, t: G.BridgeStep) {
    match t
    case Open(_, _, _, _, _) => false
    case FinishClose(id) => !ClosedByDrain(g.bridge, id)
    case Within(id, u) => u.Works? ==>
      && !u.work.BeginPost?
      && (u.work.PublishPost? ==> u.work.draining == SessionDraining(g, id))
    case _ => true
  }

  /** The runtime of the session is DRAINING. */
  predicate SessionDraining(g: Gateway, id: nat) {
    && id in g.bridge.objects && g.bridge.objects[id].runtime in g.world.objects
    && g.world.objects[g.bridge.objects[id].runtime].state == DRAINING
  }

  /** The POST that a step moves. */
  function Moved(t: G.BridgeStep): Option<nat> {
    if !(t.Within? && t.step.Works?) then None
    else
      match t.step.work
      case PublishPost(l, _) => Some(l)
      case OnPost(l, _) => Some(l)
      case _ => None
  }

  predicate GivesBack(s: B.Session, s': B.Session, l: nat) {
    l in s.posts && l in s'.posts && s.posts[l].leased && !s'.posts[l].leased
  }

  /** A bridge step; the leases that it gives back are released on the runtime. */
  function Bridges(g: Gateway, t: G.BridgeStep): Gateway {
    if !Allowed(g, t) then g
    else
      var b := G.Apply(g.bridge, t);
      g.(bridge := b, world := WorldAfter(g.world, g.bridge, b, t))
  }

  function WorldAfter(w: World, b: G.Bridge, b': G.Bridge, t: G.BridgeStep): World {
    if Moved(t).Some? && t.id in b.objects && t.id in b'.objects
      && GivesBack(b.objects[t.id], b'.objects[t.id], Moved(t).value)
    then At(w, b.objects[t.id].runtime, Serves(Release(Moved(t).value))) else w
  }

  function ApplyGateway(g: Gateway, s: GatewayStep): Gateway {
    match s
    case OnRuntime(rid, t) => if OwnStep(g, rid, t) then Advance(g, rid, t) else g
    case StartReload(c) => g.(world := BeginReload(g.world, c))
    case PublishSnapshot => g.(world := Publish(g.world))
    case MarkDrain(rid) => MarksDrain(g, rid)
    case LegacyAwaited(rid) => AwaitsLegacy(g, rid)
    case DrainTerminated(rid) => TerminatesDrain(g, rid)
    case DrainClosesOne(rid, id) => ClosesOne(g, rid, id)
    case DrainClosed(rid) => ClosesEndpoint(g, rid)
    case OpenSession(id, rid, greeting) => Opens(g, id, rid, greeting)
    case BeginPost(id, rid, l) => BeginsPost(g, id, rid, l)
    case OnBridge(t) => Bridges(g, t)
  }

  /** The events that break a single runtime stay excluded. */
  ghost predicate AdmittedGateway(g: Gateway, s: GatewayStep) {
    match s
    case OnRuntime(rid, t) => rid in g.world.objects ==> Admitted(g.world.objects[rid], t)
    case StartReload(c) => ValidConfig(c)
    case MarkDrain(rid) => rid in g.world.objects ==> Admitted(g.world.objects[rid], Drains(DrainMark))
    case _ => true
  }

  // ---------------------------------------------------------------- invariant

  /** Every session belongs to a runtime object of its path. */
  ghost predicate PathsLinked(w: World, b: G.Bridge) {
    forall id <- b.objects :: b.objects[id].runtime in w.objects && b.objects[id].path == b.objects[id].runtime.path
  }

  ghost predicate PostLinked(w: World, b: G.Bridge, id: nat, l: nat)
    requires id in b.objects && l in b.objects[id].posts
  {
    var s := b.objects[id];
    && s.runtime in w.objects && l < |w.objects[s.runtime].leases|
    && (s.posts[l].leased <==> !w.objects[s.runtime].leases[l])
  }

  predicate SharedLease(b: G.Bridge, id: nat, id': nat, l: nat) {
    && id in b.objects && id' in b.objects && b.objects[id].runtime == b.objects[id'].runtime
    && l in b.objects[id].posts && l in b.objects[id'].posts
  }

  /** A POST holds its lease exactly while the runtime counts it. */
  ghost predicate PostsLinked(w: World, b: G.Bridge) {
    forall id, l :: id in b.objects && l in b.objects[id].posts ==> PostLinked(w, b, id, l)
  }

  ghost predicate NoneShared(b: G.Bridge) {
    forall id, id', l :: SharedLease(b, id, id', l) ==> id == id'
  }

  ghost predicate NoExpiry(b: G.Bridge, rid: Rid, but: set<Task>) {
    forall id <- b.objects :: b.objects[id].runtime == rid ==> b.objects[id].expiry == B.Ended || ExpiryOf(id) in but
  }

  /** How far a drain has come with the sessions of its runtime. */
  ghost predicate DrainLinked(g: Gateway, rid: Rid)
    requires rid in g.world.objects
  {
    match g.world.objects[rid].drain
    case NotDrained => true
    case Requested => true
    case Marked => rid in g.awaited && NoExpiry(g.bridge, rid, g.awaited[rid])
    case Closing =>
      NoExpiry(g.bridge, rid, {}) && rid in g.closing && G.OnlyTodo(g.bridge, rid, g.closing[rid])
    case Done => NoExpiry(g.bridge, rid, {}) && G.OnlyTodo(g.bridge, rid, {})
    case _ => NoExpiry(g.bridge, rid, {})
  }

  ghost predicate DrainsLinked(g: Gateway) {
    forall rid <- g.world.objects :: DrainLinked(g, rid)
  }

  function MaxSessions(e: Endpoint): nat {
    if e.bridge.Some? then e.bridge.value.maxSessions else 0
  }

  ghost predicate LimitsLinked(w: World, b: G.Bridge) {
    forall p <- w.registry :: w.registry[p] in w.objects ==>
      |G.Active(b, p)| <= MaxSessions(w.objects[w.registry[p]].config)
  }

  ghost predicate Linked(g: Gateway) {
    && PathsLinked(g.world, g.bridge) && PostsLinked(g.world, g.bridge) && NoneShared(g.bridge)
    && DrainsLinked(g) && LimitsLinked(g.world, g.bridge)
  }

  ghost predicate GatewaySafe(g: Gateway) {
    WorldSafe(g.world) && G.BridgeSafe(g.bridge) && Linked(g)
  }
}
