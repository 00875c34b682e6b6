/** The gateway with its request limiter and the requests it serves (mcp_router/server.py): every limit
    lease and every runtime lease is taken by a request, and the machine of module RequestLeases says
    to whom it then belongs. */
module Service {
  import opened Common
  import opened Lifecycle
  import opened Reload
  import opened Gateway
  import opened GatewayLeases
  import B = BridgeSession
  import G = LegacyBridge
  import M = Limits
  import Q = RequestLeases

  /** One request, with the leases it was handed and the bridge session that its POST has reached. */
  datatype Call = Call(q: Q.Request, limit: Option<nat>, lease: Option<RuntimeLease>, session: Option<nat>)

  datatype Service = Service(
    gateway: Gateway,
    limiter: M.Limiter,
    calls: map<nat, Call>,
    lessees: map<RuntimeLease, nat>,  // the call to which each runtime lease was handed
    payers: seq<nat>)                 // the call to which each limit lease was handed

  const EmptyService := Service(EmptyGateway, M.NewLimiter, map[], map[], [])

  // -------------------------------------------------------------------- steps

  datatype ServiceStep =
    | Arrive(id: nat, endpoint: M.Endpoint, tool: Option<string>, now: real) // the limiter admits or refuses
    | Grant(id: nat, rid: Rid, route: Q.Route)                            // the runtime grants its lease
    | Post(id: nat, session: nat)                                         // handle_post finds its session
    | Proceed(id: nat, step: Q.Step)                                      // anything else a request does
    | Elsewhere(rest: GatewayStep)                                        // everything else in the gateway

  function Arrives(v: Service, id: nat, e: M.Endpoint, tool: Option<string>, now: real): Service {
    if id in v.calls || now < v.limiter.clock then v
    else
      var (limiter, outcome) := M.Acquire(v.limiter, M.ActiveSpecs(e, tool), now);
      var q := Q.Apply(Q.NewRequest, Q.Admit(outcome.Refused?));
      var limit := if outcome.Granted? then Some(|v.limiter.leases|) else None;
      v.(limiter := limiter, calls := v.calls[id := Call(q, limit, None, None)],
         payers := if outcome.Granted? then v.payers + [id] else v.payers)
  }

  predicate MayGrant(v: Service, id: nat, rid: Rid) {
    && id in v.calls && v.calls[id].q.phase == Q.Activating
    && rid in v.gateway.world.objects && CanLease(v.gateway.world.objects[rid])
  }

  function Grants(v: Service, id: nat, rid: Rid, route: Q.Route): Service {
    if !MayGrant(v, id, rid) then v
    else
      var x := RuntimeLease(rid, |v.gateway.world.objects[rid].leases|);
      var q := Q.Apply(v.calls[id].q, Q.ActivationEnds(Q.Granted(route)));
      v.(gateway := Advance(v.gateway, rid, Serves(Acquire)),
         calls := v.calls[id := v.calls[id].(q := q, lease := Some(x))], lessees := v.lessees[x := id])
  }

  predicate MayPost(v: Service, id: nat, session: nat) {
    && id in v.calls && v.calls[id].q.phase == Q.Bridging && v.calls[id].session.None? && v.calls[id].lease.Some?
    && MayBegin(v.gateway, session, v.calls[id].lease.value.rid, v.calls[id].lease.value.index)
    && !v.gateway.bridge.objects[session].closed
  }

  function Posts(v: Service, id: nat, session: nat): Service {
    if !MayPost(v, id, session) then v
    else
      var x := v.calls[id].lease.value;
      v.(gateway := BeginsPost(v.gateway, session, x.rid, x.index),
         calls := v.calls[id := v.calls[id].(session := Some(session))])
  }

  /** What a request does without the limiter's, the runtime's or the bridge's part in it. */
  predicate Own(c: Call, s: Q.Step) {
    match s
    case Admit(_) => false
    case ActivationEnds(outcome) => !outcome.Granted?
    case Move(_) => false
    case Publish(_) => false
    case Refuse => c.session.None?
    case _ => true
  }

  /** The request goes on as `q`; the leases that it no longer holds are released. */
  function Settles(v: Service, id: nat, q: Q.Request): Service
    requires id in v.calls
  {
    var c := v.calls[id];
    v.(calls := v.calls[id := c.(q := q)],
       limiter := if c.q.limitHeld && !q.limitHeld then Repaid(v.limiter, c.limit) else v.limiter,
       gateway := if c.q.runtimeHeld && !q.runtimeHeld then Returned(v.gateway, c.lease) else v.gateway)
  }

  function Repaid(l: M.Limiter, limit: Option<nat>): M.Limiter {
    if limit.Some? then M.Release(l, limit.value) else l
  }

  function Returned(g: Gateway, lease: Option<RuntimeLease>): Gateway {
    if lease.Some? then Advance(g, lease.value.rid, Serves(Release(lease.value.index))) else g
  }

  function Proceeds(v: Service, id: nat, s: Q.Step): Service {
    if id in v.calls && Own(v.calls[id], s) then Settles(v, id, Q.Apply(v.calls[id].q, s)) else v
  }

  /** A call whose POST is in the bridge's hands is where that POST is. */
  function Follow(c: Call, b: G.Bridge): Call {
    if InBridge(c, b) then c.(q := Q.AfterPost(c.q, b.objects[c.session.value].posts[c.lease.value.index])) else c
  }

  predicate InBridge(c: Call, b: G.Bridge) {
    && c.q.phase == Q.Bridging && c.session.Some? && c.lease.Some?
    && c.session.value in b.objects && c.lease.value.index in b.objects[c.session.value].posts
  }

  /** `on_complete` releases the limit lease of the POST's request too. */
  function LimiterAfter(v: Service, s: GatewayStep): M.Limiter {
    if GivesLeasesBack(v.gateway, s) && GivenBack(v.gateway, s) in v.lessees
      && v.lessees[GivenBack(v.gateway, s)] in v.calls
    then Repaid(v.limiter, v.calls[v.lessees[GivenBack(v.gateway, s)]].limit) else v.limiter
  }

  function GoesOn(v: Service, s: GatewayStep): Service {
    if !Outside(s) then v
    else
      var g := ApplyGateway(v.gateway, s);
      v.(gateway := g, limiter := LimiterAfter(v, s), calls := map id | id in v.calls :: Follow(v.calls[id], g.bridge))
  }

  function ApplyService(v: Service, s: ServiceStep): Service {
    match s
    case Arrive(id, e, tool, now) => Arrives(v, id, e, tool, now)
    case Grant(id, rid, route) => Grants(v, id, rid, route)
    case Post(id, session) => Posts(v, id, session)
    case Proceed(id, t) => Proceeds(v, id, t)
    case Elsewhere(t) => GoesOn(v, t)
  }

  // ---------------------------------------------------------------- invariant

  /** Which leases a call was handed, in each phase. */
  ghost predicate CallShape(c: Call) {
    && Q.Safe(c.q)
    && (c.lease.Some? <==> c.q.runtimeTaken == 1)
    && (c.limit.Some? ==> c.q.limitTaken == 1)
    && (c.session.Some? ==> c.lease.Some? && (c.q.phase == Q.Bridging || c.q.phase == Q.Finished))
    && (c.q.phase == Q.Bridging && c.session.None? ==> c.q.post == B.FreshPost)
  }

  ghost predicate CallsShaped(v: Service) {
    forall id <- v.calls :: CallShape(v.calls[id])
  }

  predicate LeaseOut(w: World, x: RuntimeLease) {
    x.rid in w.objects && x.index < |w.objects[x.rid].leases| && !w.objects[x.rid].leases[x.index]
  }

  predicate LeaseMade(w: World, x: RuntimeLease) {
    x.rid in w.objects && x.index < |w.objects[x.rid].leases|
  }

  /** A call's runtime lease is its alone, and unreleased exactly while the call holds it. */
  ghost predicate Lent(v: Service, id: nat)
    requires id in v.calls
  {
    v.calls[id].lease.Some? ==>
      var x := v.calls[id].lease.value;
      && LeaseMade(v.gateway.world, x) && x in v.lessees && v.lessees[x] == id
      && (v.calls[id].q.runtimeHeld <==> LeaseOut(v.gateway.world, x))
  }

  ghost predicate RuntimeLeasesOwned(v: Service) {
    && (forall id <- v.calls :: Lent(v, id))
    && (forall x :: LeaseMade(v.gateway.world, x) ==> x in v.lessees)
    && (forall x <- v.lessees :: v.lessees[x] in v.calls && v.calls[v.lessees[x]].lease == Some(x))
  }

  /** The same for its limit lease. */
  ghost predicate Paid(v: Service, id: nat)
    requires id in v.calls
  {
    v.calls[id].limit.Some? ==>
      var k := v.calls[id].limit.value;
      && k < |v.limiter.leases| && k < |v.payers| && v.payers[k] == id
      && (v.calls[id].q.limitHeld <==> !v.limiter.leases[k].released)
  }

  ghost predicate LimitLeasesOwned(v: Service) {
    && (forall id <- v.calls :: Paid(v, id))
    && |v.payers| == |v.limiter.leases|
    && (forall k: nat :: k < |v.payers| ==> v.payers[k] in v.calls && v.calls[v.payers[k]].limit == Some(k))
  }

  /** A call's POST is the one that the bridge has under its lease. */
  ghost predicate PostFollowed(b: G.Bridge, c: Call) {
    c.session.Some? && c.lease.Some? ==>
      && c.session.value in b.objects
      && var s := b.objects[c.session.value];
         && s.runtime == c.lease.value.rid && c.lease.value.index in s.posts
         && (if c.q.phase == Q.Bridging then c.q.post == s.posts[c.lease.value.index]
             else !s.posts[c.lease.value.index].leased)
  }

  ghost predicate PostKnown(v: Service, s: nat, l: nat)
    requires s in v.gateway.bridge.objects
  {
    var x := RuntimeLease(v.gateway.bridge.objects[s].runtime, l);
    x in v.lessees && v.lessees[x] in v.calls && v.calls[v.lessees[x]].session == Some(s)
  }

  ghost predicate PostsOwned(v: Service) {
    && (forall id <- v.calls :: PostFollowed(v.gateway.bridge, v.calls[id]))
    && (forall s, l :: s in v.gateway.bridge.objects && l in v.gateway.bridge.objects[s].posts ==> PostKnown(v, s, l))
  }

  ghost predicate ServiceSafe(v: Service) {
    && LeasesLinked(v.gateway) && M.Safe(v.limiter) && AccountedWorld(v.gateway.world)
    && CallsShaped(v) && RuntimeLeasesOwned(v) && LimitLeasesOwned(v) && PostsOwned(v)
  }
}
