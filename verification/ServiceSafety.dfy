/** Over every run of the service, with nothing excluded: each lease that is out belongs to exactly one
    request, streaming body or response task, and the counters that drains and limits look at count
    exactly these. */
module ServiceSafety {
  import opened Common
  import opened Lifecycle
  import opened LifecycleSafety
  import opened Reload
  import opened Gateway
  import opened GatewaySafety
  import opened GatewayLeases
  import opened Service
  import B = BridgeSession
  import G = LegacyBridge
  import M = Limits
  import Q = RequestLeases

  // ------------------------------------------------------------------- one request

  /** What a request does by itself gives leases back or keeps them, and never those of a POST that the
      bridge has in hand. */
  ghost predicate OnlyGives(c: Call, q: Q.Request) {
    && CallShape(c.(q := q))
    && (q.runtimeHeld ==> c.q.runtimeHeld) && (q.limitHeld ==> c.q.limitHeld)
    && (c.session.Some? ==> q.runtimeHeld == c.q.runtimeHeld)
    && (c.session.Some? && q.phase == Q.Bridging ==> c.q.phase == Q.Bridging && q.post == c.q.post)
    && (c.session.Some? && q.phase != Q.Bridging && c.q.phase == Q.Bridging ==> !c.q.post.leased)
  }

  lemma OwnStepGives(c: Call, s: Q.Step)
    requires CallShape(c) && Own(c, s)
    ensures OnlyGives(c, Q.Apply(c.q, s))
  {
    Q.StepKeepsLeases(c.q, s);
  }

  /** A released lease is in, and no other lease is touched. */
  lemma ReleaseWorld(w: World, x: RuntimeLease)
    requires LeaseMade(w, x)
    ensures var w' := At(w, x.rid, Serves(Release(x.index)));
      forall y :: (LeaseMade(w', y) <==> LeaseMade(w, y)) && (LeaseOut(w', y) <==> LeaseOut(w, y) && y != x)
  {
  }

  lemma RepaidLeases(l: M.Limiter, limit: Option<nat>)
    requires limit.Some? ==> limit.value < |l.leases|
    ensures var l' := Repaid(l, limit);
      && |l'.leases| == |l.leases|
      && forall k: nat :: k < |l.leases| ==> (l'.leases[k].released <==> l.leases[k].released || limit == Some(k))
  {
  }

  lemma RepaidSafe(l: M.Limiter, limit: Option<nat>)
    requires M.Safe(l)
    ensures M.Safe(Repaid(l, limit))
  {
    if limit.Some? {
      M.ReleaseKeeps(l, limit.value);
    }
  }

  // ----------------------------------------------------------- a request goes on

  lemma SettleKeepsRuntime(v: Service, id: nat, q: Q.Request)
    requires RuntimeLeasesOwned(v) && id in v.calls && CallShape(v.calls[id])
    requires q.runtimeHeld ==> v.calls[id].q.runtimeHeld
    ensures RuntimeLeasesOwned(Settles(v, id, q))
  {
    var c, v' := v.calls[id], Settles(v, id, q);
    assert Lent(v, id);
    if c.q.runtimeHeld && !q.runtimeHeld {
      ReleaseWorld(v.gateway.world, c.lease.value);
    }
    forall i | i in v'.calls ensures Lent(v', i) {
      assert Lent(v, i);
    }
  }

  lemma SettleKeepsLimit(v: Service, id: nat, q: Q.Request)
    requires LimitLeasesOwned(v) && id in v.calls && (q.limitHeld ==> v.calls[id].q.limitHeld)
    ensures LimitLeasesOwned(Settles(v, id, q))
  {
    var c, v' := v.calls[id], Settles(v, id, q);
    assert Paid(v, id);
    RepaidLeases(v.limiter, c.limit);
    forall i | i in v'.calls ensures Paid(v', i) {
      assert Paid(v, i);
    }
  }

  lemma SettleKeepsPosts(v: Service, id: nat, q: Q.Request)
    requires PostsOwned(v) && id in v.calls && OnlyGives(v.calls[id], q)
    ensures PostsOwned(Settles(v, id, q))
  {
    var v' := Settles(v, id, q);
    forall i | i in v'.calls ensures PostFollowed(v'.gateway.bridge, v'.calls[i]) {
      assert PostFollowed(v.gateway.bridge, v.calls[i]);
    }
    forall s, l | s in v'.gateway.bridge.objects && l in v'.gateway.bridge.objects[s].posts
      ensures PostKnown(v', s, l)
    {
      assert PostKnown(v, s, l);
    }
  }

  /** A POST that the bridge has under a call's lease is the one that the call began. */
  lemma UsedIsPosted(v: Service, id: nat)
    requires PostsOwned(v) && RuntimeLeasesOwned(v) && id in v.calls && v.calls[id].lease.Some?
    requires Used(v.gateway.bridge, v.calls[id].lease.value.rid, v.calls[id].lease.value.index)
    ensures v.calls[id].session.Some?
  {
    var b, x := v.gateway.bridge, v.calls[id].lease.value;
    var s :| s in b.objects && Of(b, s, x.rid) && x.index in b.objects[s].posts;
    assert PostKnown(v, s, x.index) && Lent(v, id);
  }

  lemma SettleKeepsLinks(v: Service, id: nat, q: Q.Request)
    requires LeasesLinked(v.gateway) && PostsOwned(v) && RuntimeLeasesOwned(v)
    requires id in v.calls && OnlyGives(v.calls[id], q)
    ensures LeasesLinked(Settles(v, id, q).gateway)
  {
    hide PostsOwned, LeasesLinked, RuntimeLeasesOwned;
    var c := v.calls[id];
    if c.q.runtimeHeld && !q.runtimeHeld && c.lease.Some? {
      var x := c.lease.value;
      if Used(v.gateway.bridge, x.rid, x.index) {
        UsedIsPosted(v, id);
      } else {
        ReturnUnused(v.gateway, x);
      }
    }
  }

  lemma ReturnUnused(g: Gateway, x: RuntimeLease)
    requires LeasesLinked(g) && !Used(g.bridge, x.rid, x.index)
    ensures LeasesLinked(Returned(g, Some(x)))
  {
    ServeKeepsLinks(g, x.rid, Release(x.index));
  }

  lemma SettleKeepsService(v: Service, id: nat, q: Q.Request)
    requires ServiceSafe(v) && id in v.calls && OnlyGives(v.calls[id], q)
    ensures ServiceSafe(Settles(v, id, q))
  {
    hide LeasesLinked, RuntimeLeasesOwned, LimitLeasesOwned, PostsOwned, AccountedWorld, M.Safe;
    var c := v.calls[id];
    SettleKeepsLinks(v, id, q);
    SettleKeepsRuntime(v, id, q);
    SettleKeepsLimit(v, id, q);
    SettleKeepsPosts(v, id, q);
    RepaidSafe(v.limiter, c.limit);
    if c.lease.Some? {
      AtKeepsAccounts(v.gateway.world, c.lease.value.rid, Serves(Release(c.lease.value.index)));
    }
  }

  lemma ProceedKeeps(v: Service, id: nat, s: Q.Step)
    requires ServiceSafe(v)
    ensures ServiceSafe(Proceeds(v, id, s))
  {
    if id in v.calls && Own(v.calls[id], s) {
      OwnStepGives(v.calls[id], s);
      SettleKeepsService(v, id, Q.Apply(v.calls[id].q, s));
    }
  }

  // ------------------------------------------------------------- a request arrives

  lemma AcquireLeases(l: M.Limiter, specs: seq<M.Spec>, now: real)
    ensures var (l', outcome) := M.Acquire(l, specs, now);
      if outcome.Granted?
      then |l'.leases| == |l.leases| + 1 && l'.leases[..|l.leases|] == l.leases && !l'.leases[|l.leases|].released
      else l'.leases == l.leases
  {
  }

  lemma ArriveKeepsLimit(v: Service, id: nat, e: M.Endpoint, tool: Option<string>, now: real)
    requires LimitLeasesOwned(v) && id !in v.calls && now >= v.limiter.clock
    ensures LimitLeasesOwned(Arrives(v, id, e, tool, now))
  {
    var v' := Arrives(v, id, e, tool, now);
    AcquireLeases(v.limiter, M.ActiveSpecs(e, tool), now);
    assert forall k: nat :: k < |v.limiter.leases| ==>
      v'.limiter.leases[k] == v'.limiter.leases[..|v.limiter.leases|][k];
    forall i | i in v'.calls ensures Paid(v', i) {
      assert i != id ==> Paid(v, i);
    }
  }

  lemma ArriveKeepsShape(v: Service, id: nat, e: M.Endpoint, tool: Option<string>, now: real)
    requires CallsShaped(v)
    ensures CallsShaped(Arrives(v, id, e, tool, now))
  {
  }

  lemma ArriveKeepsRuntime(v: Service, id: nat, e: M.Endpoint, tool: Option<string>, now: real)
    requires RuntimeLeasesOwned(v)
    ensures RuntimeLeasesOwned(Arrives(v, id, e, tool, now))
  {
    var v' := Arrives(v, id, e, tool, now);
    forall i | i in v'.calls ensures Lent(v', i) {
      assert i in v.calls ==> Lent(v, i);
    }
  }

  lemma ArriveKeepsPosts(v: Service, id: nat, e: M.Endpoint, tool: Option<string>, now: real)
    requires PostsOwned(v)
    ensures PostsOwned(Arrives(v, id, e, tool, now))
  {
    var v' := Arrives(v, id, e, tool, now);
    forall i | i in v'.calls ensures PostFollowed(v'.gateway.bridge, v'.calls[i]) {
      assert i in v.calls ==> PostFollowed(v.gateway.bridge, v.calls[i]);
    }
    forall s, l | s in v'.gateway.bridge.objects && l in v'.gateway.bridge.objects[s].posts
      ensures PostKnown(v', s, l)
    {
      assert PostKnown(v, s, l);
    }
  }

  lemma ArriveKeeps(v: Service, id: nat, e: M.Endpoint, tool: Option<string>, now: real)
    requires ServiceSafe(v)
    ensures ServiceSafe(Arrives(v, id, e, tool, now))
  {
    if id !in v.calls && now >= v.limiter.clock {
      hide LeasesLinked, CallsShaped, RuntimeLeasesOwned, LimitLeasesOwned, PostsOwned, AccountedWorld, M.Safe;
      M.SpecsDistinct(e, tool);
      M.AcquireKeeps(v.limiter, M.ActiveSpecs(e, tool), now);
      ArriveKeepsLimit(v, id, e, tool, now);
      ArriveKeepsShape(v, id, e, tool, now);
      ArriveKeepsRuntime(v, id, e, tool, now);
      ArriveKeepsPosts(v, id, e, tool, now);
    }
  }

  // -------------------------------------------------------- a runtime lease is granted

  lemma GrantWorld(w: World, rid: Rid)
    requires rid in w.objects && CanLease(w.objects[rid])
    ensures var x, w' := RuntimeLease(rid, |w.objects[rid].leases|), At(w, rid, Serves(Acquire));
      && (forall y :: LeaseMade(w', y) <==> LeaseMade(w, y) || y == x)
      && (forall y :: LeaseOut(w', y) <==> LeaseOut(w, y) || y == x)
  {
  }

  lemma NotMadeYet(w: World, rid: Rid)
    ensures rid in w.objects ==> !LeaseMade(w, RuntimeLease(rid, |w.objects[rid].leases|))
  {
  }

  lemma GrantHolds(q: Q.Request, route: Q.Route)
    requires q.phase == Q.Activating
    ensures Q.Apply(q, Q.ActivationEnds(Q.Granted(route))).runtimeHeld
  {
  }

  /** A lease that is new, and out, becomes the call's. */
  lemma LendKeepsRuntime(v: Service, v': Service, id: nat, q: Q.Request, x: RuntimeLease)
    requires RuntimeLeasesOwned(v) && id in v.calls && v.calls[id].lease.None? && q.runtimeHeld
    requires v'.calls == v.calls[id := v.calls[id].(q := q, lease := Some(x))] && v'.lessees == v.lessees[x := id]
    requires !LeaseMade(v.gateway.world, x)
    requires forall y :: LeaseMade(v'.gateway.world, y) <==> LeaseMade(v.gateway.world, y) || y == x
    requires forall y :: LeaseOut(v'.gateway.world, y) <==> LeaseOut(v.gateway.world, y) || y == x
    ensures RuntimeLeasesOwned(v')
  {
    hide LeaseMade, LeaseOut;
    forall y | y in v.lessees ensures LeaseMade(v.gateway.world, y) {
      assert Lent(v, v.lessees[y]);
    }
    forall i | i in v'.calls ensures Lent(v', i) {
      assert Lent(v, i);
    }
  }

  lemma GrantKeepsRuntime(v: Service, id: nat, rid: Rid, route: Q.Route)
    requires RuntimeLeasesOwned(v) && MayGrant(v, id, rid) && CallShape(v.calls[id])
    ensures RuntimeLeasesOwned(Grants(v, id, rid, route))
  {
    hide RuntimeLeasesOwned;
    var x, q := RuntimeLease(rid, |v.gateway.world.objects[rid].leases|), v.calls[id].q;
    GrantWorld(v.gateway.world, rid);
    GrantHolds(q, route);
    NotMadeYet(v.gateway.world, rid);
    var q' := Q.Apply(q, Q.ActivationEnds(Q.Granted(route)));
    LendKeepsRuntime(v, Grants(v, id, rid, route), id, q', x);
  }

  lemma GrantKeepsShape(c: Call, x: RuntimeLease, route: Q.Route)
    requires CallShape(c) && c.q.phase == Q.Activating
    ensures var q := Q.Apply(c.q, Q.ActivationEnds(Q.Granted(route)));
      CallShape(c.(q := q, lease := Some(x))) && q.limitHeld == c.q.limitHeld && c.session.None?
  {
    Q.StepKeepsLeases(c.q, Q.ActivationEnds(Q.Granted(route)));
  }

  lemma GrantKeepsRest(v: Service, id: nat, rid: Rid, route: Q.Route)
    requires LimitLeasesOwned(v) && PostsOwned(v) && RuntimeLeasesOwned(v)
    requires MayGrant(v, id, rid) && CallShape(v.calls[id])
    ensures LimitLeasesOwned(Grants(v, id, rid, route)) && PostsOwned(Grants(v, id, rid, route))
  {
    var x, v' := RuntimeLease(rid, |v.gateway.world.objects[rid].leases|), Grants(v, id, rid, route);
    GrantKeepsShape(v.calls[id], x, route);
    forall i | i in v'.calls ensures Paid(v', i) && PostFollowed(v'.gateway.bridge, v'.calls[i]) {
      assert Paid(v, i) && PostFollowed(v.gateway.bridge, v.calls[i]);
    }
    forall s, l | s in v'.gateway.bridge.objects && l in v'.gateway.bridge.objects[s].posts
      ensures PostKnown(v', s, l)
    {
      assert PostKnown(v, s, l);
      var y := RuntimeLease(v.gateway.bridge.objects[s].runtime, l);
      assert Lent(v, v.lessees[y]);
    }
  }

  lemma GrantKeepsShapes(v: Service, id: nat, rid: Rid, route: Q.Route)
    requires CallsShaped(v) && MayGrant(v, id, rid)
    ensures CallsShaped(Grants(v, id, rid, route))
  {
    GrantKeepsShape(v.calls[id], RuntimeLease(rid, |v.gateway.world.objects[rid].leases|), route);
  }

  lemma GrantKeeps(v: Service, id: nat, rid: Rid, route: Q.Route)
    requires ServiceSafe(v)
    ensures ServiceSafe(Grants(v, id, rid, route))
  {
    if MayGrant(v, id, rid) {
      assert CallShape(v.calls[id]);
      hide LeasesLinked, CallsShaped, RuntimeLeasesOwned, LimitLeasesOwned, PostsOwned, AccountedWorld, M.Safe;
      GrantKeepsShapes(v, id, rid, route);
      GrantKeepsRuntime(v, id, rid, route);
      ServeKeepsLinks(v.gateway, rid, Acquire);
      AtKeepsAccounts(v.gateway.world, rid, Serves(Acquire));
      GrantKeepsRest(v, id, rid, route);
    }
  }

  // ------------------------------------------------------------ a POST is begun

  lemma PostBegins(v: Service, id: nat, session: nat)
    requires MayPost(v, id, session)
    ensures var x := v.calls[id].lease.value;
      Begins(v.gateway.bridge, BeginsPost(v.gateway, session, x.rid, x.index).bridge, session, x.index)
  {
    var x, b := v.calls[id].lease.value, v.gateway.bridge;
    assert !Used(b, x.rid, x.index) && Of(b, session, x.rid);
  }

  lemma PostKeepsFollowed(v: Service, id: nat, session: nat, i: nat)
    requires MayPost(v, id, session) && CallShape(v.calls[id]) && i in v.calls
    requires PostFollowed(v.gateway.bridge, v.calls[i])
    ensures PostFollowed(Posts(v, id, session).gateway.bridge, Posts(v, id, session).calls[i])
  {
    PostBegins(v, id, session);
  }

  lemma PostKeepsPosts(v: Service, id: nat, session: nat)
    requires PostsOwned(v) && RuntimeLeasesOwned(v) && MayPost(v, id, session) && CallShape(v.calls[id])
    ensures PostsOwned(Posts(v, id, session))
  {
    var v', x := Posts(v, id, session), v.calls[id].lease.value;
    PostBegins(v, id, session);
    assert Lent(v, id);
    forall i | i in v'.calls ensures PostFollowed(v'.gateway.bridge, v'.calls[i]) {
      PostKeepsFollowed(v, id, session, i);
    }
    forall s, l | s in v'.gateway.bridge.objects && l in v'.gateway.bridge.objects[s].posts
      ensures PostKnown(v', s, l)
    {
      assert (s == session && l == x.index) || PostKnown(v, s, l);
    }
  }

  lemma PostKeepsCalls(v: Service, v': Service, id: nat, session: nat)
    requires CallsShaped(v) && RuntimeLeasesOwned(v) && LimitLeasesOwned(v)
    requires id in v.calls && v.calls[id].q.phase == Q.Bridging && v.calls[id].lease.Some?
    requires v'.calls == v.calls[id := v.calls[id].(session := Some(session))]
    requires v'.gateway.world == v.gateway.world && v'.limiter == v.limiter
    requires v'.lessees == v.lessees && v'.payers == v.payers
    ensures CallsShaped(v') && RuntimeLeasesOwned(v') && LimitLeasesOwned(v')
  {
    PostKeepsRuntime(v, v', id, session);
    PostKeepsLimit(v, v', id, session);
  }

  lemma PostKeepsRuntime(v: Service, v': Service, id: nat, session: nat)
    requires RuntimeLeasesOwned(v) && id in v.calls
    requires v'.calls == v.calls[id := v.calls[id].(session := Some(session))]
    requires v'.gateway.world == v.gateway.world && v'.lessees == v.lessees
    ensures RuntimeLeasesOwned(v')
  {
    forall i | i in v'.calls ensures Lent(v', i) {
      assert Lent(v, i);
    }
  }

  lemma PostKeepsLimit(v: Service, v': Service, id: nat, session: nat)
    requires LimitLeasesOwned(v) && id in v.calls
    requires v'.calls == v.calls[id := v.calls[id].(session := Some(session))]
    requires v'.limiter == v.limiter && v'.payers == v.payers
    ensures LimitLeasesOwned(v')
  {
    forall i | i in v'.calls ensures Paid(v', i) {
      assert Paid(v, i);
    }
  }

  lemma PostKeeps(v: Service, id: nat, session: nat)
    requires ServiceSafe(v)
    ensures ServiceSafe(Posts(v, id, session))
  {
    if MayPost(v, id, session) {
      assert CallShape(v.calls[id]);
      hide LeasesLinked, CallsShaped, RuntimeLeasesOwned, LimitLeasesOwned, PostsOwned, AccountedWorld, M.Safe;
      var x := v.calls[id].lease.value;
      PostKeepsPosts(v, id, session);
      PostKeepsCalls(v, Posts(v, id, session), id, session);
      BeginKeepsLinks(v.gateway, session, x.rid, x.index);
    }
  }

  // ------------------------------------------------------ everything else goes on

  function GoneBy(g: Gateway, s: GatewayStep): Option<RuntimeLease> {
    if GivesLeasesBack(g, s) then Some(GivenBack(g, s)) else None
  }

  /** The bridge gives the leases of this call's POST back. */
  predicate Loses(c: Call, gone: Option<RuntimeLease>, at: nat) {
    gone.Some? && c.lease == gone && c.session == Some(at)
  }

  lemma PostsStaySafe(b: G.Bridge, s: nat, l: nat)
    requires G.BridgeSafe(b) && s in b.objects && l in b.objects[s].posts
    ensures B.PostSafe(b.objects[s].posts[l])
  {
    assert B.SessionSafe(b.objects[s]);
  }

  lemma FollowKeeps(c: Call, b: G.Bridge, b': G.Bridge, gone: Option<RuntimeLease>, at: nat)
    requires CallShape(c) && PostFollowed(b, c) && BridgeFollows(b, b', gone, at) && G.BridgeSafe(b')
    ensures var c' := Follow(c, b');
      && CallShape(c') && PostFollowed(b', c')
      && (c'.q.runtimeHeld <==> c.q.runtimeHeld && !Loses(c, gone, at))
      && (c'.q.limitHeld <==> c.q.limitHeld && !(Loses(c, gone, at)))
  {
    if c.session.Some? {
      var s, l := c.session.value, c.lease.value.index;
      assert SessionFollows(b.objects[s], b'.objects[s], gone, s == at);
      PostsStaySafe(b', s, l);
      if c.q.phase == Q.Bridging {
        Q.AfterPostKeeps(c.q, b'.objects[s].posts[l]);
      }
    }
  }

  /** Only the lease that the bridge gives back is released meanwhile. */
  lemma ElsewhereWorld(v: Service, s: GatewayStep, y: RuntimeLease)
    requires Outside(s) && PostsOwned(v) && RuntimeLeasesOwned(v)
    ensures var w, w' := v.gateway.world, ApplyGateway(v.gateway, s).world;
      && (LeaseMade(w', y) <==> LeaseMade(w, y))
      && (LeaseOut(w', y) <==> LeaseOut(w, y) && GoneBy(v.gateway, s) != Some(y))
  {
    if GivesLeasesBack(v.gateway, s) {
      BridgeStepWorld(v.gateway, s);
      GivenBackIsMade(v, s);
      ReleaseWorld(v.gateway.world, GivenBack(v.gateway, s));
    } else if s.OnBridge? {
      BridgeStepWorld(v.gateway, s);
    } else {
      QuietWorld(v.gateway, s);
    }
  }

  /** What the bridge gives back is the lease of exactly one call. */
  lemma GivenBackIsMade(v: Service, s: GatewayStep)
    requires PostsOwned(v) && RuntimeLeasesOwned(v) && GivesLeasesBack(v.gateway, s)
    ensures var x := GivenBack(v.gateway, s);
      && LeaseMade(v.gateway.world, x) && x in v.lessees && v.lessees[x] in v.calls
      && Loses(v.calls[v.lessees[x]], Some(x), StepAt(s))
  {
    var x := GivenBack(v.gateway, s);
    assert PostKnown(v, StepAt(s), x.index);
    assert Lent(v, v.lessees[x]);
  }

  lemma GoesOnCalls(v: Service, s: GatewayStep, id: nat)
    requires LeasesLinked(v.gateway) && CallsShaped(v) && PostsOwned(v) && Outside(s) && id in v.calls
    ensures var c, c' := v.calls[id], GoesOn(v, s).calls[id];
      && CallShape(c') && PostFollowed(GoesOn(v, s).gateway.bridge, c')
      && c'.lease == c.lease && c'.limit == c.limit && c'.session == c.session
      && (c'.q.runtimeHeld <==> c.q.runtimeHeld && !Loses(c, GoneBy(v.gateway, s), StepAt(s)))
      && (c'.q.limitHeld <==> c.q.limitHeld && !(Loses(c, GoneBy(v.gateway, s), StepAt(s))))
  {
    var g := v.gateway;
    assert PostFollowed(g.bridge, v.calls[id]) && CallShape(v.calls[id]) && G.BridgeSafe(g.bridge);
    hide BridgeFollows, PostFollowed, CallShape, CallsShaped, PostsOwned, G.BridgeSafe, LeasesLinked;
    hide Loses, ApplyGateway, GivesLeasesBack, GivenBack, Follow, LimiterAfter, Lent;
    StepKeepsBridgeSafe(g, s);
    StepFollows(g, s);
    FollowKeeps(v.calls[id], g.bridge, ApplyGateway(g, s).bridge, GoneBy(g, s), StepAt(s));
  }

  lemma GoesOnKeepsRuntime(v: Service, s: GatewayStep)
    requires LeasesLinked(v.gateway) && CallsShaped(v) && PostsOwned(v) && RuntimeLeasesOwned(v) && Outside(s)
    ensures RuntimeLeasesOwned(GoesOn(v, s))
  {
    hide LeasesLinked, CallsShaped, PostsOwned, CallShape, PostFollowed;
    var v' := GoesOn(v, s);
    forall id | id in v.calls ensures Lent(v', id) {
      assert Lent(v, id);
      GoesOnCalls(v, s, id);
      LostIsGone(v, s, id);
      if v.calls[id].lease.Some? {
        ElsewhereWorld(v, s, v.calls[id].lease.value);
      }
    }
    forall x | LeaseMade(v'.gateway.world, x) ensures x in v'.lessees {
      ElsewhereWorld(v, s, x);
    }
    forall x | x in v'.lessees ensures v'.calls[v'.lessees[x]].lease == Some(x) {
      GoesOnCalls(v, s, v.lessees[x]);
    }
  }

  /** A call loses its leases exactly when its runtime lease is the one given back. */
  lemma LostIsGone(v: Service, s: GatewayStep, id: nat)
    requires PostsOwned(v) && RuntimeLeasesOwned(v) && id in v.calls
    ensures Loses(v.calls[id], GoneBy(v.gateway, s), StepAt(s)) <==>
      GivesLeasesBack(v.gateway, s) && v.lessees[GivenBack(v.gateway, s)] == id
  {
    assert Lent(v, id);
    if GivesLeasesBack(v.gateway, s) {
      GivenBackIsMade(v, s);
    }
  }

  lemma GoesOnKeepsLimit(v: Service, s: GatewayStep)
    requires LeasesLinked(v.gateway) && CallsShaped(v) && PostsOwned(v) && RuntimeLeasesOwned(v)
    requires LimitLeasesOwned(v) && Outside(s)
    ensures LimitLeasesOwned(GoesOn(v, s))
  {
    hide LeasesLinked, CallsShaped, PostsOwned, CallShape, PostFollowed, RuntimeLeasesOwned, LimiterAfter, Loses;
    var v' := GoesOn(v, s);
    LimiterRepaid(v, s);
    forall id | id in v.calls ensures Paid(v', id) && v'.calls[id].limit == v.calls[id].limit {
      assert Paid(v, id);
      GoesOnCalls(v, s, id);
    }
  }

  /** The limit lease that is released with a POST's runtime lease is the one of its call. */
  lemma LimiterRepaid(v: Service, s: GatewayStep)
    requires PostsOwned(v) && RuntimeLeasesOwned(v) && LimitLeasesOwned(v)
    ensures var l, l' := v.limiter, LimiterAfter(v, s);
      && |l'.leases| == |l.leases|
      && forall id <- v.calls :: v.calls[id].limit.Some? ==>
        var k := v.calls[id].limit.value;
        k < |l.leases| && (l'.leases[k].released <==>
          l.leases[k].released || Loses(v.calls[id], GoneBy(v.gateway, s), StepAt(s)))
  {
    if GivesLeasesBack(v.gateway, s) {
      GivenBackIsMade(v, s);
      assert Paid(v, v.lessees[GivenBack(v.gateway, s)]);
      RepaidLeases(v.limiter, v.calls[v.lessees[GivenBack(v.gateway, s)]].limit);
    }
    forall id | id in v.calls && v.calls[id].limit.Some?
      ensures var k := v.calls[id].limit.value;
        k < |v.limiter.leases| && (LimiterAfter(v, s).leases[k].released <==>
          v.limiter.leases[k].released || Loses(v.calls[id], GoneBy(v.gateway, s), StepAt(s)))
    {
      assert Paid(v, id);
      LostIsGone(v, s, id);
    }
  }

  lemma GoesOnKeepsPosts(v: Service, s: GatewayStep)
    requires LeasesLinked(v.gateway) && CallsShaped(v) && PostsOwned(v) && RuntimeLeasesOwned(v) && Outside(s)
    ensures PostsOwned(GoesOn(v, s)) && CallsShaped(GoesOn(v, s))
  {
    hide CallShape, PostFollowed, RuntimeLeasesOwned, G.BridgeSafe;
    var v' := GoesOn(v, s);
    forall id | id in v.calls
      ensures CallShape(v'.calls[id]) && PostFollowed(v'.gateway.bridge, v'.calls[id])
      ensures v'.calls[id].session == v.calls[id].session
    {
      GoesOnCalls(v, s, id);
    }
    StepFollows(v.gateway, s);
    forall t, l | t in v'.gateway.bridge.objects && l in v'.gateway.bridge.objects[t].posts
      ensures PostKnown(v', t, l)
    {
      var b, b' := v.gateway.bridge, v'.gateway.bridge;
      assert SessionFollows(b.objects[t], b'.objects[t], GoneBy(v.gateway, s), t == StepAt(s));
      assert PostKnown(v, t, l);
    }
  }

  lemma GoesOnKeeps(v: Service, s: GatewayStep)
    requires ServiceSafe(v)
    ensures ServiceSafe(GoesOn(v, s))
  {
    if Outside(s) {
      hide LeasesLinked, CallsShaped, RuntimeLeasesOwned, LimitLeasesOwned, PostsOwned, AccountedWorld, M.Safe;
      OutsideKeepsLinks(v.gateway, s);
      OutsideKeepsAccounts(v.gateway, s);
      GoesOnKeepsRuntime(v, s);
      GoesOnKeepsLimit(v, s);
      GoesOnKeepsPosts(v, s);
      if LimiterAfter(v, s) != v.limiter {
        RepaidSafe(v.limiter, v.calls[v.lessees[GivenBack(v.gateway, s)]].limit);
      }
    }
  }

  // ------------------------------------------------------------------- all runs

  lemma StepKeepsService(v: Service, s: ServiceStep)
    requires ServiceSafe(v)
    ensures ServiceSafe(ApplyService(v, s))
  {
    hide ServiceSafe;
    match s
    case Arrive(id, e, tool, now) => ArriveKeeps(v, id, e, tool, now);
    case Grant(id, rid, route) => GrantKeeps(v, id, rid, route);
    case Post(id, session) => PostKeeps(v, id, session);
    case Proceed(id, t) => ProceedKeeps(v, id, t);
    case Elsewhere(t) => GoesOnKeeps(v, t);
  }

  function RunService(v: Service, steps: seq<ServiceStep>): Service
    decreases |steps|
  {
    if steps == [] then v else RunService(ApplyService(v, steps[0]), steps[1..])
  }

  lemma {:induction false} RunKeepsService(v: Service, steps: seq<ServiceStep>)
    requires ServiceSafe(v)
    ensures ServiceSafe(RunService(v, steps))
    decreases |steps|
  {
    hide ServiceSafe, ApplyService;
    if steps != [] {
      StepKeepsService(v, steps[0]);
      RunKeepsService(ApplyService(v, steps[0]), steps[1..]);
    }
  }

  lemma InitiallyOwned()
    ensures ServiceSafe(EmptyService)
  {
  }

  lemma ReachedIsOwned(steps: seq<ServiceStep>)
    ensures ServiceSafe(RunService(EmptyService, steps))
  {
    hide ServiceSafe;
    InitiallyOwned();
    RunKeepsService(EmptyService, steps);
  }

  /** Who has the leases of a call: the request itself, its streaming body, or its response task. */
  ghost predicate HasRuntimeLease(v: Service, id: nat, rid: Rid, l: nat) {
    id in v.calls && v.calls[id].lease == Some(RuntimeLease(rid, l)) && Q.OwnerOf(v.calls[id].q) != Q.Nobody
  }

  ghost predicate HasLimitLease(v: Service, id: nat, k: nat) {
    id in v.calls && v.calls[id].limit == Some(k) && Q.OwnerOf(v.calls[id].q) != Q.Nobody
  }

  /** In every run of the service, abandoned starts and lost marks included: a runtime lease is out if and
      only if a call has it, and no two calls have the same one. */
  lemma RuntimeLeaseHasOneOwner(steps: seq<ServiceStep>, rid: Rid, l: nat)
    requires rid in RunService(EmptyService, steps).gateway.world.objects
    requires l < |RunService(EmptyService, steps).gateway.world.objects[rid].leases|
    ensures var v := RunService(EmptyService, steps);
      && (!v.gateway.world.objects[rid].leases[l] <==> exists id :: HasRuntimeLease(v, id, rid, l))
      && forall i, j :: HasRuntimeLease(v, i, rid, l) && HasRuntimeLease(v, j, rid, l) ==> i == j
  {
    ReachedIsOwned(steps);
    RuntimeOwner(RunService(EmptyService, steps), rid, l);
  }

  lemma RuntimeOwner(v: Service, rid: Rid, l: nat)
    requires RuntimeLeasesOwned(v) && CallsShaped(v)
    requires rid in v.gateway.world.objects && l < |v.gateway.world.objects[rid].leases|
    ensures !v.gateway.world.objects[rid].leases[l] <==> exists id :: HasRuntimeLease(v, id, rid, l)
    ensures forall i, j :: HasRuntimeLease(v, i, rid, l) && HasRuntimeLease(v, j, rid, l) ==> i == j
  {
    var x := RuntimeLease(rid, l);
    assert LeaseMade(v.gateway.world, x);
    var id := v.lessees[x];
    assert Lent(v, id) && CallShape(v.calls[id]);
    HeldMeansOwned(v.calls[id]);
    assert HasRuntimeLease(v, id, rid, l) <==> LeaseOut(v.gateway.world, x);
    forall i | HasRuntimeLease(v, i, rid, l) ensures i == id { assert Lent(v, i); }
  }

  /** A call that was handed a runtime lease holds it while it has an owner for it. */
  lemma HeldMeansOwned(c: Call)
    requires CallShape(c)
    ensures c.lease.Some? ==> (c.q.runtimeHeld <==> Q.OwnerOf(c.q) != Q.Nobody)
    ensures c.q.limitHeld <==> Q.OwnerOf(c.q) != Q.Nobody
  {
  }

  /** And so it is with every limit lease. */
  lemma LimitLeaseHasOneOwner(steps: seq<ServiceStep>, k: nat)
    requires k < |RunService(EmptyService, steps).limiter.leases|
    ensures var v := RunService(EmptyService, steps);
      && (!v.limiter.leases[k].released <==> exists id :: HasLimitLease(v, id, k))
      && forall i, j :: HasLimitLease(v, i, k) && HasLimitLease(v, j, k) ==> i == j
  {
    ReachedIsOwned(steps);
    LimitOwner(RunService(EmptyService, steps), k);
  }

  lemma LimitOwner(v: Service, k: nat)
    requires LimitLeasesOwned(v) && CallsShaped(v) && k < |v.limiter.leases|
    ensures !v.limiter.leases[k].released <==> exists id :: HasLimitLease(v, id, k)
    ensures forall i, j :: HasLimitLease(v, i, k) && HasLimitLease(v, j, k) ==> i == j
  {
    var id := v.payers[k];
    assert Paid(v, id) && CallShape(v.calls[id]);
    HeldMeansOwned(v.calls[id]);
    assert HasLimitLease(v, id, k) <==> !v.limiter.leases[k].released;
    forall i | HasLimitLease(v, i, k) ensures i == id { assert Paid(v, i); }
  }

  // ------------------------------------------------------------------- the counters

  /** The calls that hold a lease of the runtime, among its first `n`. */
  function Borrowers(v: Service, rid: Rid, n: nat): set<nat> {
    set id | id in v.calls && v.calls[id].q.runtimeHeld && v.calls[id].lease.Some?
             && v.calls[id].lease.value.rid == rid && v.calls[id].lease.value.index < n
  }

  lemma BorrowersStep(v: Service, rid: Rid, n: nat)
    requires RuntimeLeasesOwned(v) && rid in v.gateway.world.objects
    requires n < |v.gateway.world.objects[rid].leases|
    ensures var x := RuntimeLease(rid, n);
      && x in v.lessees && v.lessees[x] !in Borrowers(v, rid, n)
      && Borrowers(v, rid, n + 1) ==
         Borrowers(v, rid, n) + (if LeaseOut(v.gateway.world, x) then {v.lessees[x]} else {})
  {
    var x := RuntimeLease(rid, n);
    assert LeaseMade(v.gateway.world, x);
    assert Lent(v, v.lessees[x]);
    forall id | id in Borrowers(v, rid, n + 1) && id !in Borrowers(v, rid, n) ensures id == v.lessees[x] {
      assert Lent(v, id);
    }
  }

  lemma {:induction false} BorrowersCounted(v: Service, rid: Rid, n: nat)
    requires RuntimeLeasesOwned(v) && rid in v.gateway.world.objects
    requires n <= |v.gateway.world.objects[rid].leases|
    ensures |Borrowers(v, rid, n)| == Unreleased(v.gateway.world.objects[rid].leases[..n])
  {
    var leases := v.gateway.world.objects[rid].leases;
    if n == 0 {
      assert Borrowers(v, rid, 0) == {};
    } else {
      BorrowersCounted(v, rid, n - 1);
      BorrowersStep(v, rid, n - 1);
      assert leases[..n][..n - 1] == leases[..n - 1];
    }
  }

  /** In every run of the service: the counter that a drain and the idle checker wait for is the number of
      requests, streaming bodies and response tasks that hold a lease of the runtime. */
  lemma ActiveLeasesCountOwners(steps: seq<ServiceStep>, rid: Rid)
    requires rid in RunService(EmptyService, steps).gateway.world.objects
    ensures var v := RunService(EmptyService, steps);
      v.gateway.world.objects[rid].activeLeases ==
      |set id | id in v.calls && Q.OwnerOf(v.calls[id].q) != Q.Nobody
                && v.calls[id].lease.Some? && v.calls[id].lease.value.rid == rid|
  {
    ReachedIsOwned(steps);
    CountsOwners(RunService(EmptyService, steps), rid);
  }

  lemma CountsOwners(v: Service, rid: Rid)
    requires AccountedWorld(v.gateway.world) && CallsShaped(v) && RuntimeLeasesOwned(v)
    requires rid in v.gateway.world.objects
    ensures v.gateway.world.objects[rid].activeLeases ==
      |set id | id in v.calls && Q.OwnerOf(v.calls[id].q) != Q.Nobody
                && v.calls[id].lease.Some? && v.calls[id].lease.value.rid == rid|
  {
    var r := v.gateway.world.objects[rid];
    BorrowersCounted(v, rid, |r.leases|);
    assert Accounted(r) && r.leases[..|r.leases|] == r.leases;
    OwnersBorrow(v, rid);
  }

  lemma OwnersBorrow(v: Service, rid: Rid)
    requires RuntimeLeasesOwned(v) && CallsShaped(v)
    requires rid in v.gateway.world.objects
    ensures Borrowers(v, rid, |v.gateway.world.objects[rid].leases|) ==
      set id | id in v.calls && Q.OwnerOf(v.calls[id].q) != Q.Nobody
               && v.calls[id].lease.Some? && v.calls[id].lease.value.rid == rid
  {
    forall id | id in v.calls
      ensures v.calls[id].lease.Some? && v.calls[id].lease.value.rid == rid ==>
        v.calls[id].lease.value.index < |v.gateway.world.objects[rid].leases|
        && (v.calls[id].q.runtimeHeld <==> Q.OwnerOf(v.calls[id].q) != Q.Nobody)
    {
      assert Lent(v, id) && CallShape(v.calls[id]);
      HeldMeansOwned(v.calls[id]);
    }
  }

  /** The calls that hold a limit lease which lists the key, among the first `n`. */
  function Spenders(v: Service, key: string, n: nat): set<nat>
    requires n <= |v.limiter.leases|
  {
    set id | id in v.calls && v.calls[id].q.limitHeld && v.calls[id].limit.Some?
             && v.calls[id].limit.value < n && key in v.limiter.leases[v.calls[id].limit.value].keys
  }

  lemma SpendersStep(v: Service, key: string, n: nat)
    requires LimitLeasesOwned(v) && n < |v.limiter.leases|
    ensures v.payers[n] !in Spenders(v, key, n)
    ensures Spenders(v, key, n + 1) == Spenders(v, key, n) +
      (if !v.limiter.leases[n].released && key in v.limiter.leases[n].keys then {v.payers[n]} else {})
  {
    assert Paid(v, v.payers[n]);
    forall id | id in Spenders(v, key, n + 1) && id !in Spenders(v, key, n) ensures id == v.payers[n] {
      assert Paid(v, id);
    }
  }

  lemma {:induction false} SpendersCounted(v: Service, key: string, n: nat)
    requires LimitLeasesOwned(v) && n <= |v.limiter.leases|
    ensures |Spenders(v, key, n)| == M.Held(v.limiter.leases[..n], key)
  {
    var leases := v.limiter.leases;
    if n == 0 {
      assert Spenders(v, key, 0) == {};
    } else {
      SpendersCounted(v, key, n - 1);
      SpendersStep(v, key, n - 1);
      assert leases[..n][..n - 1] == leases[..n - 1];
    }
  }

  /** In every run of the service: the counter of a limit's bucket is the number of calls that hold a
      limit lease listing its key. */
  lemma LimitCountsOwners(steps: seq<ServiceStep>, key: string)
    ensures var v := RunService(EmptyService, steps);
      M.At(v.limiter.buckets, key).active == |Spenders(v, key, |v.limiter.leases|)|
    ensures var v := RunService(EmptyService, steps);
      forall id <- v.calls :: v.calls[id].q.limitHeld <==> Q.OwnerOf(v.calls[id].q) != Q.Nobody
  {
    ReachedIsOwned(steps);
    SpendersAll(RunService(EmptyService, steps), key);
  }

  lemma SpendersAll(v: Service, key: string)
    requires M.Safe(v.limiter) && LimitLeasesOwned(v) && CallsShaped(v)
    ensures M.At(v.limiter.buckets, key).active == |Spenders(v, key, |v.limiter.leases|)|
    ensures forall id <- v.calls :: v.calls[id].q.limitHeld <==> Q.OwnerOf(v.calls[id].q) != Q.Nobody
  {
    SpendersCounted(v, key, |v.limiter.leases|);
    assert M.Refines(v.limiter, key) && v.limiter.leases[..|v.limiter.leases|] == v.limiter.leases;
    forall id | id in v.calls ensures v.calls[id].q.limitHeld <==> Q.OwnerOf(v.calls[id].q) != Q.Nobody {
      assert CallShape(v.calls[id]);
      HeldMeansOwned(v.calls[id]);
    }
  }

  // -------------------------------------------------------------- leases are handed out

  /** A request that the limiter grants has a limit lease, and one that it refuses is over. */
  lemma ArrivalIsDecided(v: Service, id: nat, e: M.Endpoint, tool: Option<string>, now: real)
    requires id !in v.calls && now >= v.limiter.clock
    ensures var outcome, v' := M.Acquire(v.limiter, M.ActiveSpecs(e, tool), now).1, Arrives(v, id, e, tool, now);
      && id in v'.calls && (outcome.Granted? ==> HasLimitLease(v', id, |v.limiter.leases|))
      && (v'.calls[id].q.phase == Q.Finished <==> outcome.Refused?)
  {
  }

  /** One that is activated has a lease of its runtime, whenever that grants leases. */
  lemma ActivationIsGranted(v: Service, id: nat, rid: Rid, route: Q.Route)
    requires CallsShaped(v) && id in v.calls && v.calls[id].q.phase == Q.Activating
    requires rid in v.gateway.world.objects && CanLease(v.gateway.world.objects[rid])
    ensures HasRuntimeLease(Grants(v, id, rid, route), id, rid, |v.gateway.world.objects[rid].leases|)
  {
    hide Q.Safe, Advance;
  }

  /** One whose session is open has its POST there. */
  lemma PostIsBegun(v: Service, id: nat, session: nat)
    requires MayPost(v, id, session)
    ensures var v', l := Posts(v, id, session), v.calls[id].lease.value.index;
      && v'.calls[id].session == Some(session) && session in v'.gateway.bridge.objects
      && l in v'.gateway.bridge.objects[session].posts && v'.gateway.bridge.objects[session].posts[l] == B.FreshPost
  {
    PostBegins(v, id, session);
  }

  /** What a request does by itself it can always do: it activates, is answered early, refused or proxied,
      streams and finishes; only `handle_post` can refuse for it, before it has found a session. No other
      request is touched. */
  lemma RequestsProceed(v: Service, id: nat, s: Q.Step)
    requires id in v.calls
    ensures var v', c := Proceeds(v, id, s), v.calls[id];
      && (s.Activate? || s.AnswerEarly? || s.OpenSession? || s.ProxyingEnds? || s.BridgeEnds?
          || s.ReadBody? || s.StopBody? || s.CloseBody? || (s.ActivationEnds? && !s.outcome.Granted?)
          ==> v'.calls[id].q == Q.Apply(c.q, s))
      && (s.Refuse? ==> v'.calls[id].q == if c.session.None? then Q.Apply(c.q, s) else c.q)
      && v'.calls.Keys == v.calls.Keys && forall x <- v.calls :: x != id ==> v'.calls[x] == v.calls[x]
  {
    hide Q.Apply, Repaid, Returned;
  }

  /** So can the rest of the gateway, whose steps hand out no leases. */
  lemma GatewayGoesOn(v: Service, s: GatewayStep)
    requires !s.BeginPost? && !(s.OnRuntime? && s.step.Serves?)
    ensures GoesOn(v, s).gateway == ApplyGateway(v.gateway, s) && GoesOn(v, s).calls.Keys == v.calls.Keys
  {
    hide ApplyGateway, LimiterAfter, Follow;
  }
}
