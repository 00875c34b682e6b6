/** What the gateway's steps bring about: openings and POSTs where they are allowed, and drains that can be
    finished. */
module GatewayProgress {
  import opened Common
  import opened Lifecycle
  import opened LifecycleSafety
  import opened Reload
  import opened Recovery
  import opened Gateway
  import opened GatewayLeases
  import B = BridgeSession
  import G = LegacyBridge

  /** A session is opened on a runtime that is not DRAINING whenever its endpoint has a bridge and fewer
      sessions than it may have, and not otherwise. */
  lemma OpensIff(g: Gateway, id: nat, rid: Rid, greeting: string)
    requires id !in g.bridge.objects && rid in g.world.objects
    ensures var r := g.world.objects[rid];
      id in Opens(g, id, rid, greeting).bridge.objects <==>
      r.state != DRAINING && r.config.bridge.Some? && |G.Active(g.bridge, rid.path)| < r.config.bridge.value.maxSessions
  {
    G.OpenAdmits(g.bridge, id, rid.path, rid, g.world.objects[rid].config.bridge, greeting);
  }

  /** The gateway takes every step of a runtime as it is, except the three that the bridge answers for: the
      marks of a drain and the last await of its termination have steps of their own, and a lease that a
      POST has comes back with that POST. */
  lemma RuntimeStepsGoThrough(g: Gateway, rid: Rid, t: Step)
    requires rid in g.world.objects
    ensures
      (t.Starts? || t.Loops? || t.Monitors? || t.Idles? || t == Serves(Acquire)
       || (t.Fails? && (!t.fail.Terminate? || !EndsDrain(g.world.objects[rid])))
       || t == Drains(LeasesDone) || t == Drains(DrainStop)) ==>
      ApplyGateway(g, GatewayStep.OnRuntime(rid, t)) == g.(world := At(g.world, rid, t))
    ensures t.Serves? && t.serve.Release? ==>
      ApplyGateway(g, GatewayStep.OnRuntime(rid, t)) ==
        if exists id <- g.bridge.objects ::
          g.bridge.objects[id].runtime == rid && t.serve.lease in g.bridge.objects[id].posts
        then g else g.(world := At(g.world, rid, t))
  {
    if t.Serves? && t.serve.Release? {
      assert Used(g.bridge, rid, t.serve.lease) <==>
        exists id :: id in g.bridge.objects && Of(g.bridge, id, rid) && t.serve.lease in g.bridge.objects[id].posts;
    }
  }

  /** The gateway takes every step of the bridge as it is, except that it opens sessions and begins POSTs in
      steps of its own, that the close of a drain belongs to the drain, and that a POST is published as the
      state of its runtime requires: rejected exactly while that is DRAINING. */
  lemma BridgeStepsGoThrough(g: Gateway, t: G.BridgeStep)
    ensures t.EndByTask? || t.Expire? || t.FindExpired? || t.StartClose? || (t.Within? && !t.step.Works?) ==>
      ApplyGateway(g, OnBridge(t)).bridge == G.Apply(g.bridge, t)
    ensures t.Within? && t.step.Works? && (t.step.work.OnPost? || t.step.work.Put? || t.step.work.Unblock?) ==>
      ApplyGateway(g, OnBridge(t)).bridge == G.Apply(g.bridge, t)
    ensures t.FinishClose? && t.id in g.bridge.objects && B.MayLeave(g.bridge.objects[t.id]) ==>
      ApplyGateway(g, OnBridge(t)) ==
        if g.bridge.objects[t.id].cleanup.who == B.Drainer then g else g.(bridge := G.Leave(g.bridge, t.id))
    ensures
      (t.Within? && t.step.Works? && t.step.work.PublishPost? && t.id in g.bridge.objects
       && g.bridge.objects[t.id].runtime in g.world.objects) ==>
      if t.step.work.draining == (g.world.objects[g.bridge.objects[t.id].runtime].state == DRAINING)
      then ApplyGateway(g, OnBridge(t)).bridge == G.Apply(g.bridge, t)
      else ApplyGateway(g, OnBridge(t)) == g
  {
    hide G.Apply, WorldAfter;
    if t.FinishClose? && t.id in g.bridge.objects && B.MayLeave(g.bridge.objects[t.id]) {
      FinishMoves(g, t.id);
    }
  }

  lemma FinishMoves(g: Gateway, id: nat)
    requires id in g.bridge.objects && B.MayLeave(g.bridge.objects[id])
    ensures ApplyGateway(g, OnBridge(G.FinishClose(id))) ==
      if g.bridge.objects[id].cleanup.who == B.Drainer then g else g.(bridge := G.Leave(g.bridge, id))
  {
  }

  /** A POST begins on an open session of its runtime with a lease that is out and that no POST has yet. */
  lemma PostBeginsIff(g: Gateway, id: nat, rid: Rid, l: nat)
    requires Of(g.bridge, id, rid) && !Used(g.bridge, rid, l) && !g.bridge.objects[id].closed
    ensures l in BeginsPost(g, id, rid, l).bridge.objects[id].posts <==>
      rid in g.world.objects && l < |g.world.objects[rid].leases| && !g.world.objects[rid].leases[l]
  {
  }

  /** A session that the drain has closed is taken off its list and disowned. */
  lemma ClosedIsPopped(g: Gateway, rid: Rid, id: nat)
    requires rid in g.closing && id in g.closing[rid] && ClosedByDrain(g.bridge, id)
    ensures var g' := ClosesOne(g, rid, id);
      g'.closing[rid] == g.closing[rid] - {id} && id !in g'.bridge.owned && g'.world == g.world
  {
  }

  // ------------------------------------------------------------------- a drain

  /** Only the mark of a drain changes what it waits for. */
  lemma AwaitedStays(g: Gateway, s: GatewayStep, rid: Rid)
    requires s != MarkDrain(rid) && rid in g.awaited
    ensures rid in ApplyGateway(g, s).awaited && ApplyGateway(g, s).awaited[rid] == g.awaited[rid]
  {
  }

  lemma {:induction false} RunKeepsAwaited(g: Gateway, steps: seq<GatewayStep>, rid: Rid)
    requires rid in g.awaited && forall s <- steps :: s != MarkDrain(rid)
    ensures rid in RunGateway(g, steps).awaited && RunGateway(g, steps).awaited[rid] == g.awaited[rid]
    decreases |steps|
  {
    hide ApplyGateway;
    if steps != [] {
      assert steps[0] in steps && forall s <- steps[1..] :: s in steps;
      AwaitedStays(g, steps[0], rid);
      RunKeepsAwaited(ApplyGateway(g, steps[0]), steps[1..], rid);
    }
  }

  /** In every run after the mark of a drain: the drain goes on only when each expiry, setup and response
      task of the runtime's sessions that was unfinished at the mark is over. */
  lemma DrainWaitsForTasks(g: Gateway, rid: Rid, steps: seq<GatewayStep>, id: nat)
    requires DrainsAt(g, rid, Requested) && g.world.objects[rid].section == Free && Of(g.bridge, id, rid)
    requires forall s <- steps :: s != MarkDrain(rid)
    ensures var g' := RunGateway(ApplyGateway(g, MarkDrain(rid)), steps);
      ApplyGateway(g', LegacyAwaited(rid)) != g' && Of(g'.bridge, id, rid) ==>
        var s, s' := g.bridge.objects[id], g'.bridge.objects[id];
        && (s.expiry != B.Ended ==> s'.expiry == B.Ended)
        && forall l <- s.posts :: l in s'.posts ==>
          (s.posts[l].setup ==> !s'.posts[l].setup) && (s.posts[l].response.Task? ==> !s'.posts[l].response.Task?)
  {
    var m := ApplyGateway(g, MarkDrain(rid));
    assert m.awaited[rid] == LegacyTasks(g.bridge, rid);
    RunKeepsAwaited(m, steps, rid);
    var g' := RunGateway(m, steps);
    if ApplyGateway(g', LegacyAwaited(rid)) != g' && Of(g'.bridge, id, rid) {
      TrackedTasks(g.bridge, rid, id);
      TasksOver(g', rid, m.awaited[rid]);
    }
  }

  lemma TrackedTasks(b: G.Bridge, rid: Rid, id: nat)
    requires Of(b, id, rid)
    ensures var s := b.objects[id];
      && (s.expiry != B.Ended ==> ExpiryOf(id) in LegacyTasks(b, rid))
      && forall l <- s.posts ::
        && (s.posts[l].setup ==> SetupOf(id, l) in LegacyTasks(b, rid))
        && (s.posts[l].response.Task? ==> ResponseOf(id, l) in LegacyTasks(b, rid))
  {
  }

  lemma TasksOver(g: Gateway, rid: Rid, tasks: set<Task>)
    requires rid in g.awaited && g.awaited[rid] == tasks && ApplyGateway(g, LegacyAwaited(rid)) != g
    ensures forall t <- tasks :: !Unfinished(g.bridge, rid, t)
  {
  }

  /** The runtime has come to `r`, and the bridge is where it was. */
  ghost predicate Stands(g: Gateway, g': Gateway, rid: Rid, r: Runtime) {
    rid in g'.world.objects && g'.world.objects[rid] == r && g'.bridge == g.bridge
  }

  lemma OwnAdvances(g: Gateway, rid: Rid, t: Step)
    requires rid in g.world.objects && OwnStep(g, rid, t)
    ensures Stands(g, ApplyGateway(g, GatewayStep.OnRuntime(rid, t)), rid, Apply(g.world.objects[rid], t))
  {
  }

  lemma {:induction false} RunSnoc(g: Gateway, steps: seq<GatewayStep>, s: GatewayStep)
    ensures RunGateway(g, steps + [s]) == ApplyGateway(RunGateway(g, steps), s)
    decreases |steps|
  {
    hide ApplyGateway;
    if steps == [] {
      assert steps + [s] == [s] && [s][1..] == [];
      assert RunGateway(ApplyGateway(g, s), []) == ApplyGateway(g, s);
    } else {
      assert (steps + [s])[1..] == steps[1..] + [s];
      RunSnoc(ApplyGateway(g, steps[0]), steps[1..], s);
    }
  }

  lemma Next(g0: Gateway, g: Gateway, steps: seq<GatewayStep>, s: GatewayStep)
    returns (g': Gateway, steps': seq<GatewayStep>)
    requires g == RunGateway(g0, steps)
    ensures g' == ApplyGateway(g, s) == RunGateway(g0, steps')
  {
    RunSnoc(g0, steps, s);
    g', steps' := ApplyGateway(g, s), steps + [s];
  }

  /** A drain of a runtime without leases, compatibility tasks or sessions can be finished: the mark, the
      waits, the termination and the close of the endpoint each find what they wait for. */
  lemma QuietDrainCompletes(g0: Gateway, rid: Rid) returns (steps: seq<GatewayStep>)
    requires DrainsAt(g0, rid, Requested) && LegacyTasks(g0.bridge, rid) == {}
    requires G.EndpointSessions(g0.bridge, rid.path) == {}
    requires g0.world.objects[rid].section == Free && g0.world.objects[rid].activeLeases == 0
    ensures DrainsAt(RunGateway(g0, steps), rid, Done)
  {
    hide ApplyGateway, LegacyTasks, G.EndpointSessions;
    var r := g0.world.objects[rid];
    var t := r.(state := DRAINING, drain := Stopping, section := Terminating(ByDrain, DRAINING, EndLoop));
    var g;
    g, steps := DrainToStop(g0, rid);
    g, steps := Terminates(g0, g, steps, rid, t);
    TerminatedCloses(g, rid);
    g, steps := Next(g0, g, steps, DrainTerminated(rid));
    NothingToClose(g, rid);
    g, steps := Next(g0, g, steps, DrainClosed(rid));
  }

  lemma DrainToStop(g0: Gateway, rid: Rid) returns (g: Gateway, steps: seq<GatewayStep>)
    requires DrainsAt(g0, rid, Requested) && LegacyTasks(g0.bridge, rid) == {}
    requires g0.world.objects[rid].section == Free && g0.world.objects[rid].activeLeases == 0
    ensures g == RunGateway(g0, steps)
    ensures var r := g0.world.objects[rid];
      Stands(g0, g, rid, r.(state := DRAINING, drain := Stopping, section := Terminating(ByDrain, DRAINING, EndLoop)))
  {
    hide ApplyGateway, LegacyTasks;
    var s := g0.world.objects[rid].(state := DRAINING, drain := LegacyGone);
    Marked(g0, rid);
    g, steps := Next(g0, g0, [], MarkDrain(rid));
    NothingAwaited(g, rid);
    g, steps := Next(g0, g, steps, LegacyAwaited(rid));
    assert Stands(g0, g, rid, s);
    LeasesAreGone(g, rid);
    g, steps := Next(g0, g, steps, GatewayStep.OnRuntime(rid, Drains(LeasesDone)));
    StopsDrain(g, rid);
    g, steps := Next(g0, g, steps, GatewayStep.OnRuntime(rid, Drains(DrainStop)));
  }

  lemma NothingAwaited(g: Gateway, rid: Rid)
    requires DrainsAt(g, rid, Lifecycle.Marked) && rid in g.awaited && g.awaited[rid] == {}
    ensures Stands(g, ApplyGateway(g, LegacyAwaited(rid)), rid, g.world.objects[rid].(drain := LegacyGone))
  {
  }

  lemma LeasesAreGone(g: Gateway, rid: Rid)
    requires DrainsAt(g, rid, LegacyGone) && g.world.objects[rid].activeLeases == 0
    ensures Stands(g, ApplyGateway(g, GatewayStep.OnRuntime(rid, Drains(LeasesDone))), rid,
      g.world.objects[rid].(drain := LeasesGone))
  {
  }

  lemma StopsDrain(g: Gateway, rid: Rid)
    requires DrainsAt(g, rid, LeasesGone) && g.world.objects[rid].section == Free
    ensures Stands(g, ApplyGateway(g, GatewayStep.OnRuntime(rid, Drains(DrainStop))), rid,
      g.world.objects[rid].(drain := Stopping, section := Terminating(ByDrain, DRAINING, EndLoop)))
  {
  }

  lemma TerminatedCloses(g: Gateway, rid: Rid)
    requires rid in g.world.objects && EndsDrain(g.world.objects[rid])
    ensures var g' := ApplyGateway(g, DrainTerminated(rid));
      DrainsAt(g', rid, Closing) && rid in g'.closing && g'.closing[rid] == G.EndpointSessions(g.bridge, rid.path)
  {
    TerminateKeepsTerms(g.world.objects[rid]);
  }

  lemma NothingToClose(g: Gateway, rid: Rid)
    requires DrainsAt(g, rid, Closing) && rid in g.closing && g.closing[rid] == {}
    ensures DrainsAt(ApplyGateway(g, DrainClosed(rid)), rid, Done)
  {
  }

  lemma Marked(g: Gateway, rid: Rid)
    requires DrainsAt(g, rid, Requested) && g.world.objects[rid].section == Free && LegacyTasks(g.bridge, rid) == {}
    ensures var g' := ApplyGateway(g, MarkDrain(rid));
      Stands(g, g', rid, g.world.objects[rid].(state := DRAINING, drain := Lifecycle.Marked))
      && rid in g'.awaited && g'.awaited[rid] == {}
  {
  }

  /** The first three awaits of the drain's termination. */
  lemma Terminates(g0: Gateway, g1: Gateway, before: seq<GatewayStep>, rid: Rid, t: Runtime)
    returns (g: Gateway, steps: seq<GatewayStep>)
    requires g1 == RunGateway(g0, before) && Stands(g0, g1, rid, t)
    requires t.section == Terminating(ByDrain, DRAINING, EndLoop) && t.drain == Stopping
    ensures g == RunGateway(g0, steps) && rid in g.world.objects && g.bridge == g0.bridge
    ensures EndsDrain(g.world.objects[rid]) && g.world.objects[rid].drain == Stopping
  {
    g, steps := g1, before;
    var r := t;
    for i := 0 to 3
      invariant g == RunGateway(g0, steps) && Stands(g0, g, rid, r) && r.drain == Stopping
      invariant r.section == Terminating(ByDrain, DRAINING, [EndLoop, EndMonitor, EndProcess, EndLogs][i])
    {
      AwaitPasses(r);
      TerminateKeepsTerms(r);
      OwnAdvances(g, rid, Fails(Terminate));
      g, steps := Next(g0, g, steps, GatewayStep.OnRuntime(rid, Fails(Terminate)));
      r := TerminateStep(r);
    }
  }
}
