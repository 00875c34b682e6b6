/** The registry and the bridge together, over single steps and over whole runs: a runtime that left
    the registry has nothing left on either side, leases are counted alike on both, and session limits
    follow the configuration in force. */
module GatewaySafety {
  import opened Common
  import opened Lifecycle
  import opened LifecycleSafety
  import opened Reload
  import opened Gateway
  import B = BridgeSession
  import G = LegacyBridge

  lemma InitiallySafe()
    ensures GatewaySafe(EmptyGateway)
  {
    assert WorldSafe(EmptyWorld);
  }

  // --------------------------------------------------------- when the world moves

  /** What a world step may do to the runtimes that sessions and drains refer to. */
  ghost predicate PhaseStays(d: Drain, d': Drain) {
    || d' == d
    || (Rank(d) <= 1 && Rank(d') <= 1)
    || (3 <= Rank(d) <= 5 && 3 <= Rank(d') <= 5)
  }

  ghost predicate RuntimeMoves(r: Runtime, r': Runtime, b: G.Bridge, rid: Rid) {
    PhaseStays(r.drain, r'.drain) && LeasesMove(r, r', b, rid)
  }

  /** The leases of POSTs stay as they are. */
  ghost predicate LeasesMove(r: Runtime, r': Runtime, b: G.Bridge, rid: Rid) {
    && |r.leases| <= |r'.leases|
    && forall l: nat :: l < |r.leases| && Used(b, rid, l) ==> r'.leases[l] == r.leases[l]
  }

  ghost predicate WorldLeasesMove(w: World, w': World, b: G.Bridge) {
    forall rid <- w.objects :: rid in w'.objects && LeasesMove(w.objects[rid], w'.objects[rid], b, rid)
  }

  ghost predicate WorldMoves(w: World, w': World, b: G.Bridge) {
    && (forall rid <- w.objects :: rid in w'.objects && RuntimeMoves(w.objects[rid], w'.objects[rid], b, rid))
    && (forall rid <- w'.objects :: rid in w.objects || w'.objects[rid].drain == NotDrained)
  }

  lemma MoveKeepsDrains(g: Gateway, w': World)
    requires DrainsLinked(g) && WorldMoves(g.world, w', g.bridge)
    ensures DrainsLinked(g.(world := w'))
  {
    forall rid | rid in w'.objects ensures DrainLinked(g.(world := w'), rid) {
      if rid in g.world.objects {
        assert DrainLinked(g, rid) && PhaseStays(g.world.objects[rid].drain, w'.objects[rid].drain);
      }
    }
  }

  lemma MoveKeepsPosts(w: World, w': World, b: G.Bridge)
    requires PathsLinked(w, b) && PostsLinked(w, b) && WorldLeasesMove(w, w', b)
    ensures PathsLinked(w', b) && PostsLinked(w', b)
  {
    forall id, l | id in b.objects && l in b.objects[id].posts ensures PostLinked(w', b, id, l) {
      assert PostLinked(w, b, id, l) && Used(b, b.objects[id].runtime, l);
    }
  }

  lemma OwnStepMoves(g: Gateway, rid: Rid, t: Step)
    requires rid in g.world.objects && OwnStep(g, rid, t)
    ensures RuntimeMoves(g.world.objects[rid], Apply(g.world.objects[rid], t), g.bridge, rid)
  {
    var r := g.world.objects[rid];
    StepKeepsTerms(r, t);
    match t
    case Drains(d) => PhasesMove(r, d);
    case Serves(u) => ServeMoves(r, u);
    case _ =>
  }

  lemma PhasesMove(r: Runtime, d: DrainStep)
    requires d == LeasesDone || d == DrainStop
    ensures PhaseStays(r.drain, ApplyDrain(r, d).drain)
  {
  }

  lemma ServeMoves(r: Runtime, s: ServeStep)
    ensures ApplyServe(r, s).drain == r.drain && |r.leases| <= |ApplyServe(r, s).leases|
    ensures forall l: nat :: l < |r.leases| && s != Release(l) ==> ApplyServe(r, s).leases[l] == r.leases[l]
  {
  }

  lemma AtMoves(g: Gateway, rid: Rid, t: Step)
    requires OwnStep(g, rid, t)
    ensures WorldMoves(g.world, At(g.world, rid, t), g.bridge)
  {
    if rid in g.world.objects {
      OwnStepMoves(g, rid, t);
    }
  }

  lemma PhaseMoves(r: Runtime, d: Drain, b: G.Bridge, rid: Rid)
    requires PhaseStays(r.drain, d)
    ensures RuntimeMoves(r, r.(drain := d), b, rid)
  {
  }

  lemma BeginMoves(w: World, c: Config, b: G.Bridge)
    requires WorldSafe(w)
    ensures WorldMoves(w, BeginReload(w, c), b)
  {
    var w' := BeginReload(w, c);
    forall rid | rid in w.objects ensures rid in w'.objects && RuntimeMoves(w.objects[rid], w'.objects[rid], b, rid) {
      var r := w.objects[rid];
      if w.pending.None? && Registered(w, rid) && !KeepsPath(w, c, rid.path) {
        assert w.objects[w.registry[rid.path]].drain == NotDrained;
        PhaseMoves(r, Requested, b, rid);
      } else {
        PhaseMoves(r, r.drain, b, rid);
      }
    }
  }

  lemma PublishMoves(w: World, b: G.Bridge)
    requires WorldSafe(w)
    ensures WorldMoves(w, Publish(w), b)
  {
    if ReadyToPublish(w) {
      var c, w' := w.pending.value, Publish(w);
      forall rid | rid in w.objects ensures RuntimeMoves(w.objects[rid], w'.objects[rid], b, rid) {
        if Registered(w, rid) && KeepsPath(w, c, rid.path) {
          ScheduleKeepsTerms(w.objects[rid].(config := c[rid.path]));
        }
      }
      forall rid | rid in w'.objects && rid !in w.objects ensures w'.objects[rid].drain == NotDrained {
        assert rid in FreshRids(w, c);
      }
    }
  }

  // -------------------------------------------------------- when the bridge moves

  /** What a bridge step, other than an opening or the begin of a POST, does to its session. */
  ghost predicate SessionMoves(s: B.Session, s': B.Session, moved: Option<nat>) {
    && s'.runtime == s.runtime && s'.path == s.path && s'.posts.Keys == s.posts.Keys
    && (s.expiry == B.Ended ==> s'.expiry == B.Ended)
    && forall l <- s.posts :: (s'.posts[l].leased ==> s.posts[l].leased)
                              && (moved != Some(l) ==> s'.posts[l].leased == s.posts[l].leased)
  }

  lemma PostMoves(p: B.Post, t: B.PostStep)
    ensures B.ApplyPost(p, t).leased ==> p.leased
  {
  }

  lemma WorkMoves(s: B.Session, t: B.WorkStep)
    requires !t.BeginPost?
    ensures SessionMoves(s, B.ApplyWork(s, t), Moved(G.Within(0, B.Works(t))))
  {
    match t
    case OnPost(id, u) => if id in s.posts { PostMoves(s.posts[id], u); }
    case Put(id, event) => PutMoves(s, id, event);
    case Unblock(id) => UnblockMoves(s, id);
    case PublishPost(_, _) =>
  }

  lemma PutMoves(s: B.Session, id: nat, event: string)
    ensures SessionMoves(s, B.Puts(s, id, event), None)
  {
  }

  lemma UnblockMoves(s: B.Session, id: nat)
    ensures SessionMoves(s, B.Unblocks(s, id), None)
  {
  }

  lemma CleanMoves(s: B.Session, t: B.CleanupStep)
    requires B.CleanupSafe(s)
    ensures SessionMoves(s, B.ApplyCleanup(s, t), None)
  {
  }

  lemma StreamMoves(s: B.Session, t: B.StreamStep)
    ensures SessionMoves(s, B.ApplyStream(s, t), None)
  {
  }

  lemma TerminalMoves(s: B.Session, event: string, caller: Option<nat>)
    ensures SessionMoves(s, B.Terminalize(s, event, caller), None)
  {
  }

  lemma ExpiryMoves(s: B.Session, event: string)
    ensures SessionMoves(s, B.Expires(s, event), None)
  {
    TerminalMoves(s, event, None);
  }

  lemma TaskEndMoves(s: B.Session, post: nat, event: string)
    ensures SessionMoves(s, B.TaskEndsSession(s, post, event), None)
  {
    if B.MayEndSession(s, post) {
      TerminalMoves(B.WithPost(s, post, s.posts[post].(response := B.Task(B.Cleaning, false))), event, Some(post));
    }
  }

  lemma CloseMoves(s: B.Session, who: B.Closer)
    requires B.CleanupSafe(s)
    ensures SessionMoves(s, B.BeginsClose(s, who), None) && SessionMoves(s, B.Leaves(s), None)
  {
  }

  predicate BeginsWork(t: G.BridgeStep) {
    t.Within? && t.step.Works? && t.step.work.BeginPost?
  }

  lemma NextMoves(s: B.Session, t: G.BridgeStep)
    requires B.SessionSafe(s) && !t.Open? && !BeginsWork(t)
    ensures SessionMoves(s, G.NextSession(s, t), Moved(t))
  {
    match t
    case EndByTask(_, post, event, _, _) => TaskEndMoves(s, post, event);
    case Expire(_, event, _) => ExpiryMoves(s, event);
    case FindExpired(_, event, _) => TerminalMoves(s, event, None);
    case StartClose(_, who) => CloseMoves(s, who);
    case FinishClose(_) => CloseMoves(s, B.Anyone);
    case Within(_, u) =>
      match u
      case Works(x) => WorkMoves(s, x);
      case Cleans(x) => CleanMoves(s, x);
      case Streams(x) => StreamMoves(s, x);
  }

  /** A bridge on which one session has moved. */
  ghost predicate BridgeMoves(b: G.Bridge, b': G.Bridge, id: nat, moved: Option<nat>) {
    && id in b.objects && b'.objects.Keys == b.objects.Keys
    && (forall x <- b.objects :: x != id ==> b'.objects[x] == b.objects[x])
    && SessionMoves(b.objects[id], b'.objects[id], moved)
    && b'.owned <= b.owned
  }

  lemma StepMovesTo(b: G.Bridge, t: G.BridgeStep, b': G.Bridge)
    requires t.id in b.objects && B.SessionSafe(b.objects[t.id]) && !t.Open? && !BeginsWork(t)
    requires b'.objects == b.objects[t.id := G.NextSession(b.objects[t.id], t)] && b'.owned <= b.owned
    ensures BridgeMoves(b, b', t.id, Moved(t))
  {
    NextMoves(b.objects[t.id], t);
  }

  lemma StepMoves(b: G.Bridge, t: G.BridgeStep)
    requires G.BridgeSafe(b) && !t.Open? && !BeginsWork(t)
    ensures if t.id in b.objects then BridgeMoves(b, G.Apply(b, t), t.id, Moved(t)) else G.Apply(b, t) == b
  {
    if t.id in b.objects {
      G.StepActsOn(b, t);
      StepMovesTo(b, t, G.Apply(b, t));
    }
  }

  lemma MovedKeepsShares(b: G.Bridge, b': G.Bridge, id: nat, moved: Option<nat>)
    requires NoneShared(b) && BridgeMoves(b, b', id, moved)
    ensures NoneShared(b')
  {
    assert forall x, y, l :: SharedLease(b', x, y, l) ==> SharedLease(b, x, y, l);
  }

  lemma MovedKeepsPaths(w: World, b: G.Bridge, b': G.Bridge, id: nat, moved: Option<nat>)
    requires PathsLinked(w, b) && BridgeMoves(b, b', id, moved)
    ensures PathsLinked(w, b')
  {
  }

  /** Nothing came back: every POST holds its lease as before. */
  lemma MovedKeepsPosts(w: World, b: G.Bridge, b': G.Bridge, id: nat, moved: Option<nat>)
    requires PostsLinked(w, b) && BridgeMoves(b, b', id, moved)
    requires moved.Some? ==> !GivesBack(b.objects[id], b'.objects[id], moved.value)
    ensures PostsLinked(w, b')
  {
    forall x, l | x in b'.objects && l in b'.objects[x].posts ensures PostLinked(w, b', x, l) {
      assert PostLinked(w, b, x, l);
    }
  }

  /** Runtimes that differ in one released lease. */
  ghost predicate Releases(w: World, w': World, rid: Rid, l: nat) {
    && w'.objects.Keys == w.objects.Keys && rid in w.objects && l < |w.objects[rid].leases|
    && w'.objects[rid].leases == w.objects[rid].leases[l := true]
    && forall x <- w.objects :: x != rid ==> w'.objects[x] == w.objects[x]
  }

  lemma ReleaseReleases(w: World, rid: Rid, l: nat)
    requires rid in w.objects && l < |w.objects[rid].leases| && !w.objects[rid].leases[l]
    ensures Releases(w, At(w, rid, Serves(Release(l))), rid, l)
  {
  }

  /** One lease came back, and was released on the runtime. */
  lemma GivenBackKeepsPosts(w: World, b: G.Bridge, b': G.Bridge, id: nat, l: nat, w': World)
    requires PostsLinked(w, b) && NoneShared(b) && BridgeMoves(b, b', id, Some(l))
    requires GivesBack(b.objects[id], b'.objects[id], l) && Releases(w, w', b.objects[id].runtime, l)
    ensures PostsLinked(w', b')
  {
    forall x, m | x in b'.objects && m in b'.objects[x].posts ensures PostLinked(w', b', x, m) {
      assert PostLinked(w, b, x, m);
      if x == id {
        OwnPostGivenBack(w, b, b', id, l, w', m);
      } else {
        OtherPostStays(w, b, b', id, l, w', x, m);
      }
    }
  }

  lemma OwnPostGivenBack(w: World, b: G.Bridge, b': G.Bridge, id: nat, l: nat, w': World, m: nat)
    requires BridgeMoves(b, b', id, Some(l)) && GivesBack(b.objects[id], b'.objects[id], l)
    requires Releases(w, w', b.objects[id].runtime, l) && m in b.objects[id].posts && PostLinked(w, b, id, m)
    ensures m in b'.objects[id].posts && PostLinked(w', b', id, m)
  {
  }

  /** Another session has its POSTs under other leases. */
  lemma OtherPostStays(w: World, b: G.Bridge, b': G.Bridge, id: nat, l: nat, w': World, x: nat, m: nat)
    requires NoneShared(b) && id in b.objects && l in b.objects[id].posts && x != id
    requires x in b.objects && x in b'.objects && b'.objects[x] == b.objects[x] && m in b.objects[x].posts
    requires PostLinked(w, b, x, m) && Releases(w, w', b.objects[id].runtime, l)
    ensures PostLinked(w', b', x, m)
  {
    assert !SharedLease(b, id, x, m);
  }

  lemma MovedKeepsExpiry(b: G.Bridge, b': G.Bridge, id: nat, moved: Option<nat>, rid: Rid, but: set<Task>)
    requires BridgeMoves(b, b', id, moved) && NoExpiry(b, rid, but)
    ensures NoExpiry(b', rid, but)
  {
  }

  lemma MovedKeepsTodo(b: G.Bridge, b': G.Bridge, id: nat, moved: Option<nat>, rid: Rid, todo: set<nat>)
    requires BridgeMoves(b, b', id, moved) && G.OnlyTodo(b, rid, todo)
    ensures G.OnlyTodo(b', rid, todo)
  {
  }

  lemma MovedKeepsDrain(g: Gateway, b': G.Bridge, id: nat, moved: Option<nat>, rid: Rid)
    requires rid in g.world.objects && DrainLinked(g, rid) && BridgeMoves(g.bridge, b', id, moved)
    ensures DrainLinked(g.(bridge := b'), rid)
  {
    var b := g.bridge;
    match g.world.objects[rid].drain
    case NotDrained =>
    case Requested =>
    case Marked => MovedKeepsExpiry(b, b', id, moved, rid, g.awaited[rid]);
    case Closing =>
      MovedKeepsExpiry(b, b', id, moved, rid, {});
      MovedKeepsTodo(b, b', id, moved, rid, g.closing[rid]);
    case Done =>
      MovedKeepsExpiry(b, b', id, moved, rid, {});
      MovedKeepsTodo(b, b', id, moved, rid, {});
    case _ => MovedKeepsExpiry(b, b', id, moved, rid, {});
  }

  lemma MovedKeepsDrains(g: Gateway, b': G.Bridge, id: nat, moved: Option<nat>)
    requires DrainsLinked(g) && BridgeMoves(g.bridge, b', id, moved)
    ensures DrainsLinked(g.(bridge := b'))
  {
    forall rid | rid in g.world.objects ensures DrainLinked(g.(bridge := b'), rid) {
      MovedKeepsDrain(g, b', id, moved, rid);
    }
  }

  // --------------------------------------------------------- every step keeps it

  /** Limits are kept while configurations and counts are. */
  lemma SameConfigsLimited(w: World, w': World, b: G.Bridge)
    requires LimitsLinked(w, b) && w'.registry == w.registry && w'.objects.Keys == w.objects.Keys
    requires forall x <- w.objects :: w'.objects[x].config == w.objects[x].config
    ensures LimitsLinked(w', b)
  {
  }

  lemma AtKeepsLimits(w: World, rid: Rid, t: Step, b: G.Bridge)
    requires LimitsLinked(w, b)
    ensures LimitsLinked(At(w, rid, t), b)
  {
    if rid in w.objects {
      StepKeepsTerms(w.objects[rid], t);
      SameConfigsLimited(w, At(w, rid, t), b);
    }
  }

  /** Moving one runtime by a step that the drain takes with the bridge. */
  ghost predicate DrainMoves(g: Gateway, g': Gateway, rid: Rid, t: Step) {
    && rid in g.world.objects && g'.world == At(g.world, rid, t) && g'.bridge == g.bridge
    && (forall x :: x != rid && x in g.awaited ==> x in g'.awaited && g'.awaited[x] == g.awaited[x])
    && (forall x :: x != rid && x in g.closing ==> x in g'.closing && g'.closing[x] == g.closing[x])
    && Apply(g.world.objects[rid], t).leases == g.world.objects[rid].leases
  }

  lemma DrainMovesKeepDrains(g: Gateway, g': Gateway, rid: Rid, t: Step)
    requires DrainsLinked(g) && DrainMoves(g, g', rid, t) && DrainLinked(g', rid)
    ensures DrainsLinked(g')
  {
    forall x | x in g'.world.objects && x != rid ensures DrainLinked(g', x) {
      assert DrainLinked(g, x);
    }
  }

  lemma DrainMovesKeepPosts(g: Gateway, g': Gateway, rid: Rid, t: Step)
    requires PathsLinked(g.world, g.bridge) && PostsLinked(g.world, g.bridge) && DrainMoves(g, g', rid, t)
    ensures PathsLinked(g'.world, g'.bridge) && PostsLinked(g'.world, g'.bridge)
  {
    forall id, l | id in g'.bridge.objects && l in g'.bridge.objects[id].posts
      ensures PostLinked(g'.world, g'.bridge, id, l)
    {
      assert PostLinked(g.world, g.bridge, id, l);
    }
  }

  lemma DrainMovesKeepLinks(g: Gateway, g': Gateway, rid: Rid, t: Step)
    requires ObjectsSafe(g.world) && Linked(g) && DrainMoves(g, g', rid, t) && DrainLinked(g', rid)
    ensures Linked(g')
  {
    DrainMovesKeepDrains(g, g', rid, t);
    DrainMovesKeepPosts(g, g', rid, t);
    AtKeepsLimits(g.world, rid, t, g.bridge);
  }

  lemma MarkMoves(g: Gateway, rid: Rid)
    requires DrainsAt(g, rid, Requested) && g.world.objects[rid].section == Free
    ensures DrainMoves(g, MarksDrain(g, rid), rid, Drains(DrainMark)) && DrainLinked(MarksDrain(g, rid), rid)
  {
    assert DrainsAt(MarksDrain(g, rid), rid, Marked);
    AllAwaited(g.bridge, rid);
  }

  lemma MarkLinks(g: Gateway, rid: Rid)
    requires ObjectsSafe(g.world) && Linked(g)
    ensures Linked(MarksDrain(g, rid))
  {
    if DrainsAt(g, rid, Requested) && g.world.objects[rid].section == Free {
      MarkMoves(g, rid);
      DrainMovesKeepLinks(g, MarksDrain(g, rid), rid, Drains(DrainMark));
    }
  }

  lemma AllAwaited(b: G.Bridge, rid: Rid)
    ensures NoExpiry(b, rid, LegacyTasks(b, rid))
  {
    forall id | id in b.objects && b.objects[id].runtime == rid && b.objects[id].expiry != B.Ended
      ensures ExpiryOf(id) in LegacyTasks(b, rid)
    {
      assert Unfinished(b, rid, ExpiryOf(id));
    }
  }

  lemma AwaitMoves(g: Gateway, rid: Rid)
    requires DrainsAt(g, rid, Marked) && DrainLinked(g, rid) && AwaitsLegacy(g, rid) != g
    ensures DrainMoves(g, AwaitsLegacy(g, rid), rid, Drains(LegacyDone)) && DrainLinked(AwaitsLegacy(g, rid), rid)
  {
    assert DrainsAt(AwaitsLegacy(g, rid), rid, LegacyGone);
    NoneAwaited(g.bridge, rid, g.awaited[rid]);
  }

  lemma AwaitLinks(g: Gateway, rid: Rid)
    requires ObjectsSafe(g.world) && Linked(g)
    ensures Linked(AwaitsLegacy(g, rid))
  {
    if AwaitsLegacy(g, rid) != g {
      assert DrainLinked(g, rid);
      AwaitMoves(g, rid);
      DrainMovesKeepLinks(g, AwaitsLegacy(g, rid), rid, Drains(LegacyDone));
    }
  }

  lemma NoneAwaited(b: G.Bridge, rid: Rid, awaited: set<Task>)
    requires NoExpiry(b, rid, awaited) && forall t <- awaited :: !Unfinished(b, rid, t)
    ensures NoExpiry(b, rid, {})
  {
    forall id | id in b.objects && b.objects[id].runtime == rid ensures b.objects[id].expiry == B.Ended {
      assert ExpiryOf(id) in awaited ==> !Unfinished(b, rid, ExpiryOf(id));
    }
  }

  lemma TerminatedMoves(g: Gateway, rid: Rid)
    requires DrainsAt(g, rid, Stopping) && EndsDrain(g.world.objects[rid]) && DrainLinked(g, rid)
    requires PathsLinked(g.world, g.bridge)
    ensures DrainMoves(g, TerminatesDrain(g, rid), rid, Fails(Terminate)) && DrainLinked(TerminatesDrain(g, rid), rid)
  {
    EndOfDrain(g.world.objects[rid]);
    assert DrainsAt(TerminatesDrain(g, rid), rid, Closing);
  }

  lemma TerminatedLinks(g: Gateway, rid: Rid)
    requires ObjectsSafe(g.world) && Linked(g)
    ensures Linked(TerminatesDrain(g, rid))
  {
    if rid in g.world.objects && EndsDrain(g.world.objects[rid]) {
      StoppingAtEnd(g.world.objects[rid]);
      assert DrainLinked(g, rid);
      TerminatedMoves(g, rid);
      DrainMovesKeepLinks(g, TerminatesDrain(g, rid), rid, Fails(Terminate));
    }
  }

  lemma StoppingAtEnd(r: Runtime)
    requires Safe(r) && EndsDrain(r)
    ensures r.drain == Stopping
  {
  }

  lemma EndOfDrain(r: Runtime)
    requires EndsDrain(r)
    ensures Apply(r, Fails(Terminate)).drain == Closing
    ensures Apply(r, Fails(Terminate)).leases == r.leases
  {
    assert Apply(r, Fails(Terminate)) == Terminated(r);
  }

  lemma ClosedMoves(g: Gateway, rid: Rid)
    requires DrainsAt(g, rid, Closing) && DrainLinked(g, rid) && ClosesEndpoint(g, rid) != g
    ensures DrainMoves(g, ClosesEndpoint(g, rid), rid, Drains(SessionsDone))
    ensures DrainLinked(ClosesEndpoint(g, rid), rid)
  {
    assert DrainsAt(ClosesEndpoint(g, rid), rid, Done);
  }

  lemma ClosedLinks(g: Gateway, rid: Rid)
    requires ObjectsSafe(g.world) && Linked(g)
    ensures Linked(ClosesEndpoint(g, rid))
  {
    if ClosesEndpoint(g, rid) != g {
      assert DrainLinked(g, rid);
      ClosedMoves(g, rid);
      DrainMovesKeepLinks(g, ClosesEndpoint(g, rid), rid, Drains(SessionsDone));
    }
  }

  /** A bridge step that gives no lease back. */
  lemma BridgeAloneLinks(g: Gateway, t: G.BridgeStep, b': G.Bridge)
    requires Linked(g) && G.BridgeSafe(g.bridge) && !t.Open? && !BeginsWork(t) && b' == G.Apply(g.bridge, t)
    requires t.id in g.bridge.objects && t.id in b'.objects && Moved(t).Some? ==>
      !GivesBack(g.bridge.objects[t.id], b'.objects[t.id], Moved(t).value)
    ensures Linked(g.(bridge := b'))
  {
    StepMoves(g.bridge, t);
    BridgeLimits(g.world, g.bridge, t);
    if t.id in g.bridge.objects {
      MovedLinks(g, b', t.id, Moved(t));
    }
  }

  lemma MovedLinks(g: Gateway, b': G.Bridge, id: nat, moved: Option<nat>)
    requires Linked(g) && BridgeMoves(g.bridge, b', id, moved) && LimitsLinked(g.world, b')
    requires moved.Some? ==> !GivesBack(g.bridge.objects[id], b'.objects[id], moved.value)
    ensures Linked(g.(bridge := b'))
  {
    MovedKeepsPaths(g.world, g.bridge, b', id, moved);
    MovedKeepsPosts(g.world, g.bridge, b', id, moved);
    MovedKeepsShares(g.bridge, b', id, moved);
    MovedKeepsDrains(g, b', id, moved);
  }

  lemma BridgeLimits(w: World, b: G.Bridge, t: G.BridgeStep)
    requires LimitsLinked(w, b) && G.BridgeSafe(b) && !t.Open?
    ensures LimitsLinked(w, G.Apply(b, t))
  {
    forall p | p in w.registry && w.registry[p] in w.objects
      ensures |G.Active(G.Apply(b, t), p)| <= MaxSessions(w.objects[w.registry[p]].config)
    {
      G.ActiveAfter(b, t, p);
    }
  }

  lemma ClosesOneLinks(g: Gateway, rid: Rid, id: nat)
    requires Linked(g) && G.BridgeSafe(g.bridge)
    ensures Linked(ClosesOne(g, rid, id))
  {
    var g' := ClosesOne(g, rid, id);
    if g' != g {
      BridgeAloneLinks(g, G.FinishClose(id), G.Leave(g.bridge, id));
      PopKeepsDrains(g, rid, id);
    }
  }

  lemma PopKeepsDrains(g: Gateway, rid: Rid, id: nat)
    requires DrainsLinked(g) && rid in g.closing && id in g.bridge.objects && B.MayLeave(g.bridge.objects[id])
    requires DrainsLinked(g.(bridge := G.Leave(g.bridge, id)))
    ensures DrainsLinked(g.(bridge := G.Leave(g.bridge, id), closing := g.closing[rid := g.closing[rid] - {id}]))
  {
    var m := g.(bridge := G.Leave(g.bridge, id));
    var g' := m.(closing := g.closing[rid := g.closing[rid] - {id}]);
    forall x | x in g'.world.objects ensures DrainLinked(g', x) {
      assert DrainLinked(m, x) && DrainLinked(g, x);
      if x == rid && g.world.objects[x].drain == Closing {
        G.ClosesOneKeepsTodo(g.bridge, id, rid, g.closing[rid]);
      }
    }
  }

  lemma GivingBackLinks(g: Gateway, b': G.Bridge, id: nat, l: nat, w': World)
    requires Linked(g) && BridgeMoves(g.bridge, b', id, Some(l)) && LimitsLinked(w', b')
    requires GivesBack(g.bridge.objects[id], b'.objects[id], l)
    requires w' == At(g.world, g.bridge.objects[id].runtime, Serves(Release(l)))
    ensures Linked(g.(bridge := b', world := w'))
  {
    var rid := g.bridge.objects[id].runtime;
    assert PostLinked(g.world, g.bridge, id, l);
    ReleaseReleases(g.world, rid, l);
    GivenBackKeepsPosts(g.world, g.bridge, b', id, l, w');
    MovedKeepsShares(g.bridge, b', id, Some(l));
    MovedKeepsPaths(w', g.bridge, b', id, Some(l));
    MovedKeepsDrains(g, b', id, Some(l));
    ReleaseKeepsDrains(g.(bridge := b'), rid, l);
  }

  lemma ReleaseKeepsDrains(g: Gateway, rid: Rid, l: nat)
    requires DrainsLinked(g)
    ensures DrainsLinked(g.(world := At(g.world, rid, Serves(Release(l)))))
  {
    var w' := At(g.world, rid, Serves(Release(l)));
    forall x | x in w'.objects ensures DrainLinked(g.(world := w'), x) {
      assert DrainLinked(g, x) && w'.objects[x].drain == g.world.objects[x].drain;
    }
  }

  // ------------------------------------------------------------------ openings

  /** A session that is opened on a runtime that is not DRAINING. */
  lemma OpenedDrains(g: Gateway, b': G.Bridge, id: nat, rid: Rid)
    requires DrainsLinked(g) && DrainsAtMostRequested(g.world, rid) && Adds(g.bridge, b', id, rid)
    ensures DrainsLinked(g.(bridge := b'))
  {
    forall x | x in g.world.objects ensures DrainLinked(g.(bridge := b'), x) {
      assert DrainLinked(g, x);
      if x != rid {
        assert forall but :: NoExpiry(g.bridge, x, but) ==> NoExpiry(b', x, but);
        assert forall todo :: G.OnlyTodo(g.bridge, x, todo) ==> G.OnlyTodo(b', x, todo);
      }
    }
  }

  predicate DrainsAtMostRequested(w: World, rid: Rid) {
    rid in w.objects && (w.objects[rid].drain == NotDrained || w.objects[rid].drain == Requested)
  }

  lemma OpenedPosts(w: World, b: G.Bridge, b': G.Bridge, id: nat, rid: Rid)
    requires PathsLinked(w, b) && PostsLinked(w, b) && NoneShared(b) && rid in w.objects && Adds(b, b', id, rid)
    ensures PathsLinked(w, b') && PostsLinked(w, b') && NoneShared(b')
  {
    forall x, l | x in b'.objects && l in b'.objects[x].posts ensures PostLinked(w, b', x, l) {
      assert PostLinked(w, b, x, l);
    }
    assert forall x, y, l :: SharedLease(b', x, y, l) ==> SharedLease(b, x, y, l);
  }

  lemma NotDrainingYet(w: World, rid: Rid)
    requires ObjectsSafe(w) && rid in w.objects && w.objects[rid].state != DRAINING
    ensures DrainsAtMostRequested(w, rid)
  {
    assert Safe(w.objects[rid]);
  }

  /** Only the endpoint's own runtime can open a session of its path. */
  lemma OpenerIsRegistered(w: World, rid: Rid)
    requires RegistrySafe(w) && DrainsAtMostRequested(w, rid)
    ensures Registered(w, rid)
  {
  }

  ghost predicate CountsOrFits(b: G.Bridge, b': G.Bridge, p: string, rid: Rid, most: nat) {
    |G.Active(b', p)| <= |G.Active(b, p)| || (p == rid.path && |G.Active(b', p)| <= most)
  }

  lemma OpenedLimits(w: World, b: G.Bridge, b': G.Bridge, rid: Rid)
    requires LimitsLinked(w, b) && rid in w.objects && Registered(w, rid)
    requires forall p :: CountsOrFits(b, b', p, rid, MaxSessions(w.objects[rid].config))
    ensures LimitsLinked(w, b')
  {
    forall p | p in w.registry && w.registry[p] in w.objects
      ensures |G.Active(b', p)| <= MaxSessions(w.objects[w.registry[p]].config)
    {
      assert CountsOrFits(b, b', p, rid, MaxSessions(w.objects[rid].config));
    }
  }

  lemma OpenCounts(b: G.Bridge, b': G.Bridge, id: nat, rid: Rid, e: Endpoint, greeting: string)
    requires b' == G.OpenSession(b, id, rid.path, rid, e.bridge, greeting)
    ensures forall p :: CountsOrFits(b, b', p, rid, MaxSessions(e))
  {
    forall p ensures CountsOrFits(b, b', p, rid, MaxSessions(e)) {
      G.ActiveOpens(b, id, rid.path, rid, e.bridge, greeting, p);
    }
  }

  /** One session more, and it is new. */
  ghost predicate Adds(b: G.Bridge, b': G.Bridge, id: nat, rid: Rid) {
    && id !in b.objects && b'.objects.Keys == b.objects.Keys + {id} && b'.owned == b.owned + {id}
    && b'.objects[id].runtime == rid && b'.objects[id].path == rid.path && b'.objects[id].posts == map[]
    && forall x <- b.objects :: b'.objects[x] == b.objects[x]
  }

  lemma OpenAdds(b: G.Bridge, id: nat, rid: Rid, config: Option<BridgeConfig>, greeting: string)
    ensures var b' := G.OpenSession(b, id, rid.path, rid, config, greeting); b' == b || Adds(b, b', id, rid)
  {
    var b' := G.OpenSession(b, id, rid.path, rid, config, greeting);
    if b' != b {
      UpdateAdds(b, b', id, rid, B.NewSession(rid.path, rid, config.value.queueCapacity, greeting));
    }
  }

  lemma UpdateAdds(b: G.Bridge, b': G.Bridge, id: nat, rid: Rid, s: B.Session)
    requires id !in b.objects && b'.objects == b.objects[id := s] && b'.owned == b.owned + {id}
    requires s.runtime == rid && s.path == rid.path && s.posts == map[]
    ensures Adds(b, b', id, rid)
  {
  }

  lemma AddedLinks(g: Gateway, b': G.Bridge, id: nat, rid: Rid)
    requires Linked(g) && DrainsAtMostRequested(g.world, rid) && Adds(g.bridge, b', id, rid)
    requires LimitsLinked(g.world, b')
    ensures Linked(g.(bridge := b'))
  {
    OpenedPosts(g.world, g.bridge, b', id, rid);
    OpenedDrains(g, b', id, rid);
  }

  lemma OpenLinks(g: Gateway, id: nat, rid: Rid, greeting: string)
    requires ObjectsSafe(g.world) && RegistrySafe(g.world) && Linked(g)
    ensures Linked(Opens(g, id, rid, greeting))
  {
    if rid in g.world.objects && g.world.objects[rid].state != DRAINING {
      var e := g.world.objects[rid].config;
      var b' := G.OpenSession(g.bridge, id, rid.path, rid, e.bridge, greeting);
      OpenAdds(g.bridge, id, rid, e.bridge, greeting);
      if b' != g.bridge {
        NotDrainingYet(g.world, rid);
        OpenerIsRegistered(g.world, rid);
        OpenCounts(g.bridge, b', id, rid, e, greeting);
        OpenedLimits(g.world, g.bridge, b', rid);
        AddedLinks(g, b', id, rid);
      }
    }
  }

  /** One POST more, with a lease that no POST of the runtime has. */
  ghost predicate Begins(b: G.Bridge, b': G.Bridge, id: nat, l: nat) {
    && id in b.objects && b'.owned == b.owned && !Used(b, b.objects[id].runtime, l)
    && b'.objects == b.objects[id := B.WithPost(b.objects[id], l, B.FreshPost)]
  }

  lemma BegunPosts(w: World, b: G.Bridge, b': G.Bridge, id: nat, l: nat)
    requires PathsLinked(w, b) && PostsLinked(w, b) && Begins(b, b', id, l)
    requires var rid := b.objects[id].runtime;
      rid in w.objects && l < |w.objects[rid].leases| && !w.objects[rid].leases[l]
    ensures PathsLinked(w, b') && PostsLinked(w, b')
  {
    forall x, m | x in b'.objects && m in b'.objects[x].posts ensures PostLinked(w, b', x, m) {
      assert !(x == id && m == l) ==> PostLinked(w, b, x, m);
    }
  }

  lemma BegunShares(b: G.Bridge, b': G.Bridge, id: nat, l: nat)
    requires NoneShared(b) && Begins(b, b', id, l)
    ensures NoneShared(b')
  {
    var rid := b.objects[id].runtime;
    assert forall x <- b.objects :: b.objects[x].runtime == rid ==> Of(b, x, rid) && l !in b.objects[x].posts;
    assert forall x, y, m :: SharedLease(b', x, y, m) ==> SharedLease(b, x, y, m) || x == y;
  }

  lemma BegunDrains(g: Gateway, b': G.Bridge, id: nat, l: nat)
    requires DrainsLinked(g) && Begins(g.bridge, b', id, l)
    ensures DrainsLinked(g.(bridge := b'))
  {
    forall x | x in g.world.objects ensures DrainLinked(g.(bridge := b'), x) {
      assert DrainLinked(g, x);
      assert forall but :: NoExpiry(g.bridge, x, but) ==> NoExpiry(b', x, but);
      assert forall todo :: G.OnlyTodo(g.bridge, x, todo) ==> G.OnlyTodo(b', x, todo);
    }
  }

  lemma BegunLinks(g: Gateway, b': G.Bridge, id: nat, l: nat)
    requires Linked(g) && Begins(g.bridge, b', id, l) && LimitsLinked(g.world, b')
    requires var rid := g.bridge.objects[id].runtime;
      rid in g.world.objects && l < |g.world.objects[rid].leases| && !g.world.objects[rid].leases[l]
    ensures Linked(g.(bridge := b'))
  {
    BegunPosts(g.world, g.bridge, b', id, l);
    BegunShares(g.bridge, b', id, l);
    BegunDrains(g, b', id, l);
  }

  lemma BeginBegins(b: G.Bridge, id: nat, l: nat)
    requires id in b.objects && !Used(b, b.objects[id].runtime, l)
    ensures var b' := G.OnSession(b, id, B.Works(B.BeginPost(l))); b' == b || Begins(b, b', id, l)
  {
    if B.BeginsPost(b.objects[id], l) == b.objects[id] {
      SameSession(b, id);
    }
  }

  lemma BeginLimits(w: World, b: G.Bridge, id: nat, l: nat)
    requires LimitsLinked(w, b) && G.BridgeSafe(b)
    ensures LimitsLinked(w, G.OnSession(b, id, B.Works(B.BeginPost(l))))
  {
    BridgeLimits(w, b, G.Within(id, B.Works(B.BeginPost(l))));
  }

  lemma BeginLinks(g: Gateway, id: nat, rid: Rid, l: nat)
    requires Linked(g) && G.BridgeSafe(g.bridge)
    ensures Linked(BeginsPost(g, id, rid, l))
  {
    if MayBegin(g, id, rid, l) {
      var b' := G.OnSession(g.bridge, id, B.Works(B.BeginPost(l)));
      BeginBegins(g.bridge, id, l);
      BeginLimits(g.world, g.bridge, id, l);
      if b' != g.bridge {
        BegunLinks(g, b', id, l);
      }
    }
  }

  lemma SameSession(b: G.Bridge, id: nat)
    requires id in b.objects
    ensures b.(objects := b.objects[id := b.objects[id]]) == b
  {
    assert b.objects[id := b.objects[id]] == b.objects;
  }

  // ----------------------------------------------------------------- reloads

  /** A runtime that a snapshot replaces is drained, so none of its path's sessions is left unclosed. */
  lemma ReplacedIsEmpty(g: Gateway, p: string)
    requires RegistrySafe(g.world) && PathsLinked(g.world, g.bridge) && DrainsLinked(g) && G.IndexesAgree(g.bridge)
    requires p in g.world.registry ==> DrainsAt(g, g.world.registry[p], Done)
    ensures G.Active(g.bridge, p) == {}
  {
    forall id ensures id !in G.Active(g.bridge, p) {
      if id in g.bridge.objects && g.bridge.objects[id].path == p {
        var rid := g.bridge.objects[id].runtime;
        assert Registered(g.world, rid) || DrainsAt(g, rid, Done);
        assert DrainLinked(g, rid) && DrainsAt(g, rid, Done);
        assert id !in g.bridge.owned;
      }
    }
  }

  lemma PublishedLimit(g: Gateway, p: string)
    requires WorldSafe(g.world) && ReadyToPublish(g.world) && Linked(g) && G.IndexesAgree(g.bridge)
    requires p in g.world.pending.value
    ensures |G.Active(g.bridge, p)| <= MaxSessions(g.world.pending.value[p])
  {
    var w, c := g.world, g.world.pending.value;
    if KeepsPath(w, c, p) {
      assert w.objects[w.registry[p]].config.bridge == c[p].bridge;
    } else {
      ReplacedIsEmpty(g, p);
    }
  }

  lemma PublishLimits(g: Gateway)
    requires WorldSafe(g.world) && ReadyToPublish(g.world) && Linked(g) && G.IndexesAgree(g.bridge)
    ensures LimitsLinked(Publish(g.world), g.bridge)
  {
    var w' := Publish(g.world);
    forall p | p in w'.registry && w'.registry[p] in w'.objects
      ensures |G.Active(g.bridge, p)| <= MaxSessions(w'.objects[w'.registry[p]].config)
    {
      PublishedPath(g.world, p);
      PublishedLimit(g, p);
    }
  }

  lemma PublishLinks(g: Gateway)
    requires WorldSafe(g.world) && Linked(g) && G.IndexesAgree(g.bridge)
    ensures Linked(g.(world := Publish(g.world)))
  {
    PublishMoves(g.world, g.bridge);
    MoveKeepsPosts(g.world, Publish(g.world), g.bridge);
    MoveKeepsDrains(g, Publish(g.world));
    if ReadyToPublish(g.world) {
      PublishLimits(g);
    }
  }

  lemma ReloadLinks(g: Gateway, c: Config)
    requires WorldSafe(g.world) && Linked(g)
    ensures Linked(g.(world := BeginReload(g.world, c)))
  {
    var w' := BeginReload(g.world, c);
    BeginMoves(g.world, c, g.bridge);
    MoveKeepsPosts(g.world, w', g.bridge);
    MoveKeepsDrains(g, w');
    BeginLimitsStay(g.world, c, g.bridge);
  }

  lemma BeginLimitsStay(w: World, c: Config, b: G.Bridge)
    requires LimitsLinked(w, b)
    ensures LimitsLinked(BeginReload(w, c), b)
  {
  }

  lemma OwnLinks(g: Gateway, rid: Rid, t: Step)
    requires ObjectsSafe(g.world) && Linked(g) && OwnStep(g, rid, t)
    ensures Linked(Advance(g, rid, t))
  {
    AtMoves(g, rid, t);
    MoveKeepsPosts(g.world, At(g.world, rid, t), g.bridge);
    MoveKeepsDrains(g, At(g.world, rid, t));
    AtKeepsLimits(g.world, rid, t, g.bridge);
  }

  lemma BridgesLinks(g: Gateway, t: G.BridgeStep)
    requires ObjectsSafe(g.world) && Linked(g) && G.BridgeSafe(g.bridge) && Allowed(g, t)
    ensures Linked(Bridges(g, t))
  {
    var b, b' := g.bridge, G.Apply(g.bridge, t);
    if Moved(t).Some? && t.id in b.objects && t.id in b'.objects
      && GivesBack(b.objects[t.id], b'.objects[t.id], Moved(t).value)
    {
      var w' := At(g.world, b.objects[t.id].runtime, Serves(Release(Moved(t).value)));
      StepMoves(b, t);
      BridgeLimits(g.world, b, t);
      AtKeepsLimits(g.world, b.objects[t.id].runtime, Serves(Release(Moved(t).value)), b');
      GivingBackLinks(g, b', t.id, Moved(t).value, w');
    } else {
      BridgeAloneLinks(g, t, b');
    }
  }

  // ------------------------------------------------------------------ all steps

  lemma StepKeepsWorld(g: Gateway, s: GatewayStep)
    requires WorldSafe(g.world) && AdmittedGateway(g, s)
    ensures WorldSafe(ApplyGateway(g, s).world)
  {
    hide WorldSafe;
    match s
    case OnRuntime(rid, t) => AtKeepsSafe(g.world, rid, t);
    case StartReload(c) => BeginKeepsSafe(g.world, c);
    case PublishSnapshot => PublishKeepsSafe(g.world);
    case OnBridge(t) => ReleaseKeepsWorld(g.world, g.bridge, G.Apply(g.bridge, t), t);
    case _ => DrainKeepsWorld(g, s);
  }

  /** The steps that a drain takes with the bridge, and those that leave the world alone. */
  lemma DrainKeepsWorld(g: Gateway, s: GatewayStep)
    requires WorldSafe(g.world) && AdmittedGateway(g, s)
    requires !s.OnRuntime? && !s.StartReload? && !s.PublishSnapshot? && !s.OnBridge?
    ensures WorldSafe(ApplyGateway(g, s).world)
  {
    hide WorldSafe;
    if s.MarkDrain? {
      AdvanceKeepsWorld(g.world, MarksDrain(g, s.rid).world, s.rid, Drains(DrainMark));
    } else {
      DrainStepAdvances(g, s);
      AdvanceKeepsWorld(g.world, ApplyGateway(g, s).world, DrainedBy(s), DrainStepOf(s));
    }
  }

  /** The runtime step that a drain takes after its mark; the other steps take none. */
  function DrainStepOf(s: GatewayStep): Step {
    match s
    case LegacyAwaited(_) => Drains(LegacyDone)
    case DrainTerminated(_) => Fails(Terminate)
    case _ => Drains(SessionsDone)
  }

  function DrainedBy(s: GatewayStep): Rid {
    match s
    case LegacyAwaited(rid) => rid
    case DrainTerminated(rid) => rid
    case DrainClosed(rid) => rid
    case _ => Rid("", 0)
  }

  lemma DrainStepAdvances(g: Gateway, s: GatewayStep)
    requires !s.OnRuntime? && !s.StartReload? && !s.PublishSnapshot? && !s.OnBridge? && !s.MarkDrain?
    ensures var w' := ApplyGateway(g, s).world; w' == g.world || w' == At(g.world, DrainedBy(s), DrainStepOf(s))
  {
  }

  lemma AdvanceKeepsWorld(w: World, w': World, rid: Rid, t: Step)
    requires WorldSafe(w) && (w' == w || w' == At(w, rid, t))
    requires rid in w.objects ==> Admitted(w.objects[rid], t)
    ensures WorldSafe(w')
  {
    AtKeepsSafe(w, rid, t);
  }

  lemma ReleaseKeepsWorld(w: World, b: G.Bridge, b': G.Bridge, t: G.BridgeStep)
    requires WorldSafe(w)
    ensures WorldSafe(WorldAfter(w, b, b', t))
  {
    if Moved(t).Some? && t.id in b.objects {
      AtKeepsSafe(w, b.objects[t.id].runtime, Serves(Release(Moved(t).value)));
    }
  }

  lemma StepKeepsBridgeSafe(g: Gateway, s: GatewayStep)
    requires G.BridgeSafe(g.bridge)
    ensures G.BridgeSafe(ApplyGateway(g, s).bridge)
  {
    hide G.BridgeSafe;
    match s
    case DrainClosesOne(_, id) => G.LeaveBridgeKeeps(g.bridge, id);
    case OpenSession(id, rid, greeting) =>
      if rid in g.world.objects {
        G.OpenKeeps(g.bridge, id, rid.path, rid, g.world.objects[rid].config.bridge, greeting);
      }
    case BeginPost(id, rid, l) => G.OnSessionKeeps(g.bridge, id, B.Works(B.BeginPost(l)));
    case OnBridge(t) => G.StepKeepsBridge(g.bridge, t);
    case _ =>
  }

  lemma StepKeepsLinks(g: Gateway, s: GatewayStep)
    requires GatewaySafe(g)
    ensures Linked(ApplyGateway(g, s))
  {
    SafeParts(g);
    hide Linked, WorldSafe, G.BridgeSafe, ObjectsSafe, RegistrySafe, G.IndexesAgree;
    match s
    case OnRuntime(rid, t) => if OwnStep(g, rid, t) { OwnLinks(g, rid, t); }
    case StartReload(c) => ReloadLinks(g, c);
    case PublishSnapshot => PublishLinks(g);
    case OnBridge(t) => if Allowed(g, t) { BridgesLinks(g, t); }
    case OpenSession(id, rid, greeting) => OpenLinks(g, id, rid, greeting);
    case BeginPost(id, rid, l) => BeginLinks(g, id, rid, l);
    case _ => DrainKeepsLinks(g, s);
  }

  lemma SafeParts(g: Gateway)
    requires GatewaySafe(g)
    ensures ObjectsSafe(g.world) && RegistrySafe(g.world) && G.IndexesAgree(g.bridge)
  {
  }

  lemma DrainKeepsLinks(g: Gateway, s: GatewayStep)
    requires GatewaySafe(g)
    requires s.MarkDrain? || s.LegacyAwaited? || s.DrainTerminated? || s.DrainClosesOne? || s.DrainClosed?
    ensures Linked(ApplyGateway(g, s))
  {
    SafeParts(g);
    hide Linked, WorldSafe, G.BridgeSafe, ObjectsSafe, RegistrySafe;
    match s
    case MarkDrain(rid) => MarkLinks(g, rid);
    case LegacyAwaited(rid) => AwaitLinks(g, rid);
    case DrainTerminated(rid) => TerminatedLinks(g, rid);
    case DrainClosesOne(rid, id) => ClosesOneLinks(g, rid, id);
    case DrainClosed(rid) => ClosedLinks(g, rid);
  }

  lemma StepKeepsGateway(g: Gateway, s: GatewayStep)
    requires GatewaySafe(g) && AdmittedGateway(g, s)
    ensures GatewaySafe(ApplyGateway(g, s))
  {
    StepKeepsWorld(g, s);
    StepKeepsBridgeSafe(g, s);
    StepKeepsLinks(g, s);
  }

  // ------------------------------------------------------------------- all runs

  ghost predicate Reaches(g: Gateway, steps: seq<GatewayStep>, g': Gateway)
    decreases |steps|
  {
    if steps == [] then g == g' else AdmittedGateway(g, steps[0]) && Reaches(ApplyGateway(g, steps[0]), steps[1..], g')
  }

  lemma {:induction false} ReachedGatewayIsSafe(g: Gateway, steps: seq<GatewayStep>, g': Gateway)
    requires GatewaySafe(g) && Reaches(g, steps, g')
    ensures GatewaySafe(g')
    decreases |steps|
  {
    if steps != [] {
      StepKeepsGateway(g, steps[0]);
      ReachedGatewayIsSafe(ApplyGateway(g, steps[0]), steps[1..], g');
    }
  }

  /** Nothing is left of a runtime: no process, lease or restart task, and on the bridge no session, no
      unfinished compatibility task and no published upstream. */
  ghost predicate RetiredCompletely(g: Gateway, rid: Rid) {
    && rid in g.world.objects && Retired(g.world.objects[rid])
    && G.Emptied(g.bridge, rid) && LegacyTasks(g.bridge, rid) == {}
  }

  lemma DoneIsRetiredCompletely(g: Gateway, rid: Rid)
    requires GatewaySafe(g) && DrainsAt(g, rid, Done)
    ensures RetiredCompletely(g, rid)
  {
    assert DrainLinked(g, rid) && Safe(g.world.objects[rid]);
    DoneIsRetired(g.world.objects[rid]);
    G.NothingTodo(g.bridge, rid);
    NoTasksLeft(g.bridge, rid);
  }

  lemma NoTasksLeft(b: G.Bridge, rid: Rid)
    requires NoExpiry(b, rid, {}) && G.Emptied(b, rid)
    ensures LegacyTasks(b, rid) == {}
  {
    forall t: Task ensures !Unfinished(b, rid, t) {
      if Of(b, t.session, rid) {
        assert B.Quiescent(b.objects[t.session]);
        assert forall l <- b.objects[t.session].posts :: !B.Busy(b.objects[t.session].posts[l]);
      }
    }
  }

  /** In every run of requests, POSTs, tasks, crashes, restarts, idle stops and reloads: a runtime that
      is not in the registry is retired completely. Reload.PublishMeans says that this is so of every
      runtime a publication leaves behind. */
  lemma UnregisteredIsRetired(steps: seq<GatewayStep>, g: Gateway, rid: Rid)
    requires Reaches(EmptyGateway, steps, g) && rid in g.world.objects && !Registered(g.world, rid)
    ensures RetiredCompletely(g, rid)
  {
    InitiallySafe();
    ReachedGatewayIsSafe(EmptyGateway, steps, g);
    DoneIsRetiredCompletely(g, rid);
  }

  /** And it stays retired, whatever request still holds a handle on it. */
  lemma {:induction false} RetiredForGood(g: Gateway, steps: seq<GatewayStep>, g': Gateway, rid: Rid)
    requires GatewaySafe(g) && Reaches(g, steps, g') && Out(g.world, rid)
    ensures GatewaySafe(g') && Out(g'.world, rid) && RetiredCompletely(g', rid)
    decreases |steps|
  {
    if steps == [] {
      DoneIsRetiredCompletely(g, rid);
    } else {
      StepKeepsGateway(g, steps[0]);
      StepStaysOut(g, steps[0], rid);
      RetiredForGood(ApplyGateway(g, steps[0]), steps[1..], g', rid);
    }
  }

  lemma StepStaysOut(g: Gateway, s: GatewayStep, rid: Rid)
    requires Out(g.world, rid) && AdmittedGateway(g, s)
    ensures Out(ApplyGateway(g, s).world, rid)
  {
    hide Out;
    match s
    case OnRuntime(x, t) => StaysOutAt(g.world, x, t, rid);
    case StartReload(c) => StaysOutBegin(g.world, c, rid);
    case PublishSnapshot => StaysOutPublish(g.world, rid);
    case MarkDrain(x) => StaysOutAt(g.world, x, Drains(DrainMark), rid);
    case LegacyAwaited(x) => StaysOutAt(g.world, x, Drains(LegacyDone), rid);
    case DrainTerminated(x) => StaysOutAt(g.world, x, Fails(Terminate), rid);
    case DrainClosed(x) => StaysOutAt(g.world, x, Drains(SessionsDone), rid);
    case OnBridge(t) => ReleaseStaysOut(g.world, g.bridge, G.Apply(g.bridge, t), t, rid);
    case _ =>
  }

  lemma ReleaseStaysOut(w: World, b: G.Bridge, b': G.Bridge, t: G.BridgeStep, rid: Rid)
    requires Out(w, rid)
    ensures Out(WorldAfter(w, b, b', t), rid)
  {
    if Moved(t).Some? && t.id in b.objects {
      StaysOutAt(w, b.objects[t.id].runtime, Serves(Release(Moved(t).value)), rid);
    }
  }

  /** In every run, reloads included, an endpoint has at most as many sessions as the configuration now
      in force allows, and none when that has no bridge. */
  lemma LimitInForce(steps: seq<GatewayStep>, g: Gateway, p: string)
    requires Reaches(EmptyGateway, steps, g)
    ensures p in g.world.registry ==>
      && g.world.registry[p] in g.world.objects
      && |G.Active(g.bridge, p)| <= MaxSessions(g.world.objects[g.world.registry[p]].config)
    ensures p !in g.world.registry ==> G.Active(g.bridge, p) == {}
  {
    InitiallySafe();
    ReachedGatewayIsSafe(EmptyGateway, steps, g);
    if p !in g.world.registry {
      ReplacedIsEmpty(g, p);
    }
  }
}
