/** The bridge in its own imperative form: the tracked upstream, the session object and the bridge
    object, whose methods are proved against the state machines of BridgeSession and LegacyBridge.
    The tasks of a POST stay values, filed in their session. */
module SseBridge {
  import opened Common
  import B = BridgeSession
  import G = LegacyBridge

  /** `_TrackedUpstream`: whoever closes it, its context is left once. */
  class TrackedUpstream {
    var closed: bool
    var exits: nat

    ghost predicate Valid()
      reads this
    {
      exits == if closed then 1 else 0
    }

    constructor ()
      ensures Valid() && !closed
    {
      closed, exits := false, 0;
    }

    method Close()
      requires Valid()
      modifies this
      ensures Valid() && closed
      ensures old(closed) ==> exits == old(exits)
    {
      if closed {
        return;
      }
      closed := true;
      exits := exits + 1;
    }
  }

  /** The loop of CancelTasks, with `todo` still to do. */
  ghost function CancelledBut(posts: map<nat, B.Post>, except: Option<nat>, todo: set<nat>): map<nat, B.Post> {
    map id | id in posts :: if id in todo || except == Some(id) then posts[id] else B.CancelTask(posts[id])
  }

  lemma CancelOne(posts: map<nat, B.Post>, except: Option<nat>, todo: set<nat>, id: nat)
    requires id in todo && id in posts
    ensures id in CancelledBut(posts, except, todo) && CancelledBut(posts, except, todo)[id] == posts[id]
    ensures CancelledBut(posts, except, todo - {id}) ==
      CancelledBut(posts, except, todo)[id := if except == Some(id) then posts[id] else B.CancelTask(posts[id])]
    ensures posts[id].response.NoTask? ==> B.CancelTask(posts[id]) == posts[id]
  {
  }

  lemma CancelEnds(posts: map<nat, B.Post>, except: Option<nat>)
    ensures CancelledBut(posts, except, posts.Keys) == posts
    ensures CancelledBut(posts, except, {}) == B.CancelAll(posts, except)
  {
  }

  class SessionObject {
    const path: string
    const runtime: Rid
    const capacity: nat
    const greeting: string
    var queue: seq<string>
    var closed: bool
    var terminal: Option<string>
    var posts: map<nat, B.Post>
    var expiry: B.Expiry
    var cleanup: B.Cleanup
    var stream: B.Stream
    var inHand: Option<string>
    var delivered: seq<string>
    var accepted: seq<string>
    var origin: seq<nat>
    var taken: nat
    var terminalSent: bool

    function Value(): B.Session
      reads this
    {
      B.Session(path, runtime, capacity, greeting, queue, closed, terminal, posts, expiry, cleanup, stream, inHand,
                delivered, accepted, origin, taken, terminalSent)
    }

    constructor (path: string, runtime: Rid, capacity: nat, greeting: string)
      ensures Value() == B.NewSession(path, runtime, capacity, greeting) && B.SessionSafe(Value())
    {
      this.path, this.runtime, this.capacity, this.greeting := path, runtime, capacity, greeting;
      queue, closed, terminal, posts := [], false, None, map[];
      expiry, cleanup, stream, inHand := B.Watching, B.Unlocked, B.NotStarted, None;
      delivered, accepted, origin, taken, terminalSent := [], [], [], 0, false;
      new;
      G.FreshSessionSafe(path, runtime, capacity, greeting);
    }

    /** `_drain_queue`. */
    method DrainQueue()
      modifies `queue
      ensures queue == []
    {
      while queue != []
        decreases |queue|
      {
        queue := queue[1..];
      }
    }

    /** The loop that cancels every unfinished task but the caller's. */
    method CancelTasks(except: Option<nat>)
      modifies `posts
      ensures posts == B.CancelAll(old(posts), except)
    {
      ghost var before := posts;
      var todo := posts.Keys;
      CancelEnds(before, except);
      while todo != {}
        invariant todo <= before.Keys && posts == CancelledBut(before, except, todo)
        decreases |todo|
      {
        var id :| id in todo;
        CancelOne(before, except, todo, id);
        todo := todo - {id};
        if except != Some(id) && posts[id].response.Task? {
          posts := posts[id := B.CancelTask(posts[id])];
        }
      }
    }

    /** The session's part of `_mark_terminal`: whatever was queued is dropped, and the terminal event is
        what the client gets instead. */
    method MarkTerminal(event: string, caller: Option<nat>)
      requires B.SessionSafe(Value())
      requires caller.Some? && caller.value in posts ==> !B.MayEnqueue(posts[caller.value])
      modifies this
      ensures Value() == B.Terminalize(old(Value()), event, caller) && B.SessionSafe(Value())
      ensures closed && (!old(closed) ==> queue == [] && terminal == Some(event))
      ensures old(closed) ==> Value() == old(Value())
    {
      B.TerminalizeKeeps(Value(), event, caller);
      DoMarkTerminal(event, caller);
    }

    method DoMarkTerminal(event: string, caller: Option<nat>)
      modifies `queue, `terminal, `closed, `posts
      ensures Value() == B.Terminalize(old(Value()), event, caller)
    {
      if closed {
        return;
      }
      DrainQueue();
      terminal := Some(event);
      closed := true;
      CancelTasks(caller);
    }

    /** `_enqueue_event` up to the put. An event that a pumping task offers goes to the end of the queue if
        the session is open and has room; when it is full the task is blocked with the event, and on a
        closed session it cleans up. */
    method EnqueueEvent(id: nat, event: string)
      requires B.SessionSafe(Value())
      modifies this
      ensures Value() == B.Puts(old(Value()), id, event) && B.SessionSafe(Value())
      ensures B.Pumps(old(Value()), id) && !old(closed) && |old(queue)| < capacity ==>
        && queue == old(queue) + [event] && accepted == old(accepted) + [event]
        && id in posts && posts[id].response == B.Task(B.Pumping, false)
      ensures B.Pumps(old(Value()), id) && !old(closed) && |old(queue)| >= capacity ==>
        && queue == old(queue) && accepted == old(accepted)
        && id in posts && posts[id].response == B.Task(B.Blocked(event), false)
      ensures B.Pumps(old(Value()), id) && old(closed) ==>
        && queue == old(queue) && accepted == old(accepted)
        && id in posts && posts[id].response == B.Task(B.Cleaning, false)
    {
      B.PutKeeps(Value(), id, event);
      if B.Pumps(Value(), id) {
        B.PutMeans(Value(), id, event);
      }
      hide B.SessionSafe;
      TryPut(id, event);
    }

    method TryPut(id: nat, event: string)
      modifies `posts, `queue, `accepted, `origin
      ensures Value() == B.Puts(old(Value()), id, event)
    {
      if !B.Enqueues(Value(), id) || posts[id].response.phase != B.Pumping {
        return;
      }
      posts := posts[id := B.Offers(posts[id], event)];
      if closed {
        posts := posts[id := B.TaskStops(posts[id])];
      } else if |queue| < capacity {
        Accept(id, event);
      } else {
        posts := posts[id := posts[id].(response := B.Task(B.Blocked(event), false))];
      }
    }

    method Accept(id: nat, event: string)
      requires id in posts
      modifies `queue, `accepted, `origin, `posts
      ensures Value() == B.Accepts(old(Value()), id, event)
    {
      queue := queue + [event];
      accepted := accepted + [event];
      origin := origin + [id];
      posts := posts[id := B.HasPut(posts[id], event)];
    }

    /** The blocked put of `_enqueue_event` finds room. */
    method PutUnblocks(id: nat)
      requires B.SessionSafe(Value())
      modifies this
      ensures Value() == B.Unblocks(old(Value()), id) && B.SessionSafe(Value())
      ensures id in old(posts) && old(posts)[id].response.Task? && !old(posts)[id].response.cancelled
              && old(posts)[id].response.phase.Blocked? && |old(queue)| < capacity ==>
        var event := old(posts)[id].response.phase.event;
        && queue == old(queue) + [event] && accepted == old(accepted) + [event]
        && id in posts && posts[id].response == B.Task(B.Pumping, false)
    {
      B.UnblockKeeps(Value(), id);
      hide B.SessionSafe;
      if B.Enqueues(Value(), id) && posts[id].response.phase.Blocked? && |queue| < capacity {
        var event := posts[id].response.phase.event;
        posts := posts[id := posts[id].(response := B.Task(B.Pumping, false))];
        Accept(id, event);
      }
    }

    /** A response task ends the session: its put timed out or its upstream failed. */
    method EndByTask(id: nat, event: string)
      requires B.SessionSafe(Value())
      modifies this
      ensures Value() == B.TaskEndsSession(old(Value()), id, event) && B.SessionSafe(Value())
    {
      B.TaskEndsSessionKeeps(Value(), id, event);
      DoEnd(id, event);
    }

    method DoEnd(id: nat, event: string)
      modifies `queue, `terminal, `closed, `posts
      ensures Value() == B.TaskEndsSession(old(Value()), id, event)
    {
      hide B.Terminalize;
      if B.MayEndSession(Value(), id) {
        posts := posts[id := posts[id].(response := B.Task(B.Cleaning, false))];
        DoMarkTerminal(event, Some(id));
      }
    }

    /** The expiry task finds the deadline passed. */
    method Expire(event: string)
      requires B.SessionSafe(Value())
      modifies this
      ensures Value() == B.Expires(old(Value()), event) && B.SessionSafe(Value())
    {
      B.ExpiresKeeps(Value(), event);
      if expiry == B.Watching {
        MarkTerminal(event, None);
        expiry := B.Expiring;
      }
    }

    // The awaits of `_stream_session`, one method for each stretch between two of them.

    method StreamStarts()
      requires B.SessionSafe(Value())
      modifies `stream, `delivered
      ensures Value() == B.StreamStarts(old(Value())) && B.SessionSafe(Value())
      ensures old(stream) == B.NotStarted ==> stream == B.Open && delivered == [greeting]
    {
      B.StreamKeeps(Value(), B.StartStream);
      if stream == B.NotStarted {
        stream := B.Open;
        delivered := [greeting];
      }
    }

    method StreamTakes()
      requires B.SessionSafe(Value())
      modifies `inHand, `queue
      ensures Value() == B.StreamTakes(old(Value())) && B.SessionSafe(Value())
    {
      B.TakeKeeps(Value());
      if stream == B.Open && inHand == None && queue != [] {
        inHand := Some(queue[0]);
        queue := queue[1..];
      }
    }

    method StreamYields()
      requires B.SessionSafe(Value())
      modifies `delivered, `taken, `inHand
      ensures Value() == B.StreamYields(old(Value())) && B.SessionSafe(Value())
    {
      B.YieldKeeps(Value());
      if stream == B.Open && inHand.Some? {
        delivered := delivered + [inHand.value];
        taken := taken + 1;
        inHand := None;
      }
    }

    method StreamEnds()
      requires B.SessionSafe(Value())
      modifies `delivered, `terminalSent, `stream
      ensures Value() == B.StreamEnds(old(Value())) && B.SessionSafe(Value())
    {
      B.EndStreamKeeps(Value());
      if stream == B.Open && closed && inHand == None {
        if terminal.Some? {
          delivered := delivered + [terminal.value];
          terminalSent := true;
        }
        stream := B.Over;
      }
    }

    /** The loop of `_stream_session` on a closed session: what is still queued is sent in order, then
        the terminal event, if there is one, and the stream is over. */
    method StreamOut()
      requires B.SessionSafe(Value()) && closed && stream == B.Open && inHand == None
      modifies `inHand, `queue, `delivered, `taken, `terminalSent, `stream
      ensures B.SessionSafe(Value()) && stream == B.Over && queue == []
      ensures delivered == old(delivered) + old(queue) + if terminal.Some? then [terminal.value] else []
    {
      hide B.SessionSafe;
      while queue != []
        invariant B.SessionSafe(Value()) && stream == B.Open && inHand == None
        invariant delivered + queue == old(delivered) + old(queue)
        decreases |queue|
      {
        StreamTakes();
        StreamYields();
      }
      StreamEnds();
    }

    /** `_close_session_object` up to its wait. */
    method BeginClose(who: B.Closer)
      requires B.SessionSafe(Value())
      modifies this
      ensures Value() == B.BeginsClose(old(Value()), who) && B.SessionSafe(Value())
    {
      B.BeginCloseKeeps(Value(), who);
      hide B.SessionSafe;
      if cleanup != B.Unlocked || (who == B.OwnExpiry && expiry != B.Expiring) {
        return;
      }
      closed := true;
      cleanup := B.Gathering(who, B.BusyPosts(Value()), who != B.OwnExpiry && expiry != B.Ended);
      CancelTasks(None);
    }

    method CloseUpstream(id: nat)
      requires B.SessionSafe(Value())
      modifies `posts
      ensures Value() == B.ClosesUpstream(old(Value()), id) && B.SessionSafe(Value())
      ensures cleanup.ClosingUpstreams? ==>
        forall x <- posts :: posts[x].listed ==> x != id && x in old(posts) && old(posts)[x].listed
    {
      B.CloseUpstreamKeeps(Value(), id);
      if cleanup.ClosingUpstreams? && id in posts && posts[id].listed {
        posts := posts[id := B.Discard(B.CloseTracked(posts[id]))];
      }
    }

    /** The loop over the published upstreams, after which the session may be left. */
    method CloseUpstreams()
      requires B.SessionSafe(Value()) && cleanup.ClosingUpstreams?
      modifies `posts
      ensures B.SessionSafe(Value()) && B.MayLeave(Value())
    {
      var todo: set<nat> := set id | id in posts && posts[id].listed;
      while todo != {}
        invariant B.SessionSafe(Value()) && forall id <- posts :: posts[id].listed ==> id in todo
        decreases |todo|
      {
        var id :| id in todo;
        todo := todo - {id};
        CloseUpstream(id);
      }
    }

    method FinishClose()
      requires B.SessionSafe(Value()) && B.MayLeave(Value())
      modifies this
      ensures Value() == B.Leaves(old(Value())) && B.SessionSafe(Value()) && B.Quiescent(Value())
    {
      B.LeaveKeeps(Value());
      B.LeavesQuiescent(Value());
      DrainQueue();
      if cleanup.who == B.OwnExpiry {
        expiry := B.Closed;
      }
      cleanup := B.Unlocked;
    }
  }

  class LegacySSEBridge {
    var objects: map<nat, SessionObject>
    var index: set<nat>
    var owned: set<nat>
    var sessionIds: map<Rid, set<nat>>
    var tombstones: seq<G.Tombstone>
    var ended: seq<G.Tombstone>

    ghost predicate Valid()
      reads this
    {
      && index <= objects.Keys
      && forall a, b :: a in objects && b in objects && a != b ==> objects[a] != objects[b]
    }

    ghost function Values(): map<nat, B.Session>
      reads this, objects.Values
    {
      map id | id in objects :: objects[id].Value()
    }

    ghost function Value(): G.Bridge
      reads this, objects.Values
    {
      G.Bridge(Values(), index, owned, sessionIds, tombstones, ended)
    }

    constructor ()
      ensures Valid() && Value() == G.EmptyBridge && G.BridgeSafe(Value())
    {
      objects, index, owned, sessionIds, tombstones, ended := map[], {}, {}, map[], [], [];
    }

    method ActiveCount(path: string) returns (count: nat)
      requires Valid()
      ensures count == |G.Active(Value(), path)|
    {
      count := 0;
      var todo := index;
      ghost var counted: set<nat> := {};
      while todo != {}
        invariant todo <= index
        invariant counted == set id | id in index - todo && objects[id].path == path && !objects[id].closed
        invariant count == |counted|
        decreases |todo|
      {
        var id :| id in todo;
        todo := todo - {id};
        if objects[id].path == path && !objects[id].closed {
          count := count + 1;
          counted := counted + {id};
        }
      }
      assert counted == G.Active(Value(), path);
    }

    method OpenSession(id: nat, path: string, runtime: Rid, config: Option<BridgeConfig>, greeting: string)
      requires Valid() && G.BridgeSafe(Value()) && id !in objects
      modifies this
      ensures Valid() && Value() == G.OpenSession(old(Value()), id, path, runtime, config, greeting)
      ensures G.BridgeSafe(Value())
    {
      G.OpenKeeps(Value(), id, path, runtime, config, greeting);
      DoOpenSession(id, path, runtime, config, greeting);
    }

    method DoOpenSession(id: nat, path: string, runtime: Rid, config: Option<BridgeConfig>, greeting: string)
      requires Valid() && id !in objects
      modifies this
      ensures Valid() && Value() == G.OpenSession(old(Value()), id, path, runtime, config, greeting)
    {
      hide G.Active;
      if config.None? {
        return;
      }
      var count := ActiveCount(path);
      if count >= config.value.maxSessions {
        return;
      }
      var session := new SessionObject(path, runtime, config.value.queueCapacity, greeting);
      Admit(id, session);
    }

    method Admit(id: nat, session: SessionObject)
      requires Valid() && id !in objects && session !in objects.Values
      modifies this
      ensures Valid() && Values() == old(Values())[id := session.Value()]
      ensures index == old(index) + {id} && owned == old(owned) + {id}
      ensures sessionIds == old(sessionIds)[session.runtime := G.Ids(old(Value()), session.runtime) + {id}]
      ensures tombstones == old(tombstones) && ended == old(ended)
    {
      File(id, session);
      ListIn(id, session.runtime);
    }

    method ListIn(id: nat, runtime: Rid)
      modifies `index, `owned, `sessionIds
      ensures index == old(index) + {id} && owned == old(owned) + {id}
      ensures sessionIds ==
        old(sessionIds)[runtime := (if runtime in old(sessionIds) then old(sessionIds)[runtime] else {}) + {id}]
    {
      sessionIds := sessionIds[runtime := (if runtime in sessionIds then sessionIds[runtime] else {}) + {id}];
      index, owned := index + {id}, owned + {id};
    }

    method File(id: nat, session: SessionObject)
      requires Valid() && id !in objects && session !in objects.Values
      modifies `objects
      ensures Valid() && objects == old(objects)[id := session] && Values() == old(Values())[id := session.Value()]
    {
      objects := objects[id := session];
    }

    /** `_remember_closed` with its loop. */
    method RememberClosed(t: G.Tombstone)
      requires |tombstones| <= G.MAX_TOMBSTONES
      modifies `tombstones
      ensures tombstones == G.Remember(old(tombstones), t)
    {
      tombstones := tombstones + [t];
      ghost var all := tombstones;
      while |tombstones| > G.MAX_TOMBSTONES
        invariant |tombstones| <= |all| && tombstones == all[|all| - |tombstones|..]
        invariant |tombstones| == |all| || |tombstones| >= G.MAX_TOMBSTONES
        decreases |tombstones|
      {
        tombstones := tombstones[1..];
      }
    }

    method Unlist(id: nat)
      requires Valid() && id in objects
      modifies `index, `sessionIds
      ensures Valid() && Value() == G.Unlist(old(Value()), id)
    {
      var runtime := objects[id].runtime;
      index := index - {id};
      sessionIds := sessionIds[runtime := (if runtime in sessionIds then sessionIds[runtime] else {}) - {id}];
    }

    /** The bridge's part of `_mark_terminal`, before the session is marked. */
    method Record(id: nat, statusCode: int, message: string)
      requires Valid() && id in objects && |tombstones| <= G.MAX_TOMBSTONES
      modifies this
      ensures Valid() && objects == old(objects)
      ensures var t := G.Tombstone(id, G.ClosedSession(objects[id].path, statusCode, message));
        Value() == G.Unlist(old(Value()), id).(tombstones := G.Remember(old(tombstones), t), ended := old(ended) + [t])
    {
      var t := G.Tombstone(id, G.ClosedSession(objects[id].path, statusCode, message));
      Unlist(id);
      RememberClosed(t);
      ended := ended + [t];
    }

    /** A session changes; the others do not, as each is its own object. */
    twostate lemma OnlyOneChanged(id: nat)
      requires old(Valid()) && id in objects && objects == old(objects)
      requires forall x <- objects :: x != id ==> objects[x].Value() == old(objects[x].Value())
      ensures Values() == old(Values())[id := objects[id].Value()]
    {
    }

    /** The expiry task finds the deadline passed. */
    method ExpireSession(id: nat, event: string, message: string)
      requires Valid() && G.BridgeSafe(Value()) && id in objects
      modifies this, objects[id]
      ensures Valid() && Value() == G.ExpireSession(old(Value()), id, event, message)
      ensures G.BridgeSafe(Value())
    {
      G.EndingKeeps(Value(), G.Expire(id, event, message));
      assert B.SessionSafe(Values()[id]);
      DoExpireSession(id, event, message);
    }

    method DoExpireSession(id: nat, event: string, message: string)
      requires Valid() && id in objects
      requires B.SessionSafe(objects[id].Value()) && |tombstones| <= G.MAX_TOMBSTONES
      modifies this, objects[id]
      ensures Valid() && Value() == G.ExpireSession(old(Value()), id, event, message)
    {
      var session := objects[id];
      B.EndsWhen(session.Value(), 0, event);
      hide B.Expires, B.SessionSafe;
      if session.expiry == B.Watching && !session.closed {
        Record(id, 410, message);
      }
      session.Expire(event);
      OnlyOneChanged(id);
    }

    /** A response task's put timed out, or its upstream failed. */
    method EndByTask(id: nat, post: nat, event: string, statusCode: int, message: string)
      requires Valid() && G.BridgeSafe(Value()) && id in objects
      modifies this, objects[id]
      ensures Valid() && Value() == G.TaskEnds(old(Value()), id, post, event, statusCode, message)
      ensures G.BridgeSafe(Value())
    {
      G.EndingKeeps(Value(), G.EndByTask(id, post, event, statusCode, message));
      assert B.SessionSafe(Values()[id]);
      DoEndByTask(id, post, event, statusCode, message);
    }

    method DoEndByTask(id: nat, post: nat, event: string, statusCode: int, message: string)
      requires Valid() && id in objects
      requires B.SessionSafe(objects[id].Value()) && |tombstones| <= G.MAX_TOMBSTONES
      modifies this, objects[id]
      ensures Valid() && Value() == G.TaskEnds(old(Value()), id, post, event, statusCode, message)
    {
      var session := objects[id];
      ghost var s := session.Value();
      B.EndsWhen(s, post, event);
      hide B.TaskEndsSession, B.SessionSafe, B.MayEndSession;
      var ends := B.MayEndSession(session.Value(), post) && !session.closed;
      if ends {
        Record(id, statusCode, message);
      }
      label recorded:
      session.EndByTask(post, event);
      OnlyOneChanged@recorded(id);
      assert Value() == old@recorded(Value()).(objects := old@recorded(Values())[id := session.Value()]);
    }

    /** The answers of `handle_post` up to the deadline check. */
    method FindSession(id: nat, path: string, runtime: Rid) returns (answer: G.Lookup)
      requires Valid()
      ensures answer == G.LookUp(Value(), id, path, runtime)
    {
      if id !in index {
        match G.FindClosed(tombstones, id) {
          case None => return G.NotFound;
          case Some(closed) =>
            if closed.path != path {
              return G.WrongEndpoint;
            }
            return G.Gone(closed);
        }
      }
      if objects[id].path != path || objects[id].runtime != runtime {
        return G.WrongEndpoint;
      }
      return G.Found;
    }

    /** A POST finds its session past the deadline. */
    method FindExpired(id: nat, event: string, message: string)
      requires Valid() && G.BridgeSafe(Value()) && id in index
      modifies this, objects[id]
      ensures Valid() && Value() == G.PostFindsExpired(old(Value()), id, event, message)
      ensures G.BridgeSafe(Value())
    {
      G.EndingKeeps(Value(), G.FindExpired(id, event, message));
      assert B.SessionSafe(Values()[id]);
      DoFindExpired(id, event, message);
    }

    method DoFindExpired(id: nat, event: string, message: string)
      requires Valid() && id in index
      requires B.SessionSafe(objects[id].Value()) && |tombstones| <= G.MAX_TOMBSTONES
      modifies this, objects[id]
      ensures Valid() && Value() == G.PostFindsExpired(old(Value()), id, event, message)
    {
      var session := objects[id];
      B.EndsWhen(session.Value(), 0, event);
      hide B.Terminalize, B.SessionSafe;
      if !session.closed {
        Record(id, 410, message);
      }
      session.MarkTerminal(event, None);
      OnlyOneChanged(id);
    }

    /** `_close_session_object` up to waiting for the session's tasks. */
    method BeginClose(id: nat, who: B.Closer)
      requires Valid() && G.BridgeSafe(Value()) && id in objects
      modifies this, objects[id]
      ensures Valid() && Value() == G.BeginClose(old(Value()), id, who)
      ensures G.BridgeSafe(Value())
    {
      G.BeginCloseBridgeKeeps(Value(), id, who);
      assert B.SessionSafe(Values()[id]);
      DoBeginClose(id, who);
    }

    method DoBeginClose(id: nat, who: B.Closer)
      requires Valid() && id in objects
      requires B.SessionSafe(objects[id].Value()) && |tombstones| <= G.MAX_TOMBSTONES
      modifies this, objects[id]
      ensures Valid() && Value() == G.BeginClose(old(Value()), id, who)
    {
      var session := objects[id];
      if session.cleanup == B.Unlocked && (who == B.OwnExpiry ==> session.expiry == B.Expiring) {
        Unlist(id);
        session.BeginClose(who);
        OnlyOneChanged(id);
      }
    }

    method Disown(id: nat)
      requires Valid()
      modifies `owned
      ensures Valid() && Value() == old(Value()).(owned := old(owned) - {id})
    {
      owned := owned - {id};
    }

    /** The end of `_close_session_object`: the session is disowned and nothing of it runs. */
    method FinishClose(id: nat)
      requires Valid() && G.BridgeSafe(Value()) && id in objects && B.MayLeave(objects[id].Value())
      modifies `owned, objects[id]
      ensures Valid() && Value() == G.Leave(old(Value()), id)
      ensures G.BridgeSafe(Value()) && B.Quiescent(objects[id].Value())
    {
      G.LeaveBridgeKeeps(Value(), id);
      assert B.SessionSafe(Values()[id]);
      objects[id].FinishClose();
      OnlyOneChanged(id);
      Disown(id);
    }

    /** The list that `close_endpoint` makes before its loop. */
    method EndpointSessions(path: string) returns (sessions: set<nat>)
      requires Valid() && owned <= objects.Keys
      ensures sessions == G.EndpointSessions(Value(), path)
    {
      sessions := {};
      var todo := owned;
      while todo != {}
        invariant todo <= owned
        invariant sessions == set id | id in owned - todo && objects[id].path == path
        decreases |todo|
      {
        var id :| id in todo;
        todo := todo - {id};
        if objects[id].path == path {
          sessions := sessions + {id};
        }
      }
      assert sessions == G.EndpointSessions(Value(), path);
    }
  }
}
