/** The legacy SSE bridge over all its sessions: admission, expiry, closing, the three indexes and
    the tombstones (mcp_router/compat/legacy_sse.py, LegacySSEBridge). */
module LegacyBridge {
  import opened Common
  import opened BridgeSession

  const MAX_TOMBSTONES: nat := 4096

  datatype ClosedSession = ClosedSession(path: string, statusCode: int, message: string)

  datatype Tombstone = Tombstone(id: nat, closed: ClosedSession)

  datatype Bridge = Bridge(
    objects: map<nat, Session>,        // every session ever admitted
    index: set<nat>,                   // _sessions
    owned: set<nat>,                   // _owned_sessions
    sessionIds: map<Rid, set<nat>>,    // legacy_session_ids of each runtime
    tombstones: seq<Tombstone>,        // _closed_sessions, oldest first
    ended: seq<Tombstone>)             // every session ever closed with a terminal event, in order

  const EmptyBridge := Bridge(map[], {}, {}, map[], [], [])

  function Ids(b: Bridge, runtime: Rid): set<nat> {
    if runtime in b.sessionIds then b.sessionIds[runtime] else {}
  }

  // --------------------------------------------------------------- operations

  /** The sessions counted against an endpoint's limit. */
  function Active(b: Bridge, path: string): set<nat> {
    set id | id in b.index && id in b.objects && b.objects[id].path == path && !b.objects[id].closed
  }

  function OpenSession(
    b: Bridge, id: nat, path: string, runtime: Rid, config: Option<BridgeConfig>, greeting: string): Bridge
  {
    if config.None? || |Active(b, path)| >= config.value.maxSessions || id in b.objects then b
    else b.(objects := b.objects[id := NewSession(path, runtime, config.value.queueCapacity, greeting)],
            index := b.index + {id},
            owned := b.owned + {id},
            sessionIds := b.sessionIds[runtime := Ids(b, runtime) + {id}])
  }

  /** `_remember_closed`. */
  function Remember(tombstones: seq<Tombstone>, t: Tombstone): seq<Tombstone> {
    LastOf(tombstones + [t], MAX_TOMBSTONES)
  }

  function LastOf<T>(s: seq<T>, n: nat): seq<T> {
    if |s| <= n then s else s[|s| - n..]
  }

  /** Take a session out of the two indexes. */
  function Unlist(b: Bridge, id: nat): Bridge
    requires id in b.objects
  {
    var runtime := b.objects[id].runtime;
    b.(index := b.index - {id}, sessionIds := b.sessionIds[runtime := Ids(b, runtime) - {id}])
  }

  /** `_mark_terminal`; `s` is the session after its own part of it. */
  function MarkTerminal(b: Bridge, id: nat, s: Session, statusCode: int, message: string): Bridge
    requires id in b.objects
  {
    if b.objects[id].closed || !s.closed then b.(objects := b.objects[id := s])
    else
      var t := Tombstone(id, ClosedSession(b.objects[id].path, statusCode, message));
      Unlist(b, id).(objects := b.objects[id := s], tombstones := Remember(b.tombstones, t), ended := b.ended + [t])
  }

  /** A response task's put timed out (503) or its upstream failed (502). */
  function TaskEnds(b: Bridge, id: nat, post: nat, event: string, statusCode: int, message: string): Bridge {
    if id !in b.objects then b
    else MarkTerminal(b, id, TaskEndsSession(b.objects[id], post, event), statusCode, message)
  }

  function ExpireSession(b: Bridge, id: nat, event: string, message: string): Bridge {
    if id !in b.objects then b else MarkTerminal(b, id, Expires(b.objects[id], event), 410, message)
  }

  /** A POST finds its session past the deadline; it then goes on to close it. */
  function PostFindsExpired(b: Bridge, id: nat, event: string, message: string): Bridge {
    if id !in b.index || id !in b.objects then b
    else MarkTerminal(b, id, Terminalize(b.objects[id], event, None), 410, message)
  }

  /** `_close_session_object` until it waits for the session's tasks. */
  function BeginClose(b: Bridge, id: nat, who: Closer): Bridge {
    if id !in b.objects then b
    else
      var s := BeginsClose(b.objects[id], who);
      if s == b.objects[id] then b else Unlist(b, id).(objects := b.objects[id := s])
  }

  /** The end of `_close_session_object`: the session is disowned. */
  function Leave(b: Bridge, id: nat): Bridge {
    if id !in b.objects || !MayLeave(b.objects[id]) then b
    else b.(objects := b.objects[id := Leaves(b.objects[id])], owned := b.owned - {id})
  }

  function OnSession(b: Bridge, id: nat, t: QuietStep): Bridge {
    if id !in b.objects then b else b.(objects := b.objects[id := ApplyQuiet(b.objects[id], t)])
  }

  datatype BridgeStep =
    | Open(id: nat, path: string, runtime: Rid, config: Option<BridgeConfig>, greeting: string)
    | EndByTask(id: nat, post: nat, event: string, statusCode: int, message: string)
    | Expire(id: nat, event: string, message: string)
    | FindExpired(id: nat, event: string, message: string)
    | StartClose(id: nat, who: Closer)
    | FinishClose(id: nat)
    | Within(id: nat, step: QuietStep)

  function Apply(b: Bridge, s: BridgeStep): Bridge {
    match s
    case Open(id, path, runtime, config, greeting) => OpenSession(b, id, path, runtime, config, greeting)
    case EndByTask(id, post, event, code, message) => TaskEnds(b, id, post, event, code, message)
    case Expire(id, event, message) => ExpireSession(b, id, event, message)
    case FindExpired(id, event, message) => PostFindsExpired(b, id, event, message)
    case StartClose(id, who) => BeginClose(b, id, who)
    case FinishClose(id) => Leave(b, id)
    case Within(id, t) => OnSession(b, id, t)
  }

  // ---------------------------------------------------------------- invariant

  ghost predicate SessionsSafe(b: Bridge) {
    forall id <- b.objects :: SessionSafe(b.objects[id])
  }

  /** The three indexes agree. */
  ghost predicate IndexesAgree(b: Bridge) {
    && b.index <= b.owned <= b.objects.Keys
    && (forall id <- b.objects :: id in b.index <==> !b.objects[id].closed)
    && (forall runtime: Rid, id: nat :: id in Ids(b, runtime) <==> id in b.index && b.objects[id].runtime == runtime)
  }

  ghost predicate DisownedQuiescent(b: Bridge) {
    forall id <- b.objects :: id !in b.owned ==> Quiescent(b.objects[id])
  }

  /** The tombstones are the most recent of the sessions closed with a terminal event. */
  ghost predicate TombstonesRecent(b: Bridge) {
    && b.tombstones == LastOf(b.ended, MAX_TOMBSTONES)
    && (forall i, j :: 0 <= i < j < |b.ended| ==> b.ended[i].id != b.ended[j].id)
    && (forall id <- b.objects :: b.objects[id].terminal.Some? <==> exists t :: t in b.ended && t.id == id)
    && (forall t <- b.ended :: t.id in b.objects && t.closed.path == b.objects[t.id].path)
  }

  ghost predicate BridgeSafe(b: Bridge) {
    SessionsSafe(b) && IndexesAgree(b) && DisownedQuiescent(b) && TombstonesRecent(b)
  }

  // ------------------------------------------------------------- preservation

  lemma RecentStep<T>(ended: seq<T>, t: T, n: nat)
    requires n > 0
    ensures LastOf(LastOf(ended, n) + [t], n) == LastOf(ended + [t], n)
  {
  }

  /** A session changes without changing its place: same path, runtime, `closed` and terminal event. */
  ghost predicate SamePlace(s: Session, s': Session) {
    s'.path == s.path && s'.runtime == s.runtime && s'.closed == s.closed && (s'.terminal.Some? <==> s.terminal.Some?)
  }

  lemma ReplaceKeeps(b: Bridge, id: nat, s: Session)
    requires BridgeSafe(b) && id in b.objects && SessionSafe(s) && SamePlace(b.objects[id], s)
    requires Quiescent(b.objects[id]) ==> Quiescent(s)
    ensures BridgeSafe(b.(objects := b.objects[id := s]))
  {
    ReplaceIndexes(b, id, s);
    ReplaceTombstones(b, id, s);
  }

  lemma ReplaceIndexes(b: Bridge, id: nat, s: Session)
    requires IndexesAgree(b) && id in b.objects && SamePlace(b.objects[id], s)
    ensures IndexesAgree(b.(objects := b.objects[id := s]))
  {
    var b' := b.(objects := b.objects[id := s]);
    forall r: Rid, x: nat ensures x in Ids(b', r) <==> x in b'.index && b'.objects[x].runtime == r {
      assert x in Ids(b', r) <==> x in Ids(b, r);
    }
  }

  lemma ReplaceTombstones(b: Bridge, id: nat, s: Session)
    requires TombstonesRecent(b) && id in b.objects && SamePlace(b.objects[id], s)
    ensures TombstonesRecent(b.(objects := b.objects[id := s]))
  {
    var b' := b.(objects := b.objects[id := s]);
    assert forall x <- b'.objects :: b'.objects[x].terminal.Some? <==> b.objects[x].terminal.Some?;
  }

  lemma ListIndexes(b: Bridge, id: nat, s: Session, b': Bridge)
    requires IndexesAgree(b) && id !in b.objects && !s.closed
    requires b'.objects == b.objects[id := s] && b'.owned == b.owned + {id} && b'.index == b.index + {id}
    requires b'.sessionIds == b.sessionIds[s.runtime := Ids(b, s.runtime) + {id}]
    ensures IndexesAgree(b')
  {
    forall r: Rid, x: nat ensures x in Ids(b', r) <==> x in b'.index && b'.objects[x].runtime == r {
      assert x in Ids(b', r) <==> x in Ids(b, r) || (r == s.runtime && x == id);
    }
  }

  lemma FreshSessionSafe(path: string, runtime: Rid, capacity: nat, greeting: string)
    ensures SessionSafe(NewSession(path, runtime, capacity, greeting))
  {
  }

  lemma ListTombstones(b: Bridge, id: nat, s: Session, b': Bridge)
    requires TombstonesRecent(b) && id !in b.objects && s.terminal.None?
    requires b'.objects == b.objects[id := s] && b'.tombstones == b.tombstones && b'.ended == b.ended
    ensures TombstonesRecent(b')
  {
  }

  lemma OpenKeeps(b: Bridge, id: nat, path: string, runtime: Rid, config: Option<BridgeConfig>, greeting: string)
    requires BridgeSafe(b)
    ensures BridgeSafe(OpenSession(b, id, path, runtime, config, greeting))
  {
    var b' := OpenSession(b, id, path, runtime, config, greeting);
    if b' != b {
      var s := NewSession(path, runtime, config.value.queueCapacity, greeting);
      FreshSessionSafe(path, runtime, config.value.queueCapacity, greeting);
      ListIndexes(b, id, s, b');
      ListTombstones(b, id, s, b');
    }
  }

  /** A session is closed for the first time, or once more. */
  lemma UnlistIndexes(b: Bridge, id: nat, s: Session, b': Bridge)
    requires IndexesAgree(b) && id in b.objects && s.closed && s.runtime == b.objects[id].runtime
    requires b'.objects == b.objects[id := s] && b'.owned == b.owned
    requires b'.index == Unlist(b, id).index && b'.sessionIds == Unlist(b, id).sessionIds
    ensures IndexesAgree(b')
  {
    forall r: Rid, x: nat ensures x in Ids(b', r) <==> x in b'.index && b'.objects[x].runtime == r {
      assert x in Ids(b', r) <==> x in Ids(b, r) && x != id by {
        assert x == id && x in Ids(b, r) ==> r == s.runtime;
      }
    }
  }

  lemma EndedGrows(b: Bridge, id: nat, s: Session, t: Tombstone, b': Bridge)
    requires TombstonesRecent(b) && id in b.objects && b.objects[id].terminal.None? && s.terminal.Some?
    requires t.id == id && t.closed.path == s.path == b.objects[id].path
    requires b'.objects == b.objects[id := s] && b'.ended == b.ended + [t] && b'.tombstones == Remember(b.tombstones, t)
    ensures TombstonesRecent(b')
  {
    RecentStep(b.ended, t, MAX_TOMBSTONES);
    assert forall x :: x in b'.ended <==> x in b.ended || x == t;
    assert t in b'.ended;
  }

  /** What a terminating step of a session must do to it. */
  ghost predicate Terminates(s: Session, s': Session) {
    && s'.path == s.path && s'.runtime == s.runtime
    && (if s.closed || !s'.closed then SamePlace(s, s') else s'.terminal.Some?)
    && (s.closed ==> NothingAdded(s, s'))
    && (Quiescent(s) ==> Quiescent(s'))
  }

  lemma MarkTerminalKeeps(b: Bridge, id: nat, s: Session, statusCode: int, message: string)
    requires BridgeSafe(b) && id in b.objects && SessionSafe(s) && Terminates(b.objects[id], s)
    ensures BridgeSafe(MarkTerminal(b, id, s, statusCode, message))
  {
    if b.objects[id].closed || !s.closed {
      ReplaceKeeps(b, id, s);
    } else {
      var t := Tombstone(id, ClosedSession(b.objects[id].path, statusCode, message));
      var b' := MarkTerminal(b, id, s, statusCode, message);
      UnlistIndexes(b, id, s, b');
      EndedGrows(b, id, s, t, b');
      assert id in b.owned;
    }
  }

  lemma TerminalizeTerminates(s: Session, event: string, caller: Option<nat>)
    ensures Terminates(s, Terminalize(s, event, caller))
  {
  }

  lemma ExpiresTerminates(s: Session, event: string)
    ensures Terminates(s, Expires(s, event))
  {
  }

  lemma TaskEndsTerminates(s: Session, post: nat, event: string)
    requires PostsSafe(s)
    ensures Terminates(s, TaskEndsSession(s, post, event))
  {
    assert MayEndSession(s, post) ==> MayEnqueue(s.posts[post]);
    if MayEndSession(s, post) {
      var p := s.posts[post].(response := Task(Cleaning, false));
      TerminalizeTerminates(WithPost(s, post, p), event, Some(post));
    }
  }

  lemma BeginsCloseMeans(s: Session, who: Closer)
    requires SessionSafe(s)
    ensures var s' := BeginsClose(s, who);
      && s'.path == s.path && s'.runtime == s.runtime && s'.terminal == s.terminal
      && (s'.closed || s' == s) && (s.closed ==> NothingAdded(s, s')) && (Quiescent(s) ==> Quiescent(s'))
  {
    if s.closed {
      ClosedBeginCloseAddsNothing(s, who);
    }
  }

  lemma CloseTombstones(b: Bridge, id: nat, s: Session, b': Bridge)
    requires TombstonesRecent(b) && id in b.objects
    requires s.terminal == b.objects[id].terminal && s.path == b.objects[id].path
    requires b'.objects == b.objects[id := s] && b'.tombstones == b.tombstones && b'.ended == b.ended
    ensures TombstonesRecent(b')
  {
  }

  lemma BeginCloseBridgeKeeps(b: Bridge, id: nat, who: Closer)
    requires BridgeSafe(b)
    ensures BridgeSafe(BeginClose(b, id, who))
  {
    var b' := BeginClose(b, id, who);
    if b' != b {
      var s := BeginsClose(b.objects[id], who);
      BeginCloseKeeps(b.objects[id], who);
      BeginsCloseMeans(b.objects[id], who);
      UnlistIndexes(b, id, s, b');
      CloseTombstones(b, id, s, b');
    }
  }

  lemma DisownKeeps(b: Bridge, id: nat)
    requires BridgeSafe(b) && id in b.objects && Quiescent(b.objects[id])
    ensures BridgeSafe(b.(owned := b.owned - {id}))
  {
    var b' := b.(owned := b.owned - {id});
    assert forall runtime :: Ids(b', runtime) == Ids(b, runtime);
    assert id !in b.index;
  }

  lemma LeaveBridgeKeeps(b: Bridge, id: nat)
    requires BridgeSafe(b)
    ensures BridgeSafe(Leave(b, id))
  {
    if id in b.objects && MayLeave(b.objects[id]) {
      LeaveKeeps(b.objects[id]);
      LeavesQuiescent(b.objects[id]);
      ReplaceKeeps(b, id, Leaves(b.objects[id]));
      DisownKeeps(b.(objects := b.objects[id := Leaves(b.objects[id])]), id);
    }
  }

  lemma QuietStaysInPlace(s: Session, t: QuietStep)
    ensures SamePlace(s, ApplyQuiet(s, t))
  {
    match t
    case Works(u) => WorkStaysInPlace(s, u);
    case Cleans(_) =>
    case Streams(_) =>
  }

  lemma WorkStaysInPlace(s: Session, t: WorkStep)
    ensures SamePlace(s, ApplyWork(s, t))
  {
  }

  lemma OnSessionKeeps(b: Bridge, id: nat, t: QuietStep)
    requires BridgeSafe(b)
    ensures BridgeSafe(OnSession(b, id, t))
  {
    if id in b.objects {
      var s := b.objects[id];
      QuietKeeps(s, t);
      QuietStaysInPlace(s, t);
      if s.closed {
        ClosedQuietAddsNothing(s, t);
      }
      ReplaceKeeps(b, id, ApplyQuiet(s, t));
    }
  }

  lemma EndingKeeps(b: Bridge, t: BridgeStep)
    requires BridgeSafe(b) && (t.EndByTask? || t.Expire? || t.FindExpired?)
    ensures BridgeSafe(Apply(b, t))
  {
    if t.id in b.objects {
      var s := b.objects[t.id];
      match t
      case EndByTask(id, post, event, code, message) =>
        TaskEndsSessionKeeps(s, post, event);
        TaskEndsTerminates(s, post, event);
        MarkTerminalKeeps(b, id, TaskEndsSession(s, post, event), code, message);
      case Expire(id, event, message) =>
        ExpiresKeeps(s, event);
        ExpiresTerminates(s, event);
        MarkTerminalKeeps(b, id, Expires(s, event), 410, message);
      case FindExpired(id, event, message) =>
        TerminalizeKeeps(s, event, None);
        TerminalizeTerminates(s, event, None);
        MarkTerminalKeeps(b, id, Terminalize(s, event, None), 410, message);
    }
  }

  lemma StepKeepsBridge(b: Bridge, t: BridgeStep)
    requires BridgeSafe(b)
    ensures BridgeSafe(Apply(b, t))
  {
    match t
    case Open(id, path, runtime, config, greeting) => OpenKeeps(b, id, path, runtime, config, greeting);
    case StartClose(id, who) => BeginCloseBridgeKeeps(b, id, who);
    case FinishClose(id) => LeaveBridgeKeeps(b, id);
    case Within(id, u) => OnSessionKeeps(b, id, u);
    case _ => EndingKeeps(b, t);
  }

  // ----------------------------------------------------------------- all runs

  ghost predicate Reaches(b: Bridge, steps: seq<BridgeStep>, b': Bridge)
    decreases |steps|
  {
    if steps == [] then b == b' else Reaches(Apply(b, steps[0]), steps[1..], b')
  }

  lemma {:induction false} ReachedBridgeIsSafe(b: Bridge, steps: seq<BridgeStep>, b': Bridge)
    requires BridgeSafe(b) && Reaches(b, steps, b')
    ensures BridgeSafe(b')
    decreases |steps|
  {
    if steps != [] {
      StepKeepsBridge(b, steps[0]);
      ReachedBridgeIsSafe(Apply(b, steps[0]), steps[1..], b');
    }
  }

  /** At every moment of every run the indexes agree: `_sessions` holds exactly the unclosed
      sessions, each runtime lists exactly its own of them, and all of them are owned. */
  lemma IndexesAgreeAlways(steps: seq<BridgeStep>, b: Bridge)
    requires Reaches(EmptyBridge, steps, b)
    ensures b.index == set id | id in b.objects && !b.objects[id].closed
    ensures forall runtime ::
      Ids(b, runtime) == set id | id in b.index && id in b.objects && b.objects[id].runtime == runtime
    ensures b.index <= b.owned <= b.objects.Keys
  {
    assert BridgeSafe(EmptyBridge);
    hide Apply, SessionsSafe, DisownedQuiescent, TombstonesRecent, Reaches;
    ReachedBridgeIsSafe(EmptyBridge, steps, b);
    IndexesAre(b);
  }

  lemma IndexesAre(b: Bridge)
    requires IndexesAgree(b)
    ensures b.index == set id | id in b.objects && !b.objects[id].closed
    ensures forall runtime ::
      Ids(b, runtime) == set id | id in b.index && id in b.objects && b.objects[id].runtime == runtime
  {
    forall runtime
      ensures Ids(b, runtime) == set id | id in b.index && id in b.objects && b.objects[id].runtime == runtime
    {
    }
  }

  /** A tombstone is kept for exactly the 4096 most recent sessions closed with a terminal event,
      each such session once. */
  lemma TombstonesAlways(steps: seq<BridgeStep>, b: Bridge, id: nat)
    requires Reaches(EmptyBridge, steps, b)
    ensures |b.tombstones| == if |b.ended| <= 4096 then |b.ended| else 4096
    ensures b.tombstones == b.ended[|b.ended| - |b.tombstones|..]
    ensures id in b.objects && b.objects[id].terminal.Some? <==> exists k :: 0 <= k < |b.ended| && b.ended[k].id == id
    ensures forall j, k :: 0 <= j < k < |b.ended| ==> b.ended[j].id != b.ended[k].id
  {
    ReachedBridgeIsSafe(EmptyBridge, steps, b);
  }

  /** Once disowned, a session has an empty queue and no unfinished task, except possibly the expiry
      task that has closed it and is about to return; every upstream ever published on it has been
      closed exactly once. */
  lemma DisownedIsFinished(steps: seq<BridgeStep>, b: Bridge, id: nat)
    requires Reaches(EmptyBridge, steps, b) && id in b.objects && id !in b.owned
    ensures var s := b.objects[id];
      && s.closed && s.queue == [] && (s.expiry == Ended || s.expiry == Closed)
      && forall p <- s.posts :: !s.posts[p].setup && s.posts[p].response == NoTask
                                && (s.posts[p].published ==> s.posts[p].closes == 1 && !s.posts[p].listed)
  {
    ReachedBridgeIsSafe(EmptyBridge, steps, b);
    var s := b.objects[id];
    assert SessionSafe(s) && Quiescent(s);
    forall p | p in s.posts
      ensures !s.posts[p].setup && s.posts[p].response == NoTask
      ensures s.posts[p].published ==> s.posts[p].closes == 1 && !s.posts[p].listed
    {
      assert PostSafe(s.posts[p]) && !Busy(s.posts[p]);
    }
  }

  /** The leases of a POST belong to its request task or its response task for as long as they are
      held, and are given back exactly once: when neither is left, they have been. */
  lemma LeasesGivenBackOnce(steps: seq<BridgeStep>, b: Bridge, id: nat, post: nat)
    requires Reaches(EmptyBridge, steps, b) && id in b.objects && post in b.objects[id].posts
    ensures var p := b.objects[id].posts[post];
      && p.giveBacks == (if LeaseOwner(p) == Nobody then 1 else 0)
      && (LeaseOwner(p) == ResponseTask ==> p.response.Task? && p.entered)
      && (LeaseOwner(p) == RequestTask ==> p.request != Answered)
      && (p.request == Answered && p.response == NoTask ==> p.giveBacks == 1)
  {
    ReachedBridgeIsSafe(EmptyBridge, steps, b);
    assert SessionSafe(b.objects[id]) && PostSafe(b.objects[id].posts[post]);
  }

  /** What a client was sent is the endpoint event, the first accepted events in order of
      acceptance, and at most one terminal event; the queue is never over capacity. */
  lemma DeliveredAlways(steps: seq<BridgeStep>, b: Bridge, id: nat)
    requires Reaches(EmptyBridge, steps, b) && id in b.objects
    ensures var s := b.objects[id];
      && |s.queue| <= s.capacity && s.taken <= |s.accepted|
      && (s.delivered == [] || s.delivered == [s.greeting] + s.accepted[..s.taken]
          || (s.stream == Over && s.closed && s.terminal.Some?
              && s.delivered == [s.greeting] + s.accepted[..s.taken] + [s.terminal.value]))
  {
    ReachedBridgeIsSafe(EmptyBridge, steps, b);
    var s := b.objects[id];
    assert SessionSafe(s);
    if s.delivered != [] {
      assert s.delivered == [s.delivered[0]] + s.delivered[1..];
    }
  }

  // ------------------------------------------------------------ finding a session

  datatype Lookup = NotFound | WrongEndpoint | Gone(closed: ClosedSession) | Found

  function FindClosed(tombstones: seq<Tombstone>, id: nat): Option<ClosedSession> {
    if tombstones == [] then None
    else if tombstones[0].id == id then Some(tombstones[0].closed) else FindClosed(tombstones[1..], id)
  }

  /** The first answers of `handle_post`, before it looks at the clock. */
  function LookUp(b: Bridge, id: nat, path: string, runtime: Rid): Lookup {
    if id !in b.index || id !in b.objects then
      match FindClosed(b.tombstones, id)
      case None => NotFound
      case Some(closed) => if closed.path != path then WrongEndpoint else Gone(closed)
    else if b.objects[id].path != path || b.objects[id].runtime != runtime then WrongEndpoint
    else Found
  }

  lemma {:induction false} FindClosedMeans(s: seq<Tombstone>, id: nat)
    requires forall i, j :: 0 <= i < j < |s| ==> s[i].id != s[j].id
    ensures forall t <- s :: t.id == id ==> FindClosed(s, id) == Some(t.closed)
    ensures FindClosed(s, id).Some? ==> Tombstone(id, FindClosed(s, id).value) in s
  {
    if s != [] {
      FindClosedMeans(s[1..], id);
      assert s == [s[0]] + s[1..];
    }
  }

  /** Was `id` among the last sessions closed with a terminal event that are remembered? */
  ghost predicate Remembered(b: Bridge, t: Tombstone) {
    exists k :: 0 <= k < |b.ended| && |b.ended| - MAX_TOMBSTONES <= k && b.ended[k] == t
  }

  /** In every run a POST finds its session exactly while that is unclosed and belongs to the same
      endpoint and runtime; it is told why the session is gone exactly while that is remembered, and that
      there is no such session exactly when it is neither unclosed nor remembered. */
  lemma LookUpMeans(steps: seq<BridgeStep>, b: Bridge, id: nat, path: string, runtime: Rid)
    requires Reaches(EmptyBridge, steps, b)
    ensures LookUp(b, id, path, runtime) == Found <==>
      id in b.objects && !b.objects[id].closed && b.objects[id].path == path && b.objects[id].runtime == runtime
    ensures forall c: ClosedSession ::
      LookUp(b, id, path, runtime) == Gone(c) <==> c.path == path && Remembered(b, Tombstone(id, c))
    ensures LookUp(b, id, path, runtime) == NotFound <==>
      (id in b.objects ==> b.objects[id].closed) && forall c: ClosedSession :: !Remembered(b, Tombstone(id, c))
  {
    ReachedBridgeIsSafe(EmptyBridge, steps, b);
    FindClosedMeans(b.tombstones, id);
    NotFoundIff(b, id, path, runtime);
    forall c: ClosedSession
      ensures LookUp(b, id, path, runtime) == Gone(c) <==> c.path == path && Remembered(b, Tombstone(id, c))
    {
      RememberedIsListed(b, Tombstone(id, c));
      if Remembered(b, Tombstone(id, c)) {
        EndedIsUnlisted(b, Tombstone(id, c));
      }
    }
  }

  lemma NotFoundIff(b: Bridge, id: nat, path: string, runtime: Rid)
    requires BridgeSafe(b)
    ensures LookUp(b, id, path, runtime) == NotFound <==>
      (id in b.objects ==> b.objects[id].closed) && forall c: ClosedSession :: !Remembered(b, Tombstone(id, c))
  {
    FindClosedMeans(b.tombstones, id);
    forall c: ClosedSession ensures Remembered(b, Tombstone(id, c)) <==> Tombstone(id, c) in b.tombstones {
      RememberedIsListed(b, Tombstone(id, c));
    }
    if t :| t in b.tombstones && t.id == id {
      assert t == Tombstone(id, t.closed);
    }
  }

  lemma RememberedIsListed(b: Bridge, t: Tombstone)
    requires TombstonesRecent(b)
    ensures Remembered(b, t) <==> t in b.tombstones
  {
    InLastOf(b.ended, MAX_TOMBSTONES, t);
  }

  lemma InLastOf<T>(s: seq<T>, n: nat, t: T)
    ensures t in LastOf(s, n) <==> exists k :: 0 <= k < |s| && |s| - n <= k && s[k] == t
  {
    var last := LastOf(s, n);
    var drop := |s| - |last|;
    assert forall i :: 0 <= i < |last| ==> last[i] == s[i + drop];
    if t in last {
      var i :| 0 <= i < |last| && last[i] == t;
      assert s[i + drop] == t;
    }
    if k :| 0 <= k < |s| && |s| - n <= k && s[k] == t {
      assert last[k - drop] == t;
    }
  }

  lemma EndedIsUnlisted(b: Bridge, t: Tombstone)
    requires BridgeSafe(b) && Remembered(b, t)
    ensures t.id !in b.index
  {
    var k :| 0 <= k < |b.ended| && |b.ended| - MAX_TOMBSTONES <= k && b.ended[k] == t;
    assert t in b.ended;
    assert SessionSafe(b.objects[t.id]) && b.objects[t.id].terminal.Some?;
  }

  // -------------------------------------------- what a step does to its session

  function NextSession(s: Session, t: BridgeStep): Session
    requires !t.Open?
  {
    match t
    case EndByTask(_, post, event, _, _) => TaskEndsSession(s, post, event)
    case Expire(_, event, _) => Expires(s, event)
    case FindExpired(_, event, _) => Terminalize(s, event, None)
    case StartClose(_, who) => BeginsClose(s, who)
    case FinishClose(_) => Leaves(s)
    case Within(_, u) => ApplyQuiet(s, u)
  }

  lemma StepActsOn(b: Bridge, t: BridgeStep)
    requires IndexesAgree(b) && !t.Open? && t.id in b.objects
    ensures var b' := Apply(b, t);
      && b'.objects == b.objects[t.id := NextSession(b.objects[t.id], t)]
      && b'.index <= b.index && b'.owned <= b.owned
  {
  }

  /** No step reopens a session, moves it, or adds anything to a closed one. */
  ghost predicate OnlyEnds(s: Session, s': Session) {
    s'.path == s.path && (s.closed ==> NothingAdded(s, s'))
  }

  lemma NextSessionMeans(s: Session, t: BridgeStep)
    requires SessionSafe(s) && !t.Open?
    ensures OnlyEnds(s, NextSession(s, t))
  {
    match t
    case EndByTask(_, post, event, _, _) => TaskEndsTerminates(s, post, event);
    case Expire(_, event, _) => ExpiresTerminates(s, event);
    case FindExpired(_, event, _) => TerminalizeTerminates(s, event, None);
    case StartClose(_, who) => BeginsCloseMeans(s, who);
    case FinishClose(_) => LeavingOnlyEnds(s);
    case Within(_, u) => QuietOnlyEnds(s, u);
  }

  lemma LeavingOnlyEnds(s: Session)
    requires CleanupSafe(s)
    ensures OnlyEnds(s, Leaves(s))
  {
  }

  lemma QuietOnlyEnds(s: Session, t: QuietStep)
    requires SessionSafe(s)
    ensures OnlyEnds(s, ApplyQuiet(s, t))
  {
    QuietStaysInPlace(s, t);
    if s.closed {
      ClosedQuietAddsNothing(s, t);
    }
  }

  // ------------------------------------------------------------ closed for good

  /** Everything that can no longer happen to a closed session. */
  ghost predicate StaysClosed(b: Bridge, b': Bridge, id: nat)
    requires id in b.objects
  {
    && id in b'.objects && NothingAdded(b.objects[id], b'.objects[id])
    && (id !in b.owned ==> id !in b'.owned)
  }

  lemma ClosedStep(b: Bridge, t: BridgeStep, id: nat)
    requires BridgeSafe(b) && id in b.objects && b.objects[id].closed
    ensures StaysClosed(b, Apply(b, t), id)
  {
    if !t.Open? && t.id in b.objects {
      StepActsOn(b, t);
      NextSessionMeans(b.objects[t.id], t);
    }
    if id != t.id || t.Open? {
      assert NothingAdded(b.objects[id], b.objects[id]);
    }
  }

  /** After `closed` is set no POST starts, no setup task, response task or upstream is added and
      no event accepted, in any continuation of the run. */
  lemma {:induction false} NothingAddedAfterClose(b: Bridge, steps: seq<BridgeStep>, b': Bridge, id: nat)
    requires BridgeSafe(b) && Reaches(b, steps, b') && id in b.objects && b.objects[id].closed
    ensures StaysClosed(b, b', id)
    decreases |steps|
  {
    if steps != [] {
      hide BridgeSafe, Apply, Quiescent;
      StepKeepsBridge(b, steps[0]);
      ClosedStep(b, steps[0], id);
      NothingAddedAfterClose(Apply(b, steps[0]), steps[1..], b', id);
    }
  }

  // -------------------------------------------------------------- session limit

  /** The step opens sessions only under the limit configured for their endpoint. */
  predicate Limited(t: BridgeStep, limits: map<string, nat>) {
    t.Open? && t.config.Some? ==> t.path in limits && t.config.value.maxSessions == limits[t.path]
  }

  ghost predicate WithinLimits(b: Bridge, limits: map<string, nat>) {
    forall path: string :: |Active(b, path)| <= if path in limits then limits[path] else 0
  }

  lemma ActiveShrinks(b: Bridge, b': Bridge, path: string)
    requires b'.index <= b.index && b'.objects.Keys == b.objects.Keys
    requires forall id <- b.objects ::
      b'.objects[id].path == b.objects[id].path && (b.objects[id].closed ==> b'.objects[id].closed)
    ensures |Active(b', path)| <= |Active(b, path)|
  {
    SubsetSize(Active(b', path), Active(b, path));
  }

  lemma ActiveListed(b: Bridge, id: nat, s: Session, b': Bridge, path: string)
    requires b'.index == b.index + {id} && b'.objects == b.objects[id := s] && id !in b.objects
    ensures |Active(b', path)| <= if s.path == path then |Active(b, path)| + 1 else |Active(b, path)|
  {
    if s.path == path {
      SubsetSize(Active(b', path), Active(b, path) + {id});
    } else {
      SubsetSize(Active(b', path), Active(b, path));
    }
  }

  lemma ActiveOpens(
    b: Bridge, id: nat, path: string, runtime: Rid, config: Option<BridgeConfig>, greeting: string, other: string)
    ensures var b' := OpenSession(b, id, path, runtime, config, greeting);
      || |Active(b', other)| <= |Active(b, other)|
      || (config.Some? && other == path && |Active(b', other)| <= config.value.maxSessions)
  {
    var b' := OpenSession(b, id, path, runtime, config, greeting);
    if b' != b {
      ActiveListed(b, id, NewSession(path, runtime, config.value.queueCapacity, greeting), b', other);
    }
  }

  /** Only an admitted session adds to a count. */
  lemma ActiveAfter(b: Bridge, t: BridgeStep, path: string)
    requires BridgeSafe(b)
    ensures |Active(Apply(b, t), path)| <= |Active(b, path)|
            || (t.Open? && t.config.Some? && t.path == path
                && |Active(Apply(b, t), path)| <= t.config.value.maxSessions)
  {
    if t.Open? {
      ActiveOpens(b, t.id, t.path, t.runtime, t.config, t.greeting, path);
    } else if t.id in b.objects {
      StepActsOn(b, t);
      NextSessionMeans(b.objects[t.id], t);
      ActiveShrinks(b, Apply(b, t), path);
    }
  }

  /** Under a fixed configuration no endpoint ever has more than `max_sessions` sessions. */
  lemma {:induction false} LimitsKept(b: Bridge, steps: seq<BridgeStep>, b': Bridge, limits: map<string, nat>)
    requires BridgeSafe(b) && WithinLimits(b, limits) && Reaches(b, steps, b')
    requires forall t <- steps :: Limited(t, limits)
    ensures WithinLimits(b', limits)
    decreases |steps|
  {
    if steps != [] {
      var t := steps[0];
      assert t in steps && Limited(t, limits);
      StepKeepsBridge(b, t);
      forall path: string ensures |Active(Apply(b, t), path)| <= if path in limits then limits[path] else 0 {
        ActiveAfter(b, t, path);
      }
      LimitsKept(Apply(b, t), steps[1..], b', limits);
    }
  }

  // ----------------------------------------------------------- over any session

  /** What a client was sent is never taken back, and nothing follows the terminal event, whatever
      happens to the session. */
  lemma {:induction false} DeliveryNeverRevised(b: Bridge, steps: seq<BridgeStep>, b': Bridge, id: nat)
    requires BridgeSafe(b) && Reaches(b, steps, b') && id in b.objects
    ensures id in b'.objects && b.objects[id].delivered <= b'.objects[id].delivered
    ensures b.objects[id].terminalSent ==> b'.objects[id].delivered == b.objects[id].delivered
    decreases |steps|
  {
    if steps != [] {
      StepKeepsBridge(b, steps[0]);
      DeliveryStep(b, steps[0], id);
      DeliveryNeverRevised(Apply(b, steps[0]), steps[1..], b', id);
    }
  }

  ghost predicate Delivers(s: Session, s': Session) {
    && s.delivered <= s'.delivered && (s.terminalSent ==> s'.terminalSent && s'.delivered == s.delivered)
  }

  lemma DeliveryStep(b: Bridge, t: BridgeStep, id: nat)
    requires BridgeSafe(b) && id in b.objects
    ensures id in Apply(b, t).objects && Delivers(b.objects[id], Apply(b, t).objects[id])
  {
    if !t.Open? && t.id in b.objects {
      StepActsOn(b, t);
      NextDelivers(b.objects[t.id], t);
    }
  }

  lemma NextDelivers(s: Session, t: BridgeStep)
    requires SessionSafe(s) && !t.Open?
    ensures Delivers(s, NextSession(s, t))
  {
    if t.Within? {
      DeliveryOnlyGrows(s, t.step);
    }
  }

  // ------------------------------------------------------------- close_endpoint

  /** The sessions `close_endpoint` sets out to close. */
  function EndpointSessions(b: Bridge, path: string): set<nat> {
    set id | id in b.owned && id in b.objects && b.objects[id].path == path
  }

  /** The loop of `close_endpoint` closes one session after another while anything else goes on. */
  datatype LoopStep = Meanwhile(step: BridgeStep) | ClosesOne(id: nat)

  ghost predicate LoopReaches(b: Bridge, todo: set<nat>, steps: seq<LoopStep>, b': Bridge, todo': set<nat>)
    decreases |steps|
  {
    if steps == [] then b == b' && todo == todo'
    else
      match steps[0]
      case Meanwhile(t) => LoopReaches(Apply(b, t), todo, steps[1..], b', todo')
      case ClosesOne(id) =>
        id in todo && id in b.objects && MayLeave(b.objects[id])
        && LoopReaches(Leave(b, id), todo - {id}, steps[1..], b', todo')
  }

  /** What the loop has not closed yet is all that the runtime still owns. */
  ghost predicate OnlyTodo(b: Bridge, runtime: Rid, todo: set<nat>) {
    forall id <- b.owned :: id in b.objects && b.objects[id].runtime == runtime ==> id in todo
  }

  predicate Opens(t: BridgeStep, runtime: Rid) {
    t.Open? && t.runtime == runtime
  }

  lemma MeanwhileKeepsTodo(b: Bridge, t: BridgeStep, runtime: Rid, todo: set<nat>)
    requires BridgeSafe(b) && OnlyTodo(b, runtime, todo) && !Opens(t, runtime)
    ensures OnlyTodo(Apply(b, t), runtime, todo)
  {
    if !t.Open? && t.id in b.objects {
      StepActsOn(b, t);
      RuntimeStays(b.objects[t.id], t);
    }
  }

  lemma RuntimeStays(s: Session, t: BridgeStep)
    requires !t.Open?
    ensures NextSession(s, t).runtime == s.runtime && NextSession(s, t).path == s.path
  {
    if t.Within? {
      QuietStaysInPlace(s, t.step);
    }
  }

  lemma ClosesOneKeepsTodo(b: Bridge, id: nat, runtime: Rid, todo: set<nat>)
    requires OnlyTodo(b, runtime, todo) && id in b.objects && MayLeave(b.objects[id])
    ensures OnlyTodo(Leave(b, id), runtime, todo - {id})
  {
  }

  /** Nothing of the runtime is left on the bridge. */
  ghost predicate Emptied(b: Bridge, runtime: Rid) {
    && Ids(b, runtime) == {}
    && forall id <- b.objects :: b.objects[id].runtime == runtime ==> id !in b.owned && Quiescent(b.objects[id])
  }

  lemma NothingTodo(b: Bridge, runtime: Rid)
    requires BridgeSafe(b) && OnlyTodo(b, runtime, {})
    ensures Emptied(b, runtime)
  {
    assert forall id :: id in Ids(b, runtime) ==> id in b.owned;
    assert forall id :: id !in Ids(b, runtime);
  }

  lemma {:induction false} LoopKeepsTodo(
    b: Bridge, todo: set<nat>, steps: seq<LoopStep>, b': Bridge, todo': set<nat>, runtime: Rid)
    requires BridgeSafe(b) && OnlyTodo(b, runtime, todo) && LoopReaches(b, todo, steps, b', todo')
    requires forall t <- steps :: t.Meanwhile? ==> !Opens(t.step, runtime)
    ensures BridgeSafe(b') && OnlyTodo(b', runtime, todo')
    decreases |steps|
  {
    if steps != [] {
      assert steps[0] in steps;
      match steps[0]
      case Meanwhile(t) =>
        StepKeepsBridge(b, t);
        MeanwhileKeepsTodo(b, t, runtime, todo);
        LoopKeepsTodo(Apply(b, t), todo, steps[1..], b', todo', runtime);
      case ClosesOne(id) =>
        LeaveBridgeKeeps(b, id);
        ClosesOneKeepsTodo(b, id, runtime, todo);
        LoopKeepsTodo(Leave(b, id), todo - {id}, steps[1..], b', todo', runtime);
    }
  }

  /** When the loop has closed every session it found, and none was opened for the runtime meanwhile,
      nothing of the runtime is left: its index is empty and all its sessions are disowned and quiescent. */
  lemma CloseEndpointEmpties(b: Bridge, steps: seq<LoopStep>, b': Bridge, runtime: Rid)
    requires BridgeSafe(b) && LoopReaches(b, EndpointSessions(b, runtime.path), steps, b', {})
    requires forall id <- b.objects :: b.objects[id].runtime == runtime ==> b.objects[id].path == runtime.path
    requires forall t <- steps :: t.Meanwhile? ==> !Opens(t.step, runtime)
    ensures Emptied(b', runtime)
  {
    LoopKeepsTodo(b, EndpointSessions(b, runtime.path), steps, b', {}, runtime);
    NothingTodo(b', runtime);
  }

  // ------------------------------------------------------- what clients can rely on

  /** In every run: the accepted events of a session are those its response tasks put, each task's in the
      order in which it offered them. Of what a task offered at most the last event was not put; and that
      one its task still holds, unless the task was cancelled or the session has been closed. */
  lemma EventsKeepOrder(steps: seq<BridgeStep>, b: Bridge, id: nat, post: nat)
    requires Reaches(EmptyBridge, steps, b) && id in b.objects && post in b.objects[id].posts
    ensures var s, p := b.objects[id], b.objects[id].posts[post];
      && |s.origin| == |s.accepted|
      && p.sent.put == From(s.accepted, s.origin, post)
      && p.sent.put <= p.sent.offered && |p.sent.offered| <= |p.sent.put| + 1
      && (!s.closed && !p.sent.aborted ==> p.sent.offered == p.sent.put + Holding(p))
      && (p.response.Task? ==> (p.sent.aborted <==> p.response.cancelled))
  {
    ReachedBridgeIsSafe(EmptyBridge, steps, b);
    assert SessionSafe(b.objects[id]) && PostSafe(b.objects[id].posts[post]);
  }

  /** A session is admitted exactly when its endpoint has a bridge and fewer unclosed sessions than it may
      have, whatever others have; then it is open, empty and in all three indexes. */
  lemma OpenAdmits(b: Bridge, id: nat, path: string, runtime: Rid, config: Option<BridgeConfig>, greeting: string)
    requires id !in b.objects
    ensures var b' := OpenSession(b, id, path, runtime, config, greeting);
      && (id in b'.objects <==> config.Some? && |Active(b, path)| < config.value.maxSessions)
      && (forall x :: x in Active(b, path) <==>
            x in b.index && x in b.objects && b.objects[x].path == path && !b.objects[x].closed)
      && (id !in b'.objects ==> b' == b)
      && (id in b'.objects ==>
            && id in b'.index && id in b'.owned && id in Ids(b', runtime)
            && var s := b'.objects[id];
               && s.path == path && s.runtime == runtime && s.capacity == config.value.queueCapacity
               && s.greeting == greeting && !s.closed && s.queue == [] && s.expiry == Watching)
  {
  }

  /** What is left of a session that an event has ended, and what a later POST to it is told. */
  ghost predicate EndedWith(b: Bridge, id: nat, event: string, statusCode: int, message: string)
    requires id in b.objects
  {
    var s := b.objects[id];
    && s.closed && s.terminal == Some(event) && s.queue == [] && id !in b.index
    && forall runtime: Rid :: LookUp(b, id, s.path, runtime) == Gone(ClosedSession(s.path, statusCode, message))
  }

  /** A session past its deadline is answered with 410 from then on, whether its expiry task or a POST
      finds it so; one that a response task ends, with the code and message of that failure. */
  lemma EndingIsAnswered(b: Bridge, id: nat, post: nat, event: string, statusCode: int, message: string)
    requires BridgeSafe(b) && id in b.objects && !b.objects[id].closed
    ensures b.objects[id].expiry == Watching ==>
      id in ExpireSession(b, id, event, message).objects
      && EndedWith(ExpireSession(b, id, event, message), id, event, 410, message)
    ensures id in PostFindsExpired(b, id, event, message).objects
            && EndedWith(PostFindsExpired(b, id, event, message), id, event, 410, message)
    ensures MayEndSession(b.objects[id], post) ==>
      id in TaskEnds(b, id, post, event, statusCode, message).objects
      && EndedWith(TaskEnds(b, id, post, event, statusCode, message), id, event, statusCode, message)
  {
    var s := b.objects[id];
    EndedIsAnswered(b, id, Terminalize(s, event, None), event, 410, message);
    if s.expiry == Watching {
      EndedIsAnswered(b, id, Expires(s, event), event, 410, message);
    }
    if MayEndSession(s, post) {
      EndedIsAnswered(b, id, TaskEndsSession(s, post, event), event, statusCode, message);
    }
  }

  lemma EndedIsAnswered(b: Bridge, id: nat, s: Session, event: string, statusCode: int, message: string)
    requires BridgeSafe(b) && id in b.objects && !b.objects[id].closed
    requires s.closed && s.terminal == Some(event) && s.queue == [] && s.path == b.objects[id].path
    ensures EndedWith(MarkTerminal(b, id, s, statusCode, message), id, event, statusCode, message)
  {
    var t := Tombstone(id, ClosedSession(s.path, statusCode, message));
    assert SessionSafe(b.objects[id]) && b.objects[id].terminal.None?;
    assert forall x <- b.ended :: x.id != id;
    LastIsFound(b.tombstones, t);
  }

  lemma {:induction false} FoundBehind(s: seq<Tombstone>, t: Tombstone)
    requires forall x <- s :: x.id != t.id
    ensures FindClosed(s + [t], t.id) == Some(t.closed)
  {
    if s == [] {
      assert s + [t] == [t];
    } else {
      assert (s + [t])[1..] == s[1..] + [t] && (s + [t])[0] == s[0] && s[0] in s;
      FoundBehind(s[1..], t);
    }
  }

  lemma LastIsFound(s: seq<Tombstone>, t: Tombstone)
    requires forall x <- s :: x.id != t.id
    ensures FindClosed(Remember(s, t), t.id) == Some(t.closed)
  {
    FoundBehind(s, t);
    if |s| + 1 > MAX_TOMBSTONES {
      var cut := |s| + 1 - MAX_TOMBSTONES;
      assert (s + [t])[cut..] == s[cut..] + [t];
      FoundBehind(s[cut..], t);
    }
  }
}
