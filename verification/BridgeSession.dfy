/** One session of the legacy SSE bridge with the POSTs, tasks and upstreams it owns
    (mcp_router/compat/legacy_sse.py). A POST is handled by a request task, a setup task and a
    response task that hand a pair of leases and an upstream to one another; closing the session
    races with all of them. Each function is one atomic stretch between two awaits. */
module BridgeSession {
  import opened Common

  // --------------------------------------------------------------- one POST

  datatype SetupOutcome = Entered(ok: bool) | Failed | Cancelled

  datatype RequestPhase =
    | SettingUp                      // awaiting the setup task
    | SetupOver(outcome: SetupOutcome) // the setup task is done, the request has not resumed
    | Established(ok: bool)   // upstream entered, not yet published; waiting for the cleanup lock
    | Reading | ReadClosed    // upstream refused: reading its body, then closing it
    | AwaitingEntry           // response task published, not known to run
    | Withdrawing             // cancelled in that wait: waiting for the response task to end
    | Answered

  /** A response task closes its upstream, gives the leases back and returns. */
  datatype TaskPhase = Fresh | Pumping | Blocked(event: string) | Cleaning | Finishing | Returning

  datatype Response = NoTask | Task(phase: TaskPhase, cancelled: bool)

  datatype Post = Post(
    request: RequestPhase,
    setup: bool,           // in session.setup_tasks, unfinished
    response: Response,    // in session.response_tasks, unfinished
    entered: bool,         // response_entered
    published: bool,       // was ever added to session.upstreams
    listed: bool,          // is in session.upstreams
    upstreamClosed: bool,  // _TrackedUpstream._closed
    closes: nat,           // how often the upstream's __aexit__ was called
    leased: bool,          // the limit and runtime leases are still held
    giveBacks: nat,        // how often on_complete released them with effect
    sent: Sent)            // what its response task has done with the events of the answer

  /** The events that a response task has called put with, those of them that were put on the queue, and
      whether the task was cancelled. */
  datatype Sent = Sent(offered: seq<string>, put: seq<string>, aborted: bool)

  const FreshPost := Post(SettingUp, true, NoTask, false, false, false, false, 0, true, 0, Sent([], [], false))

  /** `_TrackedUpstream.close`. */
  function CloseTracked(p: Post): Post {
    if p.upstreamClosed then p else p.(upstreamClosed := true, closes := p.closes + 1)
  }

  /** `on_complete`: both leases are idempotent. */
  function GiveBack(p: Post): Post {
    if p.leased then p.(leased := false, giveBacks := p.giveBacks + 1) else p
  }

  function Discard(p: Post): Post {
    p.(listed := false)
  }

  function SetupEnds(p: Post, outcome: SetupOutcome): Post {
    if p.setup && p.request == SettingUp then p.(setup := false, request := SetupOver(outcome)) else p
  }

  /** The request resumes: with an upstream, with a 502 answer, or raising. */
  function Resumes(p: Post): Post {
    if !p.request.SetupOver? then p
    else
      match p.request.outcome
      case Entered(ok) => p.(request := Established(ok))
      case _ => GiveBack(p.(request := Answered))
  }

  /** Publication under the cleanup lock, or the rejection path outside it. */
  function Publishes(p: Post, rejected: bool): Post {
    if !p.request.Established? then p
    else if rejected then GiveBack(CloseTracked(p.(request := Answered)))
    else if p.request.ok
      then p.(published := true, listed := true, request := AwaitingEntry, response := Task(Fresh, false))
    else p.(published := true, listed := true, request := Reading)
  }

  /** The request is cancelled before it resumes, or while it waits for the cleanup lock. */
  function Abandons(p: Post): Post {
    if p.request.SetupOver? || p.request.Established? then GiveBack(p.(request := Answered)) else p
  }

  function ReadEnds(p: Post): Post {
    if p.request == Reading then CloseTracked(p.(request := ReadClosed)) else p
  }

  function ReadAnswers(p: Post): Post {
    if p.request == ReadClosed then GiveBack(Discard(p.(request := Answered))) else p
  }

  /** `response_started` is set and the task runs: the leases are the task's from here on. */
  function HandsOff(p: Post): Post {
    if p.request == AwaitingEntry && p.entered then p.(request := Answered) else p
  }

  /** The response task ended without ever running: nothing was handed over. */
  function NeverEntered(p: Post): Post {
    if p.request == AwaitingEntry && p.response == NoTask && !p.entered
      then GiveBack(Discard(CloseTracked(p.(request := Answered)))) else p
  }

  function RequestCancelled(p: Post): Post {
    if p.request == AwaitingEntry then CancelTask(p.(request := Withdrawing)) else p
  }

  function Withdraws(p: Post): Post {
    if p.request == Withdrawing && p.response == NoTask
      then GiveBack(Discard(CloseTracked(p.(request := Answered)))) else p
  }

  /** The request is cancelled once more in that wait: it leaves the upstream on the session, whose close
      will close it, and its leases to the proxy, which gives them back. */
  function WithdrawCancelled(p: Post): Post {
    if p.request == Withdrawing && p.response == NoTask then GiveBack(p.(request := Answered)) else p
  }

  function CancelTask(p: Post): Post {
    if p.response.Task? then p.(response := p.response.(cancelled := true), sent := p.sent.(aborted := true)) else p
  }

  function TaskEnters(p: Post): Post {
    if p.response == Task(Fresh, false) then p.(response := Task(Pumping, false), entered := true) else p
  }

  function TaskDiesFresh(p: Post): Post {
    if p.response == Task(Fresh, true) then p.(response := NoTask) else p
  }

  /** Cancellation or the end of the upstream leads into the task's finally block. */
  function TaskStops(p: Post): Post {
    if p.response.Task? && (p.response.phase == Pumping || (p.response.phase.Blocked? && p.response.cancelled))
      then p.(response := p.response.(phase := Cleaning)) else p
  }

  function TaskCloses(p: Post): Post {
    if p.response.Task? && p.response.phase == Cleaning
      then CloseTracked(p.(response := p.response.(phase := Finishing))) else p
  }

  /** `on_complete`, awaited by the task itself, which is still unfinished. */
  function TaskGivesBack(p: Post): Post {
    if p.response.Task? && p.response.phase == Finishing
      then GiveBack(Discard(p.(response := p.response.(phase := Returning)))) else p
  }

  function TaskReturns(p: Post): Post {
    if p.response.Task? && p.response.phase == Returning then p.(response := NoTask) else p
  }

  /** Steps of a POST that touch nothing else of the session. */
  datatype PostStep =
    | PSetup(outcome: SetupOutcome) | PResume | PAbandon | PReadEnd | PReadAnswer | PHandOff | PNeverEntered
    | PCancelRequest | PWithdraw | PWithdrawCancel
    | PCancelTask | PEnter | PDieFresh | PStop | PClose | PGiveBack | PReturn

  function ApplyPost(p: Post, s: PostStep): Post {
    match s
    case PSetup(o) => SetupEnds(p, o)
    case PResume => Resumes(p)
    case PAbandon => Abandons(p)
    case PReadEnd => ReadEnds(p)
    case PReadAnswer => ReadAnswers(p)
    case PHandOff => HandsOff(p)
    case PNeverEntered => NeverEntered(p)
    case PCancelRequest => RequestCancelled(p)
    case PWithdraw => Withdraws(p)
    case PWithdrawCancel => WithdrawCancelled(p)
    case PCancelTask => CancelTask(p)
    case PEnter => TaskEnters(p)
    case PDieFresh => TaskDiesFresh(p)
    case PStop => TaskStops(p)
    case PClose => TaskCloses(p)
    case PGiveBack => TaskGivesBack(p)
    case PReturn => TaskReturns(p)
  }

  predicate Busy(p: Post) {
    p.setup || p.response.Task?
  }

  /** A response task that may still enqueue. */
  predicate MayEnqueue(p: Post) {
    && p.response.Task? && !p.response.cancelled
    && (p.response.phase == Fresh || p.response.phase == Pumping || p.response.phase.Blocked?)
  }

  /** The response task is past its start: it owns, or has given back, what the request had. */
  ghost predicate TaskSafe(p: Post) {
    p.response.Task? ==>
      && p.published && (p.response.phase == Fresh <==> !p.entered)
      && (p.request == AwaitingEntry || p.request == Withdrawing || (p.request == Answered && p.entered))
      && (p.response.phase == Finishing || p.response.phase == Returning ==> p.upstreamClosed)
  }

  predicate Publishing(p: Post) {
    p.request == Reading || p.request == ReadClosed || p.request == AwaitingEntry || p.request == Withdrawing
  }

  ghost predicate PostSafe(p: Post) {
    && (p.setup <==> p.request == SettingUp)
    && TaskSafe(p)
    && (Publishing(p) ==> p.published)
    && (p.request == SettingUp || p.request.SetupOver? || p.request.Established? ==>
          !p.published && !p.entered && !p.upstreamClosed && !p.sent.aborted)
    && (p.listed ==> p.published) && (p.published && !p.listed ==> p.upstreamClosed)
    && (p.request == ReadClosed ==> p.upstreamClosed)
    && p.closes == (if p.upstreamClosed then 1 else 0)
    && p.giveBacks == (if p.leased then 0 else 1)
    && (p.leased <==> LeaseOwner(p) != Nobody)
    && OffersSafe(p)
  }

  /** The event with which the response task is blocked in its put. */
  function Holding(p: Post): seq<string> {
    if p.response.Task? && p.response.phase.Blocked? then [p.response.phase.event] else []
  }

  /** The task's events are put in the order in which it offers them; all but the last of them surely. */
  ghost predicate OffersSafe(p: Post) {
    && p.sent.put <= p.sent.offered && |p.sent.offered| <= |p.sent.put| + 1
    && (p.response.Task? ==> (p.sent.aborted <==> p.response.cancelled))
    && (MayEnqueue(p) ==> p.sent.offered == p.sent.put + Holding(p))
    && (!p.entered ==> p.sent.offered == [])
  }

  /** To whom the leases of a POST belong. */
  datatype Owner = Nobody | RequestTask | ResponseTask

  function LeaseOwner(p: Post): Owner {
    if p.response.Task? && p.entered && p.response.phase != Returning then ResponseTask
    else if p.request != Answered && !p.entered then RequestTask
    else Nobody
  }

  /** What every step of a POST keeps: no work is added, and nothing published is unpublished. */
  ghost predicate GoesOn(p: Post, p': Post) {
    && PostSafe(p') && (Busy(p') ==> Busy(p)) && (MayEnqueue(p') ==> MayEnqueue(p)) && (p.published ==> p'.published)
    && p'.sent.put == p.sent.put && (NothingLost(p) ==> NothingLost(p'))
  }

  predicate SetupStep(s: PostStep) {
    s.PSetup? || s.PResume? || s.PAbandon? || s.PReadEnd? || s.PReadAnswer?
  }

  predicate TaskStep(s: PostStep) {
    s.PCancelTask? || s.PEnter? || s.PDieFresh? || s.PStop? || s.PClose? || s.PGiveBack? || s.PReturn?
  }

  lemma SetupStepKeeps(p: Post, s: PostStep)
    requires PostSafe(p) && SetupStep(s)
    ensures GoesOn(p, ApplyPost(p, s))
  {
  }

  lemma TaskStepKeeps(p: Post, s: PostStep)
    requires PostSafe(p) && TaskStep(s)
    ensures GoesOn(p, ApplyPost(p, s))
  {
  }

  lemma WithdrawKeeps(p: Post)
    requires PostSafe(p)
    ensures GoesOn(p, Withdraws(p)) && GoesOn(p, WithdrawCancelled(p)) && GoesOn(p, RequestCancelled(p))
  {
  }

  lemma HandOverKeeps(p: Post, s: PostStep)
    requires PostSafe(p) && !SetupStep(s) && !TaskStep(s)
    ensures GoesOn(p, ApplyPost(p, s))
  {
    match s
    case PHandOff =>
    case PNeverEntered =>
    case _ => WithdrawKeeps(p);
  }

  lemma PostStepKeeps(p: Post, s: PostStep)
    requires PostSafe(p)
    ensures GoesOn(p, ApplyPost(p, s))
  {
    if SetupStep(s) {
      SetupStepKeeps(p, s);
    } else if TaskStep(s) {
      TaskStepKeeps(p, s);
    } else {
      HandOverKeeps(p, s);
    }
  }

  lemma PublishKeeps(p: Post, rejected: bool)
    requires PostSafe(p)
    ensures PostSafe(Publishes(p, rejected)) && Publishes(p, rejected).sent == p.sent
    ensures NothingLost(p) ==> NothingLost(Publishes(p, rejected))
    ensures rejected && Busy(Publishes(p, rejected)) ==> Busy(p)
    ensures rejected && MayEnqueue(Publishes(p, rejected)) ==> MayEnqueue(p)
  {
  }

  // -------------------------------------------------------------- one session

  /** The expiry task: waiting, past the deadline, done with closing the session, over. */
  datatype Expiry = Watching | Expiring | Closed | Ended

  /** Who closes a session: its own expiry task, which the close then does not wait for, a draining
      reload, or anybody else. */
  datatype Closer = OwnExpiry | Drainer | Anyone

  /** The cleanup lock, while `_close_session_object` is suspended in it. */
  datatype Cleanup =
    | Unlocked
    | Gathering(who: Closer, waiting: set<nat>, waitExpiry: bool)
    | ClosingUpstreams(who: Closer)

  datatype Stream = NotStarted | Open | Over

  datatype Session = Session(
    path: string,
    runtime: Rid,
    capacity: nat,
    greeting: string,         // the endpoint event, which names the session
    queue: seq<string>,
    closed: bool,
    terminal: Option<string>,
    posts: map<nat, Post>,
    expiry: Expiry,
    cleanup: Cleanup,
    stream: Stream,
    inHand: Option<string>,   // taken from the queue by the stream, not yet yielded
    delivered: seq<string>,   // what the downstream client was sent
    accepted: seq<string>,    // every event ever put on the queue
    origin: seq<nat>,         // the POST that each of them came from
    taken: nat,               // how many of them were yielded
    terminalSent: bool)

  function NewSession(path: string, runtime: Rid, capacity: nat, greeting: string): Session {
    Session(path, runtime, capacity, greeting, [], false, None, map[], Watching, Unlocked, NotStarted, None,
            [], [], [], 0, false)
  }

  function WithPost(s: Session, id: nat, p: Post): Session {
    s.(posts := s.posts[id := p])
  }

  function CancelAll(posts: map<nat, Post>, except: Option<nat>): map<nat, Post> {
    map id | id in posts :: if except == Some(id) then posts[id] else CancelTask(posts[id])
  }

  /** The session's part of `_mark_terminal`: the queue is drained, the terminal event is set, and
      every task but the caller's is cancelled. */
  function Terminalize(s: Session, event: string, caller: Option<nat>): Session {
    if s.closed then s
    else s.(queue := [], terminal := Some(event), closed := true, posts := CancelAll(s.posts, caller))
  }

  /** The POST's request task passes the checks of `handle_post` and starts its setup task. */
  function BeginsPost(s: Session, id: nat): Session {
    if s.closed || id in s.posts then s else WithPost(s, id, FreshPost)
  }

  /** `post_setup_rejection` and publication, in one hold of the cleanup lock. */
  function PublishesPost(s: Session, id: nat, draining: bool): Session {
    if id in s.posts && s.cleanup == Unlocked then WithPost(s, id, Publishes(s.posts[id], s.closed || draining)) else s
  }

  function StepsPost(s: Session, id: nat, t: PostStep): Session {
    if id in s.posts then WithPost(s, id, ApplyPost(s.posts[id], t)) else s
  }

  function HasPut(p: Post, event: string): Post {
    p.(sent := p.sent.(put := p.sent.put + [event]))
  }

  function Accepts(s: Session, id: nat, event: string): Session
    requires id in s.posts
  {
    var p := s.posts[id];
    s.(queue := s.queue + [event], accepted := s.accepted + [event], origin := s.origin + [id],
       posts := s.posts[id := HasPut(p, event)])
  }

  function Offers(p: Post, event: string): Post {
    p.(sent := p.sent.(offered := p.sent.offered + [event]))
  }

  predicate Enqueues(s: Session, id: nat) {
    id in s.posts && s.posts[id].response.Task? && !s.posts[id].response.cancelled
  }

  /** `_enqueue_event` up to the put: refused when closed, accepted when there is room, else blocked. */
  function Puts(s: Session, id: nat, event: string): Session {
    if !(Enqueues(s, id) && s.posts[id].response.phase == Pumping) then s
    else if s.closed then WithPost(s, id, TaskStops(Offers(s.posts[id], event)))
    else if |s.queue| < s.capacity then Accepts(WithPost(s, id, Offers(s.posts[id], event)), id, event)
    else WithPost(s, id, Offers(s.posts[id], event).(response := Task(Blocked(event), false)))
  }

  /** Room appeared before the timeout and before any cancellation. */
  function Unblocks(s: Session, id: nat): Session {
    if Enqueues(s, id) && s.posts[id].response.phase.Blocked? && |s.queue| < s.capacity
      then
        Accepts(WithPost(s, id, s.posts[id].(response := Task(Pumping, false))), id, s.posts[id].response.phase.event)
      else s
  }

  /** The put timed out, or reading the upstream failed: the task ends the session and cleans up. */
  predicate MayEndSession(s: Session, id: nat) {
    Enqueues(s, id) && (s.posts[id].response.phase == Pumping || s.posts[id].response.phase.Blocked?)
  }

  function TaskEndsSession(s: Session, id: nat, event: string): Session {
    if MayEndSession(s, id)
      then Terminalize(WithPost(s, id, s.posts[id].(response := Task(Cleaning, false))), event, Some(id)) else s
  }

  // ------------------------------------------------------------------ cleanup

  function BusyPosts(s: Session): set<nat> {
    set id | id in s.posts && Busy(s.posts[id])
  }

  /** The first stretch of `_close_session_object` under the cleanup lock. */
  function BeginsClose(s: Session, who: Closer): Session {
    if s.cleanup != Unlocked || (who == OwnExpiry && s.expiry != Expiring) then s
    else s.(closed := true, posts := CancelAll(s.posts, None),
            cleanup := Gathering(who, BusyPosts(s), who != OwnExpiry && s.expiry != Ended))
  }

  /** Every task the close waits for has finished. */
  function Gathers(s: Session): Session {
    if s.cleanup.Gathering? && (forall id <- s.cleanup.waiting :: id in s.posts ==> !Busy(s.posts[id]))
      && (s.cleanup.waitExpiry ==> s.expiry == Ended)
      then s.(cleanup := ClosingUpstreams(s.cleanup.who)) else s
  }

  function ClosesUpstream(s: Session, id: nat): Session {
    if s.cleanup.ClosingUpstreams? && id in s.posts && s.posts[id].listed
      then WithPost(s, id, Discard(CloseTracked(s.posts[id]))) else s
  }

  predicate MayLeave(s: Session) {
    s.cleanup.ClosingUpstreams? && forall id <- s.posts :: !s.posts[id].listed
  }

  /** The queue is drained and the cleanup lock released; the bridge then disowns the session. */
  function Leaves(s: Session): Session {
    if MayLeave(s) then
      s.(queue := [], cleanup := Unlocked, expiry := if s.cleanup.who == OwnExpiry then Closed else s.expiry)
    else s
  }

  /** The closing caller is itself cancelled, or its upstream's close raises: it leaves the lock. */
  function CloseAborts(s: Session): Session {
    if s.cleanup == Unlocked then s
    else s.(cleanup := Unlocked, expiry := if s.cleanup.who == OwnExpiry then Ended else s.expiry)
  }

  /** The deadline passes for the expiry task: it ends the session, unless that was closed in the
      meantime, and goes on to close it. */
  function Expires(s: Session, event: string): Session {
    if s.expiry == Watching then Terminalize(s, event, None).(expiry := Expiring) else s
  }

  predicate ClosesForExpiry(s: Session) {
    (s.cleanup.Gathering? || s.cleanup.ClosingUpstreams?) && s.cleanup.who == OwnExpiry
  }

  /** The expiry task returns or is cancelled outside the cleanup lock. */
  function ExpiryEnds(s: Session): Session {
    if ClosesForExpiry(s) then s else s.(expiry := Ended)
  }

  // ------------------------------------------------------------------- stream

  function StreamStarts(s: Session): Session {
    if s.stream == NotStarted then s.(stream := Open, delivered := [s.greeting]) else s
  }

  function StreamTakes(s: Session): Session {
    if s.stream == Open && s.inHand == None && s.queue != []
      then s.(inHand := Some(s.queue[0]), queue := s.queue[1..]) else s
  }

  function StreamYields(s: Session): Session {
    if s.stream == Open && s.inHand.Some?
      then s.(inHand := None, delivered := s.delivered + [s.inHand.value], taken := s.taken + 1) else s
  }

  /** Closed, and nothing was taken: the terminal event, if any, ends the stream. */
  function StreamEnds(s: Session): Session {
    if !(s.stream == Open && s.closed && s.inHand == None) then s
    else if s.terminal.Some?
      then s.(stream := Over, delivered := s.delivered + [s.terminal.value], terminalSent := true)
    else s.(stream := Over)
  }

  /** The client disconnects. */
  function StreamBreaks(s: Session): Session {
    s.(stream := Over, inHand := None)
  }

  // -------------------------------------------------------------------- steps

  datatype WorkStep =
    | BeginPost(id: nat) | PublishPost(id: nat, draining: bool) | OnPost(id: nat, step: PostStep)
    | Put(id: nat, event: string) | Unblock(id: nat)

  datatype CleanupStep = Gather | CloseUpstream(id: nat) | AbortClose | EndExpiry

  datatype StreamStep = StartStream | Take | Yield | EndStream | BreakStream

  /** Steps that leave `closed` as it is. */
  datatype QuietStep = Works(work: WorkStep) | Cleans(clean: CleanupStep) | Streams(stream: StreamStep)

  function ApplyWork(s: Session, t: WorkStep): Session {
    match t
    case BeginPost(id) => BeginsPost(s, id)
    case PublishPost(id, d) => PublishesPost(s, id, d)
    case OnPost(id, u) => StepsPost(s, id, u)
    case Put(id, e) => Puts(s, id, e)
    case Unblock(id) => Unblocks(s, id)
  }

  function ApplyCleanup(s: Session, t: CleanupStep): Session {
    match t
    case Gather => Gathers(s)
    case CloseUpstream(id) => ClosesUpstream(s, id)
    case AbortClose => CloseAborts(s)
    case EndExpiry => ExpiryEnds(s)
  }

  function ApplyStream(s: Session, t: StreamStep): Session {
    match t
    case StartStream => StreamStarts(s)
    case Take => StreamTakes(s)
    case Yield => StreamYields(s)
    case EndStream => StreamEnds(s)
    case BreakStream => StreamBreaks(s)
  }

  function ApplyQuiet(s: Session, t: QuietStep): Session {
    match t
    case Works(u) => ApplyWork(s, u)
    case Cleans(u) => ApplyCleanup(s, u)
    case Streams(u) => ApplyStream(s, u)
  }

  // ---------------------------------------------------------------- invariant

  ghost predicate PostsSafe(s: Session) {
    forall id <- s.posts ::
      && PostSafe(s.posts[id]) && (s.closed ==> !MayEnqueue(s.posts[id]))
      && (!s.closed ==> NothingLost(s.posts[id]))
  }

  /** Every event that the POST's task offered was put, or the task still holds it, unless it was cancelled. */
  ghost predicate NothingLost(p: Post) {
    !p.sent.aborted ==> p.sent.offered == p.sent.put + Holding(p)
  }

  /** The accepted events of one POST. */
  function From(accepted: seq<string>, origin: seq<nat>, id: nat): seq<string>
    requires |accepted| == |origin|
  {
    if accepted == [] then []
    else
      var n := |accepted| - 1;
      From(accepted[..n], origin[..n], id) + if origin[n] == id then [accepted[n]] else []
  }

  /** The accepted events are those that the POSTs put, each POST's in its own order. */
  ghost predicate OriginsSafe(s: Session) {
    && |s.origin| == |s.accepted|
    && (forall i :: 0 <= i < |s.origin| ==> s.origin[i] in s.posts)
    && forall id <- s.posts :: s.posts[id].sent.put == From(s.accepted, s.origin, id)
  }

  ghost predicate CleanupSafe(s: Session) {
    match s.cleanup
    case Unlocked => true
    case Gathering(who, waiting, waitExpiry) =>
      && s.closed
      && (forall id <- s.posts :: Busy(s.posts[id]) ==> id in waiting)
      && (if who == OwnExpiry then s.expiry == Expiring else s.expiry == Ended || waitExpiry)
    case ClosingUpstreams(who) =>
      && s.closed
      && (forall id <- s.posts :: !Busy(s.posts[id]))
      && (if who == OwnExpiry then s.expiry == Expiring else s.expiry == Ended)
  }

  function Held(s: Session): seq<string> {
    if s.inHand.Some? then [s.inHand.value] else []
  }

  function LastWord(s: Session): seq<string> {
    if s.terminalSent && s.terminal.Some? then [s.terminal.value] else []
  }

  /** The stream so far: the endpoint event, a prefix of the accepted events in order of acceptance,
      and after them at most one terminal event, which is the last thing sent. */
  ghost predicate DeliveredInOrder(s: Session) {
    && s.taken <= |s.accepted|
    && (s.stream == NotStarted ==> s.delivered == [] && s.taken == 0)
    && (s.stream == Open ==> s.delivered != [] && !s.terminalSent)
    && (s.delivered == [] ==> s.taken == 0 && !s.terminalSent)
    && (s.delivered != [] ==> s.delivered[0] == s.greeting)
    && (s.delivered != [] ==>
          s.delivered[1..] == s.accepted[..s.taken] + LastWord(s))
    && (s.terminalSent ==> s.closed && s.terminal.Some? && s.stream == Over)
  }

  /** What was accepted and not yet sent is in hand or on the queue, in order; closing drops a tail of it. */
  ghost predicate QueueInOrder(s: Session) {
    && |s.queue| <= s.capacity && s.taken <= |s.accepted|
    && (s.inHand.Some? ==> s.stream == Open)
    && (s.stream != Over ==> Held(s) + s.queue <= s.accepted[s.taken..])
    && (s.stream != Over && !s.closed ==> Held(s) + s.queue == s.accepted[s.taken..])
  }

  ghost predicate SessionSafe(s: Session) {
    && PostsSafe(s) && CleanupSafe(s) && DeliveredInOrder(s) && QueueInOrder(s) && OriginsSafe(s)
    && (s.terminal.Some? ==> s.closed)
  }

  // ------------------------------------------------------------- preservation

  /** Replacing one POST by a value that is no busier. */
  lemma WithPostKeeps(s: Session, id: nat, p: Post)
    requires PostsSafe(s) && CleanupSafe(s) && PostSafe(p)
    requires if id in s.posts then (Busy(p) ==> Busy(s.posts[id])) && (MayEnqueue(p) ==> MayEnqueue(s.posts[id]))
             else !s.closed
    requires !s.closed ==> NothingLost(p)
    ensures PostsSafe(WithPost(s, id, p)) && CleanupSafe(WithPost(s, id, p))
  {
  }

  /** A POST that has put no more than before leaves the origins as they are. */
  lemma WithPostKeepsOrigins(s: Session, id: nat, p: Post)
    requires OriginsSafe(s) && p.sent.put == (if id in s.posts then s.posts[id].sent.put else [])
    ensures OriginsSafe(WithPost(s, id, p))
  {
    if id !in s.posts {
      NoneFrom(s.accepted, s.origin, id);
    }
  }

  lemma {:induction false} NoneFrom(accepted: seq<string>, origin: seq<nat>, id: nat)
    requires |accepted| == |origin| && forall i :: 0 <= i < |origin| ==> origin[i] != id
    ensures From(accepted, origin, id) == []
  {
    if accepted != [] {
      NoneFrom(accepted[..|accepted| - 1], origin[..|origin| - 1], id);
    }
  }

  lemma FromAppends(accepted: seq<string>, origin: seq<nat>, id: nat, event: string, who: nat)
    requires |accepted| == |origin|
    ensures From(accepted + [event], origin + [who], id) ==
      From(accepted, origin, id) + if who == id then [event] else []
  {
    assert (accepted + [event])[..|accepted|] == accepted && (origin + [who])[..|origin|] == origin;
  }

  lemma CancelKeeps(p: Post)
    requires PostSafe(p)
    ensures PostSafe(CancelTask(p)) && !MayEnqueue(CancelTask(p)) && (Busy(CancelTask(p)) <==> Busy(p))
    ensures CancelTask(p).sent.put == p.sent.put
  {
  }

  lemma PostStepsKeep(s: Session, id: nat, t: PostStep)
    requires SessionSafe(s)
    ensures SessionSafe(StepsPost(s, id, t))
  {
    if id in s.posts {
      PostStepKeeps(s.posts[id], t);
      WithPostKeeps(s, id, ApplyPost(s.posts[id], t));
      WithPostKeepsOrigins(s, id, ApplyPost(s.posts[id], t));
    }
  }

  lemma PublishPostKeeps(s: Session, id: nat, draining: bool)
    requires SessionSafe(s)
    ensures SessionSafe(PublishesPost(s, id, draining))
  {
    if id in s.posts && s.cleanup == Unlocked {
      PublishedPosts(s, id, draining);
      WithPostKeepsOrigins(s, id, Publishes(s.posts[id], s.closed || draining));
      hide Publishes;
      PostsChange(s, PublishesPost(s, id, draining));
    }
  }

  lemma PublishedPosts(s: Session, id: nat, draining: bool)
    requires PostsSafe(s) && id in s.posts && s.cleanup == Unlocked
    ensures PostsSafe(PublishesPost(s, id, draining)) && CleanupSafe(PublishesPost(s, id, draining))
    ensures PublishesPost(s, id, draining).posts[id].sent == s.posts[id].sent
  {
    PublishKeeps(s.posts[id], s.closed || draining);
  }

  /** A change of POSTs alone. */
  lemma PostsChange(s: Session, t: Session)
    requires SessionSafe(s) && t == s.(posts := t.posts)
    requires PostsSafe(t) && CleanupSafe(t) && OriginsSafe(t)
    ensures SessionSafe(t)
  {
    SameQueue(s, t);
  }

  lemma BeginPostKeeps(s: Session, id: nat)
    requires SessionSafe(s)
    ensures SessionSafe(BeginsPost(s, id))
  {
    if !s.closed && id !in s.posts {
      WithPostKeeps(s, id, FreshPost);
      WithPostKeepsOrigins(s, id, FreshPost);
    }
  }

  /** One more event, put by a POST whose next it is. */
  lemma AcceptKeeps(s: Session, id: nat, event: string)
    requires DeliveredInOrder(s) && QueueInOrder(s) && !s.closed && |s.queue| < s.capacity && id in s.posts
    ensures DeliveredInOrder(Accepts(s, id, event)) && QueueInOrder(Accepts(s, id, event))
  {
    var a := s.accepted + [event];
    assert a[..s.taken] == s.accepted[..s.taken];
    assert a[s.taken..] == s.accepted[s.taken..] + [event];
    assert Held(s) + (s.queue + [event]) == Held(s) + s.queue + [event];
  }

  lemma AcceptKeepsOrigins(s: Session, id: nat, event: string)
    requires OriginsSafe(s) && id in s.posts
    ensures OriginsSafe(Accepts(s, id, event))
  {
    forall x | x in s.posts
      ensures Accepts(s, id, event).posts[x].sent.put == From(s.accepted + [event], s.origin + [id], x)
    {
      FromAppends(s.accepted, s.origin, x, event, id);
    }
  }

  /** A pumping task of an open session, and the event that it offers. */
  ghost predicate Pumps(s: Session, id: nat) {
    id in s.posts && s.posts[id].response == Task(Pumping, false)
  }

  /** The session after one of its tasks has put an event: a place on the queue, and a POST with one
      more event to its name. */
  lemma AcceptedKeeps(s: Session, id: nat, p: Post, event: string)
    requires SessionSafe(s) && !s.closed && |s.queue| < s.capacity && id in s.posts
    requires PostSafe(HasPut(p, event)) && NothingLost(HasPut(p, event)) && p.sent.put == s.posts[id].sent.put
    requires (Busy(p) ==> Busy(s.posts[id])) && (MayEnqueue(p) ==> MayEnqueue(s.posts[id]))
    ensures SessionSafe(Accepts(WithPost(s, id, p), id, event))
  {
    var t := WithPost(s, id, p);
    AcceptedPosts(s, id, p, event);
    SameQueue(s, t);
    AcceptKeeps(t, id, event);
    OriginsOf(s, t);
    AcceptKeepsOrigins(t, id, event);
    SessionOf(s, Accepts(t, id, event));
  }

  lemma AcceptedPosts(s: Session, id: nat, p: Post, event: string)
    requires PostsSafe(s) && CleanupSafe(s) && id in s.posts
    requires PostSafe(HasPut(p, event)) && NothingLost(HasPut(p, event))
    requires (Busy(p) ==> Busy(s.posts[id])) && (MayEnqueue(p) ==> MayEnqueue(s.posts[id]))
    ensures PostsSafe(Accepts(WithPost(s, id, p), id, event)) && CleanupSafe(Accepts(WithPost(s, id, p), id, event))
  {
    WithPostKeeps(s, id, HasPut(p, event));
    SamePosts(WithPost(s, id, HasPut(p, event)), Accepts(WithPost(s, id, p), id, event));
  }

  lemma SessionOf(s: Session, t: Session)
    requires SessionSafe(s) && t.terminal == s.terminal && t.closed == s.closed
    requires PostsSafe(t) && CleanupSafe(t) && DeliveredInOrder(t) && QueueInOrder(t) && OriginsSafe(t)
    ensures SessionSafe(t)
  {
  }

  lemma SamePosts(s: Session, t: Session)
    requires PostsSafe(s) && CleanupSafe(s)
    requires t.posts == s.posts && t.closed == s.closed && t.cleanup == s.cleanup && t.expiry == s.expiry
    ensures PostsSafe(t) && CleanupSafe(t)
  {
  }

  lemma SameQueue(s: Session, t: Session)
    requires DeliveredInOrder(s) && QueueInOrder(s) && t == s.(posts := t.posts)
    ensures DeliveredInOrder(t) && QueueInOrder(t)
  {
  }

  lemma OriginsOf(s: Session, t: Session)
    requires OriginsSafe(s) && t.accepted == s.accepted && t.origin == s.origin && t.posts.Keys == s.posts.Keys
    requires forall x <- s.posts :: t.posts[x].sent.put == s.posts[x].sent.put
    ensures OriginsSafe(t)
  {
  }

  lemma OfferedPost(p: Post, event: string)
    requires PostSafe(p) && p.response == Task(Pumping, false)
    ensures var p' := HasPut(Offers(p, event), event); PostSafe(p') && NothingLost(p')
    ensures var p' := Offers(p, event).(response := Task(Blocked(event), false));
      PostSafe(p') && NothingLost(p') && MayEnqueue(p')
  {
  }

  lemma UnblockedPost(p: Post)
    requires PostSafe(p) && p.response.Task? && !p.response.cancelled && p.response.phase.Blocked?
    ensures var p' := HasPut(p.(response := Task(Pumping, false)), p.response.phase.event);
      PostSafe(p') && NothingLost(p')
  {
  }

  lemma PutKeeps(s: Session, id: nat, event: string)
    requires SessionSafe(s)
    ensures SessionSafe(Puts(s, id, event))
  {
    if Pumps(s, id) {
      assert MayEnqueue(s.posts[id]);
      OfferedPost(s.posts[id], event);
      if |s.queue| < s.capacity {
        AcceptedKeeps(s, id, Offers(s.posts[id], event), event);
      } else {
        var p := Offers(s.posts[id], event).(response := Task(Blocked(event), false));
        WithPostKeeps(s, id, p);
        WithPostKeepsOrigins(s, id, p);
      }
    }
  }

  /** What becomes of an event that a pumping task offers: on an open session it goes to the end of the
      queue if there is room, and otherwise the task is blocked with it; on a closed one the task cleans up. */
  lemma PutMeans(s: Session, id: nat, event: string)
    requires Pumps(s, id)
    ensures var s' := Puts(s, id, event);
      && s'.closed == s.closed && id in s'.posts && s'.posts[id].sent.offered == s.posts[id].sent.offered + [event]
      && (s.closed ==>
            s'.queue == s.queue && s'.accepted == s.accepted && s'.posts[id].response == Task(Cleaning, false))
      && (!s.closed && |s.queue| < s.capacity ==>
            && s'.queue == s.queue + [event] && s'.accepted == s.accepted + [event] && s'.origin == s.origin + [id]
            && s'.posts[id].response == Task(Pumping, false))
      && (!s.closed && |s.queue| >= s.capacity ==>
            && s'.queue == s.queue && s'.accepted == s.accepted
            && s'.posts[id].response == Task(Blocked(event), false))
  {
  }

  /** A blocked put is done, with that very event, as soon as there is room. */
  lemma UnblockMeans(s: Session, id: nat, event: string)
    requires id in s.posts && s.posts[id].response == Task(Blocked(event), false) && |s.queue| < s.capacity
    ensures var s' := Unblocks(s, id);
      && s'.queue == s.queue + [event] && s'.accepted == s.accepted + [event] && s'.origin == s.origin + [id]
      && s'.posts[id].response == Task(Pumping, false)
  {
  }

  lemma UnblockKeeps(s: Session, id: nat)
    requires SessionSafe(s)
    ensures SessionSafe(Unblocks(s, id))
  {
    if Enqueues(s, id) && s.posts[id].response.phase.Blocked? && |s.queue| < s.capacity {
      var p, event := s.posts[id], s.posts[id].response.phase.event;
      assert MayEnqueue(p);
      UnblockedPost(p);
      AcceptedKeeps(s, id, p.(response := Task(Pumping, false)), event);
    }
  }

  lemma CloseUpstreamKeeps(s: Session, id: nat)
    requires SessionSafe(s)
    ensures SessionSafe(ClosesUpstream(s, id))
  {
    if s.cleanup.ClosingUpstreams? && id in s.posts && s.posts[id].listed {
      WithPostKeeps(s, id, Discard(CloseTracked(s.posts[id])));
      WithPostKeepsOrigins(s, id, Discard(CloseTracked(s.posts[id])));
    }
  }

  lemma TakeKeeps(s: Session)
    requires SessionSafe(s)
    ensures SessionSafe(StreamTakes(s))
  {
    if s.inHand == None && s.queue != [] {
      assert [s.queue[0]] + s.queue[1..] == s.queue;
      assert Held(s) + s.queue == s.queue;
    }
  }

  lemma YieldKeeps(s: Session)
    requires SessionSafe(s)
    ensures SessionSafe(StreamYields(s))
  {
    if s.stream == Open && s.inHand.Some? {
      var e, rest := s.inHand.value, s.accepted[s.taken..];
      assert rest[0] == ([e] + s.queue)[0] == e;
      assert s.accepted[..s.taken + 1] == s.accepted[..s.taken] + [e];
      assert rest[1..] == s.accepted[s.taken + 1..];
      assert ([e] + s.queue)[1..] == s.queue;
      assert (s.delivered + [e])[1..] == s.delivered[1..] + [e];
    }
  }

  lemma EndStreamKeeps(s: Session)
    requires SessionSafe(s)
    ensures SessionSafe(StreamEnds(s))
  {
    if s.terminal.Some? && s.stream == Open {
      assert (s.delivered + [s.terminal.value])[1..] == s.delivered[1..] + [s.terminal.value];
    }
  }

  lemma WorkKeeps(s: Session, t: WorkStep)
    requires SessionSafe(s)
    ensures SessionSafe(ApplyWork(s, t))
  {
    match t
    case BeginPost(id) => BeginPostKeeps(s, id);
    case PublishPost(id, d) => PublishPostKeeps(s, id, d);
    case OnPost(id, u) => PostStepsKeep(s, id, u);
    case Put(id, e) => PutKeeps(s, id, e);
    case Unblock(id) => UnblockKeeps(s, id);
  }

  lemma CleanupKeeps(s: Session, t: CleanupStep)
    requires SessionSafe(s)
    ensures SessionSafe(ApplyCleanup(s, t))
  {
    if t.CloseUpstream? {
      CloseUpstreamKeeps(s, t.id);
    }
  }

  lemma StreamKeeps(s: Session, t: StreamStep)
    requires SessionSafe(s)
    ensures SessionSafe(ApplyStream(s, t))
  {
    match t
    case StartStream =>
    case Take => TakeKeeps(s);
    case Yield => YieldKeeps(s);
    case EndStream => EndStreamKeeps(s);
    case BreakStream =>
  }

  lemma QuietKeeps(s: Session, t: QuietStep)
    requires SessionSafe(s)
    ensures SessionSafe(ApplyQuiet(s, t))
  {
    match t
    case Works(u) => WorkKeeps(s, u);
    case Cleans(u) => CleanupKeeps(s, u);
    case Streams(u) => StreamKeeps(s, u);
  }

  /** The POSTs of a session that has been closed: each one can no longer enqueue. */
  ghost predicate Silenced(posts: map<nat, Post>, posts': map<nat, Post>) {
    && posts'.Keys == posts.Keys
    && forall id <- posts ::
      PostSafe(posts'[id]) && !MayEnqueue(posts'[id]) && posts'[id].sent.put == posts[id].sent.put
  }

  lemma EndingKeeps(s: Session, event: string, posts: map<nat, Post>)
    requires SessionSafe(s) && !s.closed && Silenced(s.posts, posts)
    ensures SessionSafe(s.(queue := [], terminal := Some(event), closed := true, posts := posts))
  {
    hide PostSafe, MayEnqueue, From;
    var s' := s.(queue := [], terminal := Some(event), closed := true, posts := posts);
    assert Held(s') + s'.queue == Held(s);
    assert Held(s) <= Held(s) + s.queue;
  }

  lemma CancelAllSilences(posts: map<nat, Post>, caller: Option<nat>)
    requires forall id <- posts :: PostSafe(posts[id])
    requires caller.Some? && caller.value in posts ==> !MayEnqueue(posts[caller.value])
    ensures Silenced(posts, CancelAll(posts, caller))
  {
    forall id | id in posts
      ensures PostSafe(CancelTask(posts[id])) && !MayEnqueue(CancelTask(posts[id]))
      ensures CancelTask(posts[id]).sent.put == posts[id].sent.put
    {
      CancelKeeps(posts[id]);
    }
  }

  lemma TerminalizeKeeps(s: Session, event: string, caller: Option<nat>)
    requires SessionSafe(s) && (caller.Some? && caller.value in s.posts ==> !MayEnqueue(s.posts[caller.value]))
    ensures SessionSafe(Terminalize(s, event, caller))
  {
    if !s.closed {
      CancelAllSilences(s.posts, caller);
      EndingKeeps(s, event, CancelAll(s.posts, caller));
    }
  }

  lemma CleaningPost(p: Post)
    requires PostSafe(p) && MayEnqueue(p) && p.response.phase != Fresh
    ensures var p' := p.(response := Task(Cleaning, false)); PostSafe(p') && !MayEnqueue(p')
  {
  }

  lemma TaskEndsSessionKeeps(s: Session, id: nat, event: string)
    requires SessionSafe(s)
    ensures SessionSafe(TaskEndsSession(s, id, event))
  {
    if MayEndSession(s, id) {
      var posts := s.posts[id := s.posts[id].(response := Task(Cleaning, false))];
      EndedTaskSilences(s, id);
      hide SessionSafe, Silenced, CancelAll;
      assert TaskEndsSession(s, id, event) ==
        s.(queue := [], terminal := Some(event), closed := true, posts := CancelAll(posts, Some(id)));
      EndingKeeps(s, event, CancelAll(posts, Some(id)));
    }
  }

  lemma EndedTaskSilences(s: Session, id: nat)
    requires PostsSafe(s) && MayEndSession(s, id)
    ensures var posts := s.posts[id := s.posts[id].(response := Task(Cleaning, false))];
      Silenced(s.posts, CancelAll(posts, Some(id))) && !s.closed
  {
    var posts := s.posts[id := s.posts[id].(response := Task(Cleaning, false))];
    assert MayEnqueue(s.posts[id]);
    CleaningPost(s.posts[id]);
    CancelAllSilences(posts, Some(id));
  }

  /** Which endings close a session, and what they leave of it. */
  lemma EndsWhen(s: Session, post: nat, event: string)
    ensures TaskEndsSession(s, post, event).closed <==> s.closed || MayEndSession(s, post)
    ensures Expires(s, event).closed <==> s.closed || s.expiry == Watching
    ensures Terminalize(s, event, None).closed
    ensures TaskEndsSession(s, post, event).path == Expires(s, event).path == s.path
    ensures Terminalize(s, event, None).path == s.path
  {
  }

  lemma ExpiresKeeps(s: Session, event: string)
    requires SessionSafe(s)
    ensures SessionSafe(Expires(s, event))
  {
    TerminalizeKeeps(s, event, None);
  }

  lemma BeginCloseKeeps(s: Session, who: Closer)
    requires SessionSafe(s)
    ensures SessionSafe(BeginsClose(s, who))
  {
    if BeginsClose(s, who) != s {
      CancelAllSilences(s.posts, None);
      CancelAllBusy(s.posts);
      ClosingKeeps(s, who, CancelAll(s.posts, None));
    }
  }

  lemma CancelAllBusy(posts: map<nat, Post>)
    ensures forall id <- posts :: Busy(CancelAll(posts, None)[id]) <==> Busy(posts[id])
  {
  }

  lemma ClosingKeeps(s: Session, who: Closer, posts: map<nat, Post>)
    requires SessionSafe(s) && s.cleanup == Unlocked && (who == OwnExpiry ==> s.expiry == Expiring)
    requires Silenced(s.posts, posts) && forall id <- posts :: Busy(posts[id]) <==> Busy(s.posts[id])
    ensures SessionSafe(s.(closed := true, posts := posts,
      cleanup := Gathering(who, BusyPosts(s), who != OwnExpiry && s.expiry != Ended)))
  {
    hide PostSafe, MayEnqueue, Busy, From, NothingLost;
  }

  lemma LeaveKeeps(s: Session)
    requires SessionSafe(s)
    ensures SessionSafe(Leaves(s))
  {
    assert Held(s) + [] == Held(s) <= Held(s) + s.queue;
  }

  /** What was sent stays sent, and nothing follows the terminal event. */
  lemma DeliveryOnlyGrows(s: Session, t: QuietStep)
    requires DeliveredInOrder(s)
    ensures s.delivered <= ApplyQuiet(s, t).delivered
    ensures s.terminalSent ==> ApplyQuiet(s, t).delivered == s.delivered
  {
  }

  // ------------------------------------------------- what stays after a close

  /** Nothing of the session runs any more, except possibly the expiry task that closed it. */
  ghost predicate Quiescent(s: Session) {
    && s.closed && s.queue == [] && (s.expiry == Closed || s.expiry == Ended)
    && forall id <- s.posts :: !Busy(s.posts[id]) && !s.posts[id].listed
  }

  /** After a close: no new POST, no new task, no newly published upstream, no accepted event. */
  ghost predicate NothingAdded(s: Session, s': Session) {
    && s'.closed && s'.posts.Keys == s.posts.Keys && s'.accepted == s.accepted
    && s'.terminal == s.terminal && s'.runtime == s.runtime && s'.path == s.path
    && (s.expiry == Ended ==> s'.expiry == Ended)
    && forall id <- s.posts ::
      && (Busy(s'.posts[id]) ==> Busy(s.posts[id]))
      && (s'.posts[id].published ==> s.posts[id].published) && (s'.posts[id].listed ==> s.posts[id].listed)
  }

  ghost predicate NoMore(p: Post, p': Post) {
    (Busy(p') ==> Busy(p)) && p'.published == p.published && (p'.listed ==> p.listed)
  }

  lemma ClosedTaskStep(p: Post, t: PostStep)
    requires TaskStep(t)
    ensures NoMore(p, ApplyPost(p, t))
  {
  }

  lemma ClosedSetupStep(p: Post, t: PostStep)
    requires SetupStep(t)
    ensures NoMore(p, ApplyPost(p, t))
  {
  }

  lemma ClosedPostStep(p: Post, t: PostStep)
    ensures NoMore(p, ApplyPost(p, t))
  {
    if TaskStep(t) {
      ClosedTaskStep(p, t);
    } else if SetupStep(t) {
      ClosedSetupStep(p, t);
    } else {
      ClosedHandOver(p, t);
    }
  }

  lemma ClosedHandOver(p: Post, t: PostStep)
    requires !SetupStep(t) && !TaskStep(t)
    ensures NoMore(p, ApplyPost(p, t))
  {
    match t
    case PHandOff =>
    case PNeverEntered =>
    case PCancelRequest =>
    case PWithdraw =>
    case PWithdrawCancel =>
  }

  /** Replacing one POST adds nothing when the new value is no busier and no more published. */
  lemma WithPostAddsNothing(s: Session, id: nat, p: Post)
    requires s.closed && id in s.posts
    requires Busy(p) ==> Busy(s.posts[id])
    requires (p.published ==> s.posts[id].published) && (p.listed ==> s.posts[id].listed)
    ensures NothingAdded(s, WithPost(s, id, p))
    ensures Quiescent(s) ==> Quiescent(WithPost(s, id, p))
  {
  }

  lemma ClosedStepsPost(s: Session, id: nat, t: PostStep)
    requires s.closed
    ensures NothingAdded(s, StepsPost(s, id, t))
    ensures Quiescent(s) ==> Quiescent(StepsPost(s, id, t))
  {
    if id in s.posts {
      ClosedPostStep(s.posts[id], t);
      WithPostAddsNothing(s, id, ApplyPost(s.posts[id], t));
    }
  }

  /** Publication after the close is always a rejection. */
  lemma ClosedPublishesPost(s: Session, id: nat, draining: bool)
    requires s.closed
    ensures NothingAdded(s, PublishesPost(s, id, draining))
    ensures Quiescent(s) ==> Quiescent(PublishesPost(s, id, draining))
  {
    if id in s.posts && s.cleanup == Unlocked {
      WithPostAddsNothing(s, id, Publishes(s.posts[id], true));
    }
  }

  /** No response task of a closed session can still put an event on the queue. */
  lemma ClosedRefusesEvents(s: Session, id: nat, event: string)
    requires PostsSafe(s) && s.closed
    ensures Puts(s, id, event) == s && Unblocks(s, id) == s
  {
    assert id in s.posts ==> !MayEnqueue(s.posts[id]);
  }

  lemma ClosedWorkAddsNothing(s: Session, t: WorkStep)
    requires PostsSafe(s) && s.closed
    ensures NothingAdded(s, ApplyWork(s, t))
    ensures Quiescent(s) ==> Quiescent(ApplyWork(s, t))
  {
    match t
    case BeginPost(id) =>
    case PublishPost(id, d) => ClosedPublishesPost(s, id, d);
    case OnPost(id, u) => ClosedStepsPost(s, id, u);
    case Put(id, e) => ClosedRefusesEvents(s, id, e);
    case Unblock(id) => ClosedRefusesEvents(s, id, "");
  }

  lemma ClosedCleanupAddsNothing(s: Session, t: CleanupStep)
    requires s.closed
    ensures NothingAdded(s, ApplyCleanup(s, t))
    ensures Quiescent(s) ==> Quiescent(ApplyCleanup(s, t))
  {
    match t
    case CloseUpstream(id) =>
      if s.cleanup.ClosingUpstreams? && id in s.posts && s.posts[id].listed {
        WithPostAddsNothing(s, id, Discard(CloseTracked(s.posts[id])));
      }
    case _ =>
  }

  lemma ClosedStreamAddsNothing(s: Session, t: StreamStep)
    requires s.closed
    ensures NothingAdded(s, ApplyStream(s, t))
    ensures Quiescent(s) ==> Quiescent(ApplyStream(s, t))
  {
  }

  lemma ClosedQuietAddsNothing(s: Session, t: QuietStep)
    requires PostsSafe(s) && s.closed
    ensures NothingAdded(s, ApplyQuiet(s, t))
    ensures Quiescent(s) ==> Quiescent(ApplyQuiet(s, t))
  {
    match t
    case Works(u) => ClosedWorkAddsNothing(s, u);
    case Cleans(u) => ClosedCleanupAddsNothing(s, u);
    case Streams(u) => ClosedStreamAddsNothing(s, u);
  }

  lemma ClosedBeginCloseAddsNothing(s: Session, who: Closer)
    requires s.closed
    ensures NothingAdded(s, BeginsClose(s, who))
    ensures Quiescent(s) ==> Quiescent(BeginsClose(s, who))
  {
  }

  /** A session leaves the bridge quiescent; its expiry task has ended too, unless it is the one
      that closes the session. */
  lemma LeavesQuiescent(s: Session)
    requires SessionSafe(s) && MayLeave(s)
    ensures Quiescent(Leaves(s))
    ensures Leaves(s).expiry == if s.cleanup.who == OwnExpiry then Closed else Ended
  {
  }

  // ---------------------------------------------------------- the life of a POST

  /** The upstream answers and the session takes it: the response task has the leases and pumps. */
  lemma PostIsPublished()
    ensures HandsOff(TaskEnters(Publishes(Resumes(SetupEnds(FreshPost, Entered(true))), false))) ==
      Post(Answered, false, Task(Pumping, false), true, true, true, false, 0, true, 0, Sent([], [], false))
  {
  }

  /** A pumping task that stops closes its upstream, gives the leases back and is over. */
  lemma TaskFinishes(p: Post)
    requires p.response == Task(Pumping, false) && !p.upstreamClosed && p.leased
    ensures TaskReturns(TaskGivesBack(TaskCloses(TaskStops(p)))) ==
      p.(response := NoTask, upstreamClosed := true, closes := p.closes + 1, listed := false,
         leased := false, giveBacks := p.giveBacks + 1)
  {
  }

  /** A setup that fails or is cancelled gives the leases back without any upstream. */
  lemma SetupFails(outcome: SetupOutcome)
    requires !outcome.Entered?
    ensures Resumes(SetupEnds(FreshPost, outcome)) ==
      FreshPost.(setup := false, request := Answered, leased := false, giveBacks := 1)
  {
  }

  /** An upstream that refuses is listed while its body is read, then closed; one that comes too late for
      its session is closed at once. Both give the leases back. */
  lemma UpstreamRefuses(ok: bool)
    ensures ReadAnswers(ReadEnds(Publishes(Resumes(SetupEnds(FreshPost, Entered(false))), false))) ==
      FreshPost.(setup := false, request := Answered, published := true, upstreamClosed := true, closes := 1,
                 leased := false, giveBacks := 1)
    ensures Publishes(Resumes(SetupEnds(FreshPost, Entered(ok))), true) ==
      FreshPost.(setup := false, request := Answered, upstreamClosed := true, closes := 1,
                 leased := false, giveBacks := 1)
  {
  }

  /** A task that is cancelled before it runs leaves upstream and leases to its request, which closes and
      gives back, also when it was itself cancelled meanwhile. */
  lemma NeverEnteredPost(p: Post)
    requires p.request == AwaitingEntry && p.response == Task(Fresh, false) && !p.entered
    requires !p.upstreamClosed && p.leased
    ensures NeverEntered(TaskDiesFresh(CancelTask(p))) == Withdraws(TaskDiesFresh(RequestCancelled(p))) ==
      p.(request := Answered, response := NoTask, listed := false, upstreamClosed := true, closes := p.closes + 1,
         leased := false, giveBacks := p.giveBacks + 1, sent := p.sent.(aborted := true))
    ensures WithdrawCancelled(TaskDiesFresh(RequestCancelled(p))) ==
      p.(request := Answered, response := NoTask, leased := false, giveBacks := p.giveBacks + 1,
         sent := p.sent.(aborted := true))
  {
  }

  function RunPost(p: Post, steps: seq<PostStep>): Post
    decreases |steps|
  {
    if steps == [] then p else RunPost(ApplyPost(p, steps[0]), steps[1..])
  }

  /** What a POST that is not over can do next towards its end. */
  function NextStep(p: Post): PostStep {
    match p.request
    case SettingUp => PSetup(Cancelled)
    case SetupOver(_) => PAbandon
    case Established(_) => PAbandon
    case Reading => PReadEnd
    case ReadClosed => PReadAnswer
    case _ =>
      if p.response.NoTask? then
        (if p.request == Withdrawing then PWithdraw else if p.entered then PHandOff else PNeverEntered)
      else
        match p.response.phase
        case Fresh => if p.response.cancelled then PDieFresh else PEnter
        case Pumping => PStop
        case Blocked(_) => if p.response.cancelled then PStop else PCancelTask
        case Cleaning => PClose
        case Finishing => PGiveBack
        case Returning => PReturn
  }

  predicate IsOver(p: Post) {
    p.request == Answered && p.response == NoTask
  }

  /** How far a POST is from its end. */
  function Left(p: Post): nat {
    (match p.request
     case SettingUp => 3 case SetupOver(_) => 2 case Established(_) => 2
     case Reading => 2 case Answered => 0 case _ => 1)
    + if p.response.NoTask? then 0
      else
        match p.response.phase
        case Fresh => 6 case Pumping => 4 case Blocked(_) => if p.response.cancelled then 4 else 5
        case Cleaning => 3 case Finishing => 2 case Returning => 1
  }

  lemma NextGoesOn(p: Post)
    requires PostSafe(p) && !IsOver(p)
    ensures PostSafe(ApplyPost(p, NextStep(p))) && Left(ApplyPost(p, NextStep(p))) < Left(p)
  {
    PostStepKeeps(p, NextStep(p));
  }

  /** Wherever a POST stands, steps of its own tasks bring it to its end, with its leases given back once. */
  lemma {:induction false} PostComesToEnd(p: Post) returns (steps: seq<PostStep>)
    requires PostSafe(p)
    ensures var q := RunPost(p, steps);
      PostSafe(q) && q.request == Answered && q.response == NoTask && !q.setup && !q.leased && q.giveBacks == 1
    decreases Left(p)
  {
    steps := [];
    if !IsOver(p) {
      NextGoesOn(p);
      var rest := PostComesToEnd(ApplyPost(p, NextStep(p)));
      steps := [NextStep(p)] + rest;
      assert steps[1..] == rest;
    }
  }

  /** A request that has published goes on exactly when its task was entered, and takes everything back
      exactly when that can no longer happen. */
  lemma HandOffIff(p: Post)
    requires PostSafe(p) && p.request == AwaitingEntry
    ensures HandsOff(p) == if p.entered then p.(request := Answered) else p
    ensures NeverEntered(p) ==
      if p.response == NoTask && !p.entered then
        p.(request := Answered, listed := false, upstreamClosed := true, closes := 1, leased := false, giveBacks := 1)
      else p
  {
  }

  /** A request that goes away after its setup and before it publishes gives the leases back. */
  lemma SetupAbandoned(p: Post)
    requires PostSafe(p) && (p.request.SetupOver? || p.request.Established?)
    ensures Abandons(p) == p.(request := Answered, leased := false, giveBacks := 1)
  {
  }

  /** The task that ends a session goes on to its own cleanup; every other response task is cancelled, and
      the terminal event is all that is left to send. */
  lemma EndingCancelsOthers(s: Session, id: nat, event: string)
    requires !s.closed && id in s.posts && s.posts[id].response.Task? && !s.posts[id].response.cancelled
    requires s.posts[id].response.phase == Pumping || s.posts[id].response.phase.Blocked?
    ensures var s' := TaskEndsSession(s, id, event);
      && s'.closed && s'.queue == [] && s'.terminal == Some(event) && s'.posts.Keys == s.posts.Keys
      && s'.posts[id].response == Task(Cleaning, false) && s'.posts[id].sent == s.posts[id].sent
      && forall x <- s.posts :: x != id ==>
        s'.posts[x] == if s.posts[x].response.Task? then
          s.posts[x].(response := s.posts[x].response.(cancelled := true), sent := s.posts[x].sent.(aborted := true))
        else s.posts[x]
  {
  }

  /** A POST begins on every open session, and what it has set up is published, under the cleanup lock, if
      and only if the session is still open and its runtime not draining; otherwise its upstream is closed
      and it is answered. */
  lemma PostsOnOpenSessions(s: Session, id: nat, draining: bool)
    ensures id !in s.posts && !s.closed ==> BeginsPost(s, id).posts == s.posts[id := FreshPost]
    ensures s.closed ==> BeginsPost(s, id) == s
    ensures s.cleanup != Unlocked ==> PublishesPost(s, id, draining) == s
    ensures id in s.posts && s.cleanup == Unlocked && s.posts[id].request.Established? && !s.posts[id].published ==>
      && (PublishesPost(s, id, draining).posts[id].published <==> !s.closed && !draining)
      && (s.closed || draining ==>
            var p := PublishesPost(s, id, draining).posts[id]; p.request == Answered && p.upstreamClosed && !p.leased)
  {
  }

  /** The stream starts with the greeting, and then sends what is queued, first come first sent. It is over
      when the terminal event is sent or the client disconnects, and sends nothing after that. */
  lemma StreamSends(s: Session)
    ensures s.stream == NotStarted ==> StreamStarts(s).stream == Open && StreamStarts(s).delivered == [s.greeting]
    ensures s.stream == Open && s.inHand == None && s.queue != [] ==>
      var s' := StreamYields(StreamTakes(s));
      s'.delivered == s.delivered + [s.queue[0]] && s'.queue == s.queue[1..] && s'.inHand == None && s'.stream == Open
    ensures s.stream == Open && s.inHand == None && s.closed ==>
      StreamEnds(s).stream == Over
      && StreamEnds(s).delivered == s.delivered + if s.terminal.Some? then [s.terminal.value] else []
    ensures StreamBreaks(s).stream == Over && StreamBreaks(s).inHand == None && StreamBreaks(s).delivered == s.delivered
    ensures s.stream == Over && s.inHand == None ==>
      s == StreamStarts(s) == StreamTakes(s) == StreamYields(s) == StreamEnds(s) == StreamBreaks(s)
  {
  }

  // --------------------------------------------------------- every session can end

  /** A close begins unless another holds the cleanup lock; the expiry task's own needs its deadline to
      have passed. It closes the session, cancels every response task and waits for those and for the
      expiry task, unless that is the one that closes; what is queued can still be sent. */
  lemma CloseBegins(s: Session, who: Closer)
    ensures s.cleanup != Unlocked || (who == OwnExpiry && s.expiry != Expiring) ==> BeginsClose(s, who) == s
    ensures s.cleanup == Unlocked && (who == OwnExpiry ==> s.expiry == Expiring) ==>
      var s' := BeginsClose(s, who);
      && s'.closed && s'.cleanup.Gathering? && s'.cleanup.who == who
      && (forall id :: id in s'.cleanup.waiting <==> id in s.posts && (s.posts[id].setup || s.posts[id].response.Task?))
      && (s'.cleanup.waitExpiry <==> who != OwnExpiry && s.expiry != Ended)
      && (forall id <- s'.posts :: s'.posts[id].response.Task? ==> s'.posts[id].response.cancelled)
      && s' == s.(closed := true, posts := s'.posts, cleanup := s'.cleanup) && s'.posts.Keys == s.posts.Keys
  {
  }

  /** The deadline lets the expiry task close its own session. A close that is cancelled or raises lets the
      cleanup lock go, and with it goes the expiry task that closes; outside its own close that task can
      end at any time. */
  lemma ExpiryGoesOn(s: Session, event: string)
    ensures s.cleanup == Unlocked && s.expiry == Watching ==>
      BeginsClose(Expires(s, event), OwnExpiry).cleanup.Gathering?
    ensures s.cleanup != Unlocked ==>
      CloseAborts(s) == s.(cleanup := Unlocked, expiry := if s.cleanup.who == OwnExpiry then Ended else s.expiry)
    ensures s.cleanup == Unlocked || s.cleanup.who != OwnExpiry ==> ExpiryEnds(s) == s.(expiry := Ended)
  {
  }

  datatype SessionStep = Quietly(step: QuietStep) | Begin(who: Closer) | Leave

  function ApplySession(s: Session, t: SessionStep): Session {
    match t
    case Quietly(u) => ApplyQuiet(s, u)
    case Begin(who) => BeginsClose(s, who)
    case Leave => Leaves(s)
  }

  function RunSession(s: Session, steps: seq<SessionStep>): Session
    decreases |steps|
  {
    if steps == [] then s else RunSession(ApplySession(s, steps[0]), steps[1..])
  }

  lemma {:induction false} RunSessionConcat(s: Session, a: seq<SessionStep>, b: seq<SessionStep>)
    ensures RunSession(s, a + b) == RunSession(RunSession(s, a), b)
    decreases |a|
  {
    if a == [] {
      assert a + b == b;
    } else {
      assert (a + b)[1..] == a[1..] + b;
      RunSessionConcat(ApplySession(s, a[0]), a[1..], b);
    }
  }

  lemma RunSessionOne(s: Session, t: SessionStep)
    ensures RunSession(s, [t]) == ApplySession(s, t)
  {
    assert [t][1..] == [];
    assert RunSession(ApplySession(s, t), []) == ApplySession(s, t);
  }

  function OnPosts(id: nat, steps: seq<PostStep>): seq<SessionStep> {
    seq(|steps|, i requires 0 <= i < |steps| => Quietly(Works(OnPost(id, steps[i]))))
  }

  lemma {:induction false} RunSessionKeeps(s: Session, steps: seq<SessionStep>)
    requires SessionSafe(s) && forall t <- steps :: t.Quietly?
    ensures SessionSafe(RunSession(s, steps))
    decreases |steps|
  {
    hide SessionSafe, ApplyQuiet;
    if steps != [] {
      assert steps[0] in steps;
      QuietKeeps(s, steps[0].step);
      RunSessionKeeps(ApplySession(s, steps[0]), steps[1..]);
    }
  }

  lemma PostMoves(s: Session, id: nat, t: PostStep)
    requires id in s.posts
    ensures ApplySession(s, Quietly(Works(OnPost(id, t)))) == WithPost(s, id, ApplyPost(s.posts[id], t))
  {
  }

  lemma SamePost(s: Session, id: nat, p: Post, q: Post)
    ensures WithPost(WithPost(s, id, p), id, q) == WithPost(s, id, q)
    ensures id in s.posts ==> WithPost(s, id, s.posts[id]) == s
  {
    assert s.posts[id := p][id := q] == s.posts[id := q];
    if id in s.posts {
      assert s.posts[id := s.posts[id]] == s.posts;
    }
  }

  /** One POST of a session goes through its own steps; all else stays. */
  lemma {:induction false} OnPostsRunPost(s: Session, id: nat, steps: seq<PostStep>)
    requires id in s.posts
    ensures RunSession(s, OnPosts(id, steps)) == WithPost(s, id, RunPost(s.posts[id], steps))
    decreases |steps|
  {
    hide ApplyQuiet, ApplyPost, ApplySession;
    if steps == [] {
      SamePost(s, id, s.posts[id], s.posts[id]);
    } else {
      var p := ApplyPost(s.posts[id], steps[0]);
      assert OnPosts(id, steps)[1..] == OnPosts(id, steps[1..]);
      PostMoves(s, id, steps[0]);
      OnPostsRunPost(WithPost(s, id, p), id, steps[1..]);
      SamePost(s, id, p, RunPost(p, steps[1..]));
    }
  }

  ghost predicate OnlyPosts(s: Session, s': Session) {
    s' == s.(posts := s'.posts) && s'.posts.Keys == s.posts.Keys
  }

  /** The POST has ended with its leases given back. */
  predicate HasEnded(p: Post) {
    IsOver(p) && !Busy(p) && !p.leased
  }

  ghost predicate AllEnded(s: Session) {
    forall id <- s.posts :: HasEnded(s.posts[id])
  }

  /** Every POST in `todo` can be brought to its end. */
  lemma {:induction false} PostsComeToEnd(s: Session, todo: set<nat>) returns (steps: seq<SessionStep>)
    requires SessionSafe(s) && todo <= s.posts.Keys
    ensures var s' := RunSession(s, steps);
      && SessionSafe(s') && OnlyPosts(s, s')
      && forall id <- s.posts :: if id in todo then HasEnded(s'.posts[id]) else s'.posts[id] == s.posts[id]
    decreases |todo|
  {
    hide SessionSafe, PostSafe, ApplySession, RunPost;
    steps := [];
    if id :| id in todo {
      var ends := OnePostEnds(s, id);
      var rest := PostsComeToEnd(RunSession(s, ends), todo - {id});
      RunSessionConcat(s, ends, rest);
      steps := ends + rest;
    }
  }

  lemma OnePostEnds(s: Session, id: nat) returns (steps: seq<SessionStep>)
    requires SessionSafe(s) && id in s.posts
    ensures var s' := RunSession(s, steps);
      SessionSafe(s') && OnlyPosts(s, s') && HasEnded(s'.posts[id])
      && forall x <- s.posts :: x != id ==> s'.posts[x] == s.posts[x]
  {
    assert PostSafe(s.posts[id]);
    hide SessionSafe, PostSafe, ApplySession, RunSession, RunPost;
    var ends := PostComesToEnd(s.posts[id]);
    steps := OnPosts(id, ends);
    OnPostsRunPost(s, id, ends);
    RunSessionKeeps(s, steps);
  }

  /** Every upstream in `todo` can be closed. */
  lemma {:induction false} UpstreamsCanBeClosed(s: Session, todo: set<nat>) returns (steps: seq<SessionStep>)
    requires SessionSafe(s) && s.cleanup.ClosingUpstreams? && todo <= s.posts.Keys
    requires forall id <- s.posts :: s.posts[id].listed ==> id in todo
    ensures var s' := RunSession(s, steps);
      SessionSafe(s') && MayLeave(s') && OnlyPosts(s, s') && (AllEnded(s) ==> AllEnded(s'))
    decreases |todo|
  {
    hide SessionSafe, ApplySession;
    steps := [];
    if id :| id in todo {
      var t := Quietly(Cleans(CloseUpstream(id)));
      ClosesOneUpstream(s, id);
      var rest := UpstreamsCanBeClosed(ApplySession(s, t), todo - {id});
      steps := [t] + rest;
      assert steps[1..] == rest;
    }
  }

  lemma ClosesOneUpstream(s: Session, id: nat)
    requires SessionSafe(s) && s.cleanup.ClosingUpstreams? && id in s.posts
    ensures var s' := ApplySession(s, Quietly(Cleans(CloseUpstream(id))));
      SessionSafe(s') && OnlyPosts(s, s') && !s'.posts[id].listed
      && (forall x <- s.posts :: x != id ==> s'.posts[x] == s.posts[x])
      && (HasEnded(s.posts[id]) ==> HasEnded(s'.posts[id]))
  {
    hide *;
    StaysEnded(s.posts[id]);
    CloseUpstreamKeeps(s, id);
    UpstreamStep(s, id);
    ClosedUpstream(s, id);
  }

  lemma ClosedUpstream(s: Session, id: nat)
    requires s.cleanup.ClosingUpstreams? && id in s.posts
    ensures var s', p := ClosesUpstream(s, id), s.posts[id];
      && OnlyPosts(s, s') && s'.posts[id] == (if p.listed then Discard(CloseTracked(p)) else p)
      && forall x <- s.posts :: x != id ==> s'.posts[x] == s.posts[x]
  {
    hide CloseTracked, Discard;
  }

  lemma StaysEnded(p: Post)
    ensures !Discard(CloseTracked(p)).listed
    ensures HasEnded(p) ==> HasEnded(Discard(CloseTracked(p)))
  {
  }

  lemma UpstreamStep(s: Session, id: nat)
    ensures ApplySession(s, Quietly(Cleans(CloseUpstream(id)))) == ClosesUpstream(s, id)
  {
    hide ClosesUpstream;
  }

  /** A close that gathers can go on to its end. */
  lemma GatheringEnds(s: Session) returns (steps: seq<SessionStep>)
    requires SessionSafe(s) && s.cleanup.Gathering? && (s.cleanup.waitExpiry ==> s.expiry == Ended)
    ensures var s' := RunSession(s, steps); Quiescent(s') && s'.cleanup == Unlocked && AllEnded(s')
    ensures RunSession(s, steps).expiry == if s.cleanup.who == OwnExpiry then Closed else Ended
  {
    var work := PostsComeToEnd(s, s.posts.Keys);
    var s1 := RunSession(s, work);
    assert AllEnded(s1);
    var s2 := Gathers(s1);
    GathersNow(s1);
    CleanupKeeps(s1, Gather);
    var ups := UpstreamsCanBeClosed(s2, s2.posts.Keys);
    var s3 := RunSession(s2, ups);
    LeavesQuiescent(s3);
    hide SessionSafe, Quiescent;
    RunSessionOne(s1, Quietly(Cleans(Gather)));
    RunSessionOne(s3, Leave);
    RunSessionConcat(s2, ups, [Leave]);
    RunSessionConcat(s1, [Quietly(Cleans(Gather))], ups + [Leave]);
    RunSessionConcat(s, work, [Quietly(Cleans(Gather))] + (ups + [Leave]));
    steps := work + ([Quietly(Cleans(Gather))] + (ups + [Leave]));
  }

  lemma GathersNow(s: Session)
    requires s.cleanup.Gathering? && (s.cleanup.waitExpiry ==> s.expiry == Ended)
    requires forall id <- s.posts :: !Busy(s.posts[id])
    ensures Gathers(s) == s.(cleanup := ClosingUpstreams(s.cleanup.who))
  {
  }

  /** A close that begins comes to gather with nothing but POSTs to wait for. */
  lemma GatheringBegins(s: Session, who: Closer) returns (steps: seq<SessionStep>)
    requires SessionSafe(s) && s.cleanup == Unlocked && (who == OwnExpiry ==> s.expiry == Expiring)
    ensures var g := RunSession(s, steps);
      SessionSafe(g) && g.cleanup.Gathering? && g.cleanup.who == who && (g.cleanup.waitExpiry ==> g.expiry == Ended)
  {
    var b := BeginsClose(s, who);
    BeginCloseKeeps(s, who);
    CleanupKeeps(b, EndExpiry);
    hide SessionSafe, RunSession;
    RunSessionOne(s, Begin(who));
    steps := [Begin(who)];
    if who != OwnExpiry {
      RunSessionOne(b, Quietly(Cleans(EndExpiry)));
      RunSessionConcat(s, steps, [Quietly(Cleans(EndExpiry))]);
      steps := steps + [Quietly(Cleans(EndExpiry))];
    }
  }

  /** Wherever an open or closed session stands, unless a close is under way, a close can begin and come to
      its end, with every POST over, every upstream closed and every lease given back: at once when the
      expiry task closes at its deadline, and otherwise after that task has ended. */
  lemma SessionComesToEnd(s: Session, who: Closer) returns (steps: seq<SessionStep>)
    requires SessionSafe(s) && s.cleanup == Unlocked && (who == OwnExpiry ==> s.expiry == Expiring)
    ensures var s' := RunSession(s, steps); Quiescent(s') && s'.cleanup == Unlocked && AllEnded(s')
    ensures RunSession(s, steps).expiry == if who == OwnExpiry then Closed else Ended
  {
    hide *;
    var first := GatheringBegins(s, who);
    var rest := GatheringEnds(RunSession(s, first));
    RunSessionConcat(s, first, rest);
    steps := first + rest;
  }
}
