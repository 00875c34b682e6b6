/** The leases of one proxied request, from admission to the end of its response
    (mcp_router/server.py, `catch_all_proxy` and `_finish_leased_response`). The limit lease is taken
    first, the runtime lease second; from then on they belong to the request, to the body of a
    streaming response, or to a POST of the legacy bridge. */
module RequestLeases {
  import B = BridgeSession

  datatype Phase =
    | Arrived
    | Limited      // limit lease only
    | Activating   // awaiting _acquire_upstream_lease
    | Proxying     // awaiting _proxy_request
    | Bridging     // in handle_post, or handed to its response task
    | Streaming(body: Body)
    | Finished

  /** The leased body iterator: not yet started, in its loop, or closing the wrapped iterator. */
  datatype Body = Unread | InLoop | Closing

  datatype Request = Request(
    phase: Phase,
    limitHeld: bool, runtimeHeld: bool,
    limitTaken: nat, limitGiven: nat,      // acquisitions, and releases with effect
    runtimeTaken: nat, runtimeGiven: nat,
    post: B.Post)                          // meaningful while Bridging

  const NewRequest := Request(Arrived, false, false, 0, 0, 0, 0, B.FreshPost)

  function TakeLimit(q: Request): Request {
    q.(limitHeld := true, limitTaken := q.limitTaken + 1)
  }

  function TakeRuntime(q: Request): Request {
    q.(runtimeHeld := true, runtimeTaken := q.runtimeTaken + 1)
  }

  /** `_release_leases`; a lease that was not taken, or is already back, is skipped. */
  function ReleaseBoth(q: Request): Request {
    q.(limitHeld := false, limitGiven := if q.limitHeld then q.limitGiven + 1 else q.limitGiven,
       runtimeHeld := false, runtimeGiven := if q.runtimeHeld then q.runtimeGiven + 1 else q.runtimeGiven)
  }

  function Finish(q: Request): Request {
    ReleaseBoth(q).(phase := Finished)
  }

  /** `_finish_leased_response`: a stream takes the leases along, any other answer gives them back. */
  function FinishLeased(q: Request, streaming: bool): Request {
    if streaming then q.(phase := Streaming(Unread)) else Finish(q)
  }

  datatype Route = StreamRoute | BridgeRoute | ProxyRoute

  datatype Activation = Granted(route: Route) | Refused | Raised

  /** The runtime lease is granted, refused with an answer, or its wait is cancelled. */
  function Activates(q: Request, outcome: Activation): Request {
    if q.phase != Activating then q
    else
      match outcome
      case Granted(StreamRoute) => FinishLeased(TakeRuntime(q), true)
      case Granted(BridgeRoute) => TakeRuntime(q).(phase := Bridging, post := B.FreshPost)
      case Granted(ProxyRoute) => TakeRuntime(q).(phase := Proxying)
      case _ => Finish(q)
  }

  datatype Proxied = Stream | Plain | ProxyRaises

  function ProxyEnds(q: Request, outcome: Proxied): Request {
    if q.phase != Proxying then q
    else if outcome.ProxyRaises? then Finish(q)
    else FinishLeased(q, outcome.Stream?)
  }

  /** The POST moves inside the bridge; its `on_complete`, or the request's own finally block, is
      where the leases come back. */
  function AfterPost(q: Request, p: B.Post): Request {
    var s := q.(post := p);
    if q.post.leased && !p.leased then ReleaseBoth(s) else s
  }

  function BridgeMoves(q: Request, t: B.PostStep): Request {
    if q.phase == Bridging then AfterPost(q, B.ApplyPost(q.post, t)) else q
  }

  function BridgePublishes(q: Request, rejected: bool): Request {
    if q.phase == Bridging then AfterPost(q, B.Publishes(q.post, rejected)) else q
  }

  function BridgeDone(q: Request): Request {
    if q.phase == Bridging && q.post.request == B.Answered && !q.post.response.Task? then q.(phase := Finished) else q
  }

  /** `handle_post` answers 404, 409 or 410 before any setup task exists. */
  function BridgeRefuses(q: Request): Request {
    if q.phase == Bridging && q.post == B.FreshPost then Finish(q.(post := q.post.(leased := false))) else q
  }

  datatype Step =
    | Admit(rejected: bool)
    | AnswerEarly                    // 405, 400 or 503 without an upstream
    | OpenSession(admitted: bool)    // the stream of a new bridge session, or its 429
    | Activate
    | ActivationEnds(outcome: Activation)
    | ProxyingEnds(proxied: Proxied)
    | Refuse
    | Move(step: B.PostStep)
    | Publish(refused: bool)
    | BridgeEnds
    | ReadBody
    | StopBody                       // end of stream, upstream failure or client disconnect
    | CloseBody                      // whether or not closing the wrapped iterator raises

  function Apply(q: Request, s: Step): Request {
    match s
    case Admit(rejected) =>
      if q.phase != Arrived then q else if rejected then q.(phase := Finished) else TakeLimit(q).(phase := Limited)
    case AnswerEarly => if q.phase == Limited then FinishLeased(q, false) else q
    case OpenSession(admitted) => if q.phase == Limited then FinishLeased(q, admitted) else q
    case Activate => if q.phase == Limited then q.(phase := Activating) else q
    case ActivationEnds(outcome) => Activates(q, outcome)
    case ProxyingEnds(outcome) => ProxyEnds(q, outcome)
    case Refuse => BridgeRefuses(q)
    case Move(t) => BridgeMoves(q, t)
    case Publish(refused) => BridgePublishes(q, refused)
    case BridgeEnds => BridgeDone(q)
    case ReadBody => if q.phase == Streaming(Unread) then q.(phase := Streaming(InLoop)) else q
    case StopBody => if q.phase == Streaming(InLoop) then q.(phase := Streaming(Closing)) else q
    case CloseBody => if q.phase == Streaming(Closing) then Finish(q) else q
  }

  // ---------------------------------------------------------------- invariant

  datatype Owner = Nobody | TheRequest | TheBody | TheResponseTask

  function OwnerOf(q: Request): Owner {
    match q.phase
    case Arrived => Nobody
    case Limited => TheRequest
    case Activating => TheRequest
    case Proxying => TheRequest
    case Streaming(_) => TheBody
    case Bridging =>
      (match B.LeaseOwner(q.post)
       case Nobody => Nobody
       case RequestTask => TheRequest
       case ResponseTask => TheResponseTask)
    case Finished => Nobody
  }

  ghost predicate LeasesOwned(q: Request) {
    && (q.limitHeld <==> OwnerOf(q) != Nobody)
    && (q.runtimeTaken == 1 ==> (q.runtimeHeld <==> q.limitHeld))
    && (q.phase == Proxying || q.phase == Bridging ==> q.runtimeTaken == 1)
    && (q.runtimeHeld ==> q.limitHeld && q.phase != Limited && q.phase != Activating)
    && (q.phase == Bridging ==> B.PostSafe(q.post))
  }

  ghost predicate LeasesCounted(q: Request) {
    && q.limitTaken <= 1 && q.runtimeTaken <= q.limitTaken
    && q.limitGiven + (if q.limitHeld then 1 else 0) == q.limitTaken
    && q.runtimeGiven + (if q.runtimeHeld then 1 else 0) == q.runtimeTaken
    && (q.phase == Arrived ==> q.limitTaken == 0)
    && (q.phase == Limited || q.phase == Activating ==> q.runtimeTaken == 0)
  }

  ghost predicate Safe(q: Request) {
    LeasesOwned(q) && LeasesCounted(q)
  }

  lemma AfterPostKeeps(q: Request, p: B.Post)
    requires Safe(q) && q.phase == Bridging && B.PostSafe(p) && (p.leased ==> q.post.leased)
    ensures Safe(AfterPost(q, p))
  {
  }

  lemma PostNeverTakes(p: B.Post, t: B.PostStep)
    ensures B.ApplyPost(p, t).leased ==> p.leased
  {
  }

  lemma StepKeepsLeases(q: Request, s: Step)
    requires Safe(q)
    ensures Safe(Apply(q, s))
  {
    if q.phase == Bridging {
      match s
      case Move(t) =>
        B.PostStepKeeps(q.post, t);
        PostNeverTakes(q.post, t);
        AfterPostKeeps(q, B.ApplyPost(q.post, t));
      case Publish(refused) =>
        B.PublishKeeps(q.post, refused);
        AfterPostKeeps(q, B.Publishes(q.post, refused));
      case _ =>
    }
  }

  ghost predicate Reaches(q: Request, steps: seq<Step>, q': Request)
    decreases |steps|
  {
    if steps == [] then q == q' else Reaches(Apply(q, steps[0]), steps[1..], q')
  }

  lemma {:induction false} RunKeepsLeases(q: Request, steps: seq<Step>, q': Request)
    requires Safe(q) && Reaches(q, steps, q')
    ensures Safe(q')
    decreases |steps|
  {
    if steps != [] {
      StepKeepsLeases(q, steps[0]);
      RunKeepsLeases(Apply(q, steps[0]), steps[1..], q');
    }
  }

  /** In every run of a request: each lease is taken at most once and given back with effect at most
      once; it is held exactly while the request, its streaming body or an entered response task
      owns it. */
  lemma LeasesBackOnEveryExit(steps: seq<Step>, q: Request)
    requires Reaches(NewRequest, steps, q)
    ensures q.limitTaken <= 1 && q.runtimeTaken <= q.limitTaken
    ensures q.limitGiven == q.limitTaken - (if q.limitHeld then 1 else 0)
    ensures q.runtimeGiven == q.runtimeTaken - (if q.runtimeHeld then 1 else 0)
    ensures q.limitHeld <==> OwnerOf(q) != Nobody
    ensures q.runtimeHeld ==> OwnerOf(q) != Nobody && q.phase != Limited && q.phase != Activating
    ensures q.phase == Finished ==> q.limitGiven == q.limitTaken && q.runtimeGiven == q.runtimeTaken
  {
    RunKeepsLeases(NewRequest, steps, q);
  }

  /** A POST's leases come back only when its setup task is over and its response task, if there is
      one, has done its work and is about to return. */
  lemma BackOnlyWhenIdle(steps: seq<Step>, q: Request)
    requires Reaches(NewRequest, steps, q) && q.phase == Bridging && !q.runtimeHeld
    ensures !q.post.setup && (q.post.response.Task? ==> q.post.response.phase == B.Returning)
  {
    RunKeepsLeases(NewRequest, steps, q);
    assert B.PostSafe(q.post) && !q.post.leased;
  }

  // ------------------------------------------------------------ the life of a request

  /** An admitted request that is activated has both leases, on whatever route it goes on. */
  lemma ActivationTakesBoth(route: Route)
    ensures var q := Apply(Apply(Apply(NewRequest, Admit(false)), Activate), ActivationEnds(Granted(route)));
      && q.limitHeld && q.runtimeHeld && q.limitTaken == q.runtimeTaken == 1
      && q.phase == match route
                    case StreamRoute => Streaming(Unread)
                    case BridgeRoute => Bridging
                    case ProxyRoute => Proxying
    ensures Apply(NewRequest, Admit(true)).phase == Finished && !Apply(NewRequest, Admit(true)).limitHeld
  {
  }

  /** Where leases come back: at once with a plain answer, an error, a refusal of the runtime or of the
      bridge, and with the end of the body of a streaming one, which has them until then. */
  lemma LeasesComeBack(q: Request)
    requires Safe(q)
    ensures q.phase == Proxying ==>
      && Apply(q, ProxyingEnds(Plain)) == Apply(q, ProxyingEnds(ProxyRaises)) == Finish(q)
      && Apply(q, ProxyingEnds(Stream)) == q.(phase := Streaming(Unread))
    ensures q.phase == Activating ==> Apply(q, ActivationEnds(Refused)) == Apply(q, ActivationEnds(Raised)) == Finish(q)
    ensures q.phase == Limited ==>
      && Apply(q, AnswerEarly) == Apply(q, OpenSession(false)) == Finish(q)
      && Apply(q, OpenSession(true)) == q.(phase := Streaming(Unread))
    ensures q.phase == Streaming(Unread) ==> Apply(Apply(Apply(q, ReadBody), StopBody), CloseBody) == Finish(q)
    ensures q.phase == Bridging && q.post == B.FreshPost ==>
      Apply(q, Refuse).phase == Finished && !Apply(q, Refuse).limitHeld && !Apply(q, Refuse).runtimeHeld
    ensures !Finish(q).limitHeld && !Finish(q).runtimeHeld && Finish(q).phase == Finished
  {
  }

  /** A streaming body has its leases until it is closed, whatever happens to it before. */
  lemma BodyKeepsLeases(q: Request, s: Step)
    requires Safe(q) && q.phase.Streaming?
    ensures Apply(q, s).limitHeld <==> !(q.phase == Streaming(Closing) && s == CloseBody)
    ensures Apply(q, s).phase.Streaming? || Apply(q, s) == Finish(q)
  {
  }

  /** A POST that is published keeps its leases, and one that is rejected gives them back with its upstream
      closed. */
  lemma PublishDecides(q: Request, rejected: bool)
    requires Safe(q) && q.phase == Bridging && q.post.request.Established?
    ensures var q' := Apply(q, Publish(rejected));
      && (q'.limitHeld <==> !rejected) && (q'.runtimeHeld <==> !rejected)
      && (q'.post.published <==> !rejected) && (q'.post.upstreamClosed <==> rejected)
      && (rejected <==> q'.post.request == B.Answered)
  {
  }

  // ------------------------------------------------------------ every request can end

  function Run(q: Request, steps: seq<Step>): Request
    decreases |steps|
  {
    if steps == [] then q else Run(Apply(q, steps[0]), steps[1..])
  }

  function Moves(steps: seq<B.PostStep>): seq<Step> {
    seq(|steps|, i requires 0 <= i < |steps| => Move(steps[i]))
  }

  /** The POST inside a bridged request goes through its own steps. */
  lemma {:induction false} MovesRunPost(q: Request, steps: seq<B.PostStep>)
    requires Safe(q) && q.phase == Bridging
    ensures var q' := Run(q, Moves(steps));
      Safe(q') && q'.phase == Bridging && q'.post == B.RunPost(q.post, steps)
    decreases |steps|
  {
    if steps != [] {
      assert Moves(steps)[1..] == Moves(steps[1..]);
      StepKeepsLeases(q, Move(steps[0]));
      MovesRunPost(Apply(q, Move(steps[0])), steps[1..]);
    }
  }

  lemma {:induction false} RunSnoc(q: Request, steps: seq<Step>, s: Step)
    ensures Run(q, steps + [s]) == Apply(Run(q, steps), s)
    decreases |steps|
  {
    if steps == [] {
      assert (steps + [s])[1..] == [];
      assert Run(Apply(q, s), []) == Apply(q, s);
    } else {
      assert (steps + [s])[1..] == steps[1..] + [s];
      RunSnoc(Apply(q, steps[0]), steps[1..], s);
    }
  }

  /** What a request that is not in the bridge does next towards its end. */
  function NextStep(q: Request): Step {
    match q.phase
    case Arrived => Admit(true)
    case Limited => AnswerEarly
    case Activating => ActivationEnds(Raised)
    case Proxying => ProxyingEnds(Plain)
    case Streaming(Unread) => ReadBody
    case Streaming(InLoop) => StopBody
    case _ => CloseBody
  }

  function Left(q: Request): nat {
    match q.phase
    case Streaming(Unread) => 3
    case Streaming(InLoop) => 2
    case Finished => 0
    case _ => 1
  }

  /** Wherever a request stands, steps of its own bring it to its end with every lease given back. */
  lemma {:induction false} RequestComesToEnd(q: Request) returns (steps: seq<Step>)
    requires Safe(q)
    ensures var q' := Run(q, steps);
      Safe(q') && q'.phase == Finished && q'.limitGiven == q'.limitTaken && q'.runtimeGiven == q'.runtimeTaken
    decreases Left(q)
  {
    steps := [];
    if q.phase == Bridging {
      var moves := B.PostComesToEnd(q.post);
      MovesRunPost(q, moves);
      StepKeepsLeases(Run(q, Moves(moves)), BridgeEnds);
      RunSnoc(q, Moves(moves), BridgeEnds);
      steps := Moves(moves) + [BridgeEnds];
    } else if q.phase != Finished {
      StepKeepsLeases(q, NextStep(q));
      var rest := RequestComesToEnd(Apply(q, NextStep(q)));
      steps := [NextStep(q)] + rest;
      assert steps[1..] == rest;
    }
  }
}
