/** Disconnect accounting of the observability middleware over one ASGI call
    (mcp_router/core/observability.py). A call is the trace of what its two wrappers saw, and how the
    wrapped application left. */
module Observability {
  import opened Common

  datatype Message = Start(status: int) | Body(size: nat, more: bool) | Other

  /** What became of a send: delivered, refused because the client is gone (ClientDisconnect or
      OSError), or failed otherwise. */
  datatype Delivery = Delivered | ClientGone | Failed

  datatype Event = Received(disconnect: bool) | Sent(message: Message, delivery: Delivery)

  datatype End = Returned | RaisedDisconnect | RaisedCancelled | RaisedOther

  const CLIENT_CLOSED_REQUEST := 499
  const NO_STATUS := 500

  // ------------------------------------------------- what a trace means

  predicate IsSignal(e: Event) {
    (e.Received? && e.disconnect) || (e.Sent? && e.delivery == ClientGone)
  }

  predicate IsStarted(e: Event) {
    e.Sent? && e.message.Start? && e.delivery == Delivered
  }

  predicate IsFinal(e: Event) {
    e.Sent? && e.message.Body? && !e.message.more && e.delivery == Delivered
  }

  predicate Occurs(trace: seq<Event>, P: Event -> bool) {
    exists i :: 0 <= i < |trace| && P(trace[i])
  }

  /** A disconnect signal at the end of the trace, which is how an application reports one by raising,
      or within it. */
  predicate SignalAt(trace: seq<Event>, end: End, i: nat) {
    if i < |trace| then IsSignal(trace[i]) else i == |trace| && end == RaisedDisconnect
  }

  /** A signal before the final body was delivered. */
  predicate LiveSignal(trace: seq<Event>, end: End, i: nat) {
    i <= |trace| && SignalAt(trace, end, i) && !Occurs(trace[..i], IsFinal)
  }

  /** The client went away in mid-response. */
  predicate StreamCancelled(trace: seq<Event>, end: End) {
    exists i :: 0 <= i <= |trace| && LiveSignal(trace, end, i) && Occurs(trace[..i], IsStarted)
  }

  predicate RequestCancelled(trace: seq<Event>, end: End) {
    end == RaisedCancelled || exists i :: 0 <= i <= |trace| && LiveSignal(trace, end, i)
  }

  function DeliveredBytes(trace: seq<Event>): nat {
    if trace == [] then 0
    else
      var last := trace[|trace| - 1];
      DeliveredBytes(trace[..|trace| - 1])
      + (if last.Sent? && last.message.Body? && last.delivery == Delivered then last.message.size else 0)
  }

  /** The status after the first `i` events: that of the last of them that announces one, whether or
      not it reached the client, or is a live signal. */
  function StatusAfter(trace: seq<Event>, end: End, i: nat): int
    requires i <= |trace|
  {
    if i == 0 then NO_STATUS
    else if LiveSignal(trace, end, i - 1) then CLIENT_CLOSED_REQUEST
    else if trace[i - 1].Sent? && trace[i - 1].message.Start? then trace[i - 1].message.status
    else StatusAfter(trace, end, i - 1)
  }

  function RecordedStatus(trace: seq<Event>, end: End): int {
    if end == RaisedCancelled || LiveSignal(trace, end, |trace|) then CLIENT_CLOSED_REQUEST
    else StatusAfter(trace, end, |trace|)
  }

  /** A call whose client never left and that was not cancelled records the last status announced. */
  lemma {:induction false} UndisturbedStatus(trace: seq<Event>, end: End, i: nat)
    requires i <= |trace| && forall k :: 0 <= k < i ==> !LiveSignal(trace, end, k)
    ensures StatusAfter(trace, end, i) == AnnouncedStatus(trace[..i])
  {
    if i > 0 {
      UndisturbedStatus(trace, end, i - 1);
      assert trace[..i][..i - 1] == trace[..i - 1];
    }
  }

  function AnnouncedStatus(trace: seq<Event>): int {
    if trace == [] then NO_STATUS
    else
      var last := trace[|trace| - 1];
      if last.Sent? && last.message.Start? then last.message.status else AnnouncedStatus(trace[..|trace| - 1])
  }

  predicate Announces(e: Event) {
    e.Sent? && e.message.Start?
  }

  /** The start at `k` is the last, and no live disconnect came with it or later. */
  predicate LastWord(trace: seq<Event>, end: End, k: nat, i: nat)
    requires k < i <= |trace|
  {
    && Announces(trace[k]) && (forall j :: k <= j < i ==> !LiveSignal(trace, end, j))
    && forall j :: k < j < i ==> !Announces(trace[j])
  }

  /** What is recorded: 500 while nothing has happened, the last announced status after that, and 499 from
      a live disconnect on, unless a later start announces another. */
  lemma {:induction false} StatusMeans(trace: seq<Event>, end: End, i: nat)
    requires i <= |trace|
    ensures (forall k :: 0 <= k < i ==> !Announces(trace[k]) && !LiveSignal(trace, end, k)) ==>
      StatusAfter(trace, end, i) == 500
    ensures forall k :: (0 <= k < i && LiveSignal(trace, end, k) && forall j :: k < j < i ==> !Announces(trace[j])) ==>
      StatusAfter(trace, end, i) == 499
    ensures forall k :: 0 <= k < i && LastWord(trace, end, k, i) ==>
      StatusAfter(trace, end, i) == trace[k].message.status
  {
    if i > 0 {
      StatusMeans(trace, end, i - 1);
    }
  }

  /** A cancelled call, and one that ends in a live disconnect, is recorded as 499. */
  lemma CancelledStatus(trace: seq<Event>, end: End)
    ensures end == RaisedCancelled ==> RecordedStatus(trace, end) == 499
    ensures end == RaisedDisconnect && !Occurs(trace, IsFinal) ==> RecordedStatus(trace, end) == 499
    ensures end == Returned || end == RaisedOther ==> RecordedStatus(trace, end) == StatusAfter(trace, end, |trace|)
  {
    assert trace[..|trace|] == trace;
  }

  /** One more event at the end of a trace. */
  lemma OccursStep(trace: seq<Event>, i: nat, P: Event -> bool)
    requires i < |trace|
    ensures Occurs(trace[..i + 1], P) <==> Occurs(trace[..i], P) || P(trace[i])
  {
    if Occurs(trace[..i], P) {
      var k :| 0 <= k < i && P(trace[..i][k]);
      assert trace[..i + 1][k] == trace[..i][k];
    }
    if P(trace[i]) {
      assert trace[..i + 1][i] == trace[i];
    }
    if Occurs(trace[..i + 1], P) && !P(trace[i]) {
      var k :| 0 <= k < i + 1 && P(trace[..i + 1][k]);
      assert trace[..i][k] == trace[..i + 1][k];
    }
  }

  /** Once the final body is delivered nothing that follows counts: neither a late disconnect nor the
      way the application leaves. */
  lemma FinalBodySettles(trace: seq<Event>, end: End, n: nat)
    requires n <= |trace| && Occurs(trace[..n], IsFinal)
    ensures StreamCancelled(trace, end) <==> StreamCancelled(trace[..n], Returned)
  {
    var start := trace[..n];
    assert forall i :: 0 <= i <= n ==> start[..i] == trace[..i];
    forall i | n <= i <= |trace| ensures !LiveSignal(trace, end, i) {
      var k :| 0 <= k < n && IsFinal(start[k]);
      assert trace[..i][k] == start[k];
    }
    assert forall i :: 0 <= i < n ==> (LiveSignal(start, Returned, i) <==> LiveSignal(trace, end, i));
    if StreamCancelled(trace, end) {
      var i :| 0 <= i <= |trace| && LiveSignal(trace, end, i) && Occurs(trace[..i], IsStarted);
      assert LiveSignal(start, Returned, i) && Occurs(start[..i], IsStarted);
    }
    if StreamCancelled(start, Returned) {
      var i :| 0 <= i <= n && LiveSignal(start, Returned, i) && Occurs(start[..i], IsStarted);
      assert LiveSignal(trace, end, i) && Occurs(trace[..i], IsStarted);
    }
  }

  // --------------------------------------------------------------- the objects

  class GatewayMetrics {
    var streamCancellations: map<string, nat>

    constructor ()
      ensures streamCancellations == map[]
    {
      streamCancellations := map[];
    }

    static function Count(counter: map<string, nat>, endpoint: string): nat {
      if endpoint in counter then counter[endpoint] else 0
    }

    static function Bump(counter: map<string, nat>, endpoint: string): map<string, nat> {
      counter[endpoint := Count(counter, endpoint) + 1]
    }

    method RecordStreamCancellation(endpoint: string)
      modifies `streamCancellations
      ensures streamCancellations == Bump(old(streamCancellations), endpoint)
    {
      streamCancellations := streamCancellations[endpoint := Count(streamCancellations, endpoint) + 1];
    }
  }

  // ------------------------------------------- the variables of one call, as a value

  datatype Variables = Variables(
    statusCode: int, bytesStreamed: nat, responseStarted: bool, responseComplete: bool,
    cancelled: bool, downstreamDisconnected: bool)

  function Disconnected(v: Variables): Variables {
    if v.responseComplete then v
    else v.(cancelled := true, downstreamDisconnected := v.responseStarted, statusCode := CLIENT_CLOSED_REQUEST)
  }

  function Delivering(v: Variables, m: Message): Variables {
    match m
    case Start(_) => v.(responseStarted := true)
    case Body(size, more) =>
      v.(bytesStreamed := v.bytesStreamed + size, responseComplete := v.responseComplete || !more)
    case Other => v
  }

  function Observed(v: Variables, e: Event): Variables {
    match e
    case Received(disconnect) => if disconnect then Disconnected(v) else v
    case Sent(m, delivery) =>
      var w := if m.Start? then v.(statusCode := m.status) else v;
      match delivery
      case ClientGone => Disconnected(w)
      case Failed => w
      case Delivered => Delivering(w, m)
  }

  /** The variables after the first events of the call. */
  ghost predicate After(v: Variables, trace: seq<Event>, end: End, i: nat)
    requires i <= |trace|
  {
    && v.responseStarted == Occurs(trace[..i], IsStarted)
    && v.responseComplete == Occurs(trace[..i], IsFinal)
    && v.bytesStreamed == DeliveredBytes(trace[..i])
    && v.statusCode == StatusAfter(trace, end, i)
    && (v.cancelled <==> exists k :: 0 <= k < i && LiveSignal(trace, end, k))
    && (v.downstreamDisconnected <==>
          exists k :: 0 <= k < i && LiveSignal(trace, end, k) && Occurs(trace[..k], IsStarted))
  }

  lemma ObservedAfter(v: Variables, trace: seq<Event>, end: End, i: nat)
    requires i < |trace| && After(v, trace, end, i)
    ensures After(Observed(v, trace[i]), trace, end, i + 1)
  {
    ObservedCounts(v, trace, end, i);
    ObservedSignals(v, trace, end, i);
  }

  lemma ObservedCounts(v: Variables, trace: seq<Event>, end: End, i: nat)
    requires i < |trace| && After(v, trace, end, i)
    ensures var w := Observed(v, trace[i]);
      && w.responseStarted == Occurs(trace[..i + 1], IsStarted)
      && w.responseComplete == Occurs(trace[..i + 1], IsFinal)
      && w.bytesStreamed == DeliveredBytes(trace[..i + 1])
      && w.statusCode == StatusAfter(trace, end, i + 1)
  {
    Advance(trace, end, i);
  }

  /** The two flags of a disconnect. */
  lemma ObservedSignals(v: Variables, trace: seq<Event>, end: End, i: nat)
    requires i < |trace| && After(v, trace, end, i)
    ensures var w := Observed(v, trace[i]);
      && (w.cancelled <==> exists k :: 0 <= k < i + 1 && LiveSignal(trace, end, k))
      && (w.downstreamDisconnected <==>
            exists k :: 0 <= k < i + 1 && LiveSignal(trace, end, k) && Occurs(trace[..k], IsStarted))
  {
    Advance(trace, end, i);
  }

  /** The variables that the wrappers of one call share. */
  class ObservedCall {
    var statusCode: int
    var bytesStreamed: nat
    var responseStarted: bool
    var responseComplete: bool
    var cancelled: bool
    var downstreamDisconnected: bool

    function Value(): Variables
      reads this
    {
      Variables(statusCode, bytesStreamed, responseStarted, responseComplete, cancelled, downstreamDisconnected)
    }

    constructor ()
      ensures Value() == Variables(NO_STATUS, 0, false, false, false, false)
    {
      statusCode, bytesStreamed := NO_STATUS, 0;
      responseStarted, responseComplete, cancelled, downstreamDisconnected := false, false, false, false;
    }

    method MarkDownstreamDisconnect()
      modifies `cancelled, `downstreamDisconnected, `statusCode
      ensures Value() == Disconnected(old(Value()))
    {
      if responseComplete {
        return;
      }
      cancelled := true;
      downstreamDisconnected := responseStarted;
      statusCode := CLIENT_CLOSED_REQUEST;
    }

    method ObserveReceive(disconnect: bool, ghost trace: seq<Event>, ghost end: End, ghost i: nat)
      requires i < |trace| && trace[i] == Received(disconnect) && After(Value(), trace, end, i)
      modifies this
      ensures After(Value(), trace, end, i + 1)
    {
      ObservedAfter(Value(), trace, end, i);
      if disconnect {
        MarkDownstreamDisconnect();
      }
    }

    method ObserveSend(message: Message, delivery: Delivery, ghost trace: seq<Event>, ghost end: End, ghost i: nat)
      requires i < |trace| && trace[i] == Sent(message, delivery) && After(Value(), trace, end, i)
      modifies this
      ensures After(Value(), trace, end, i + 1)
    {
      ObservedAfter(Value(), trace, end, i);
      Send(message, delivery);
    }

    method Send(message: Message, delivery: Delivery)
      modifies this
      ensures Value() == Observed(old(Value()), Sent(message, delivery))
    {
      var bodySize := 0;
      if message.Start? {
        statusCode := message.status;
      } else if message.Body? {
        bodySize := message.size;
      }
      match delivery {
        case ClientGone => MarkDownstreamDisconnect();
        case Failed =>
        case Delivered =>
          if message.Start? {
            responseStarted := true;
          } else if message.Body? {
            bytesStreamed := bytesStreamed + bodySize;
            if !message.more {
              responseComplete := true;
            }
          }
      }
    }

    /** The except clauses of the call. */
    method Leave(ghost trace: seq<Event>, end: End)
      requires After(Value(), trace, end, |trace|)
      modifies `cancelled, `downstreamDisconnected, `statusCode
      ensures bytesStreamed == DeliveredBytes(trace)
      ensures downstreamDisconnected <==> StreamCancelled(trace, end)
      ensures cancelled <==> RequestCancelled(trace, end)
      ensures statusCode == RecordedStatus(trace, end)
    {
      AtEnd(trace, end);
      assert trace[..|trace|] == trace;
      if end == RaisedDisconnect {
        MarkDownstreamDisconnect();
      } else if end == RaisedCancelled {
        cancelled := true;
        statusCode := CLIENT_CLOSED_REQUEST;
      }
    }
  }

  /** Splitting off what happens when the application leaves. */
  lemma AtEnd(trace: seq<Event>, end: End)
    ensures LiveSignal(trace, end, |trace|) <==> end == RaisedDisconnect && !Occurs(trace, IsFinal)
    ensures StreamCancelled(trace, end) <==>
      (exists k :: 0 <= k < |trace| && LiveSignal(trace, end, k) && Occurs(trace[..k], IsStarted))
      || (LiveSignal(trace, end, |trace|) && Occurs(trace, IsStarted))
    ensures RequestCancelled(trace, end) <==>
      || end == RaisedCancelled || LiveSignal(trace, end, |trace|)
      || exists k :: 0 <= k < |trace| && LiveSignal(trace, end, k)
  {
    assert trace[..|trace|] == trace;
  }

  /** Everything about a trace that one event changes. */
  lemma Advance(trace: seq<Event>, end: End, i: nat)
    requires i < |trace|
    ensures Occurs(trace[..i + 1], IsStarted) <==> Occurs(trace[..i], IsStarted) || IsStarted(trace[i])
    ensures Occurs(trace[..i + 1], IsFinal) <==> Occurs(trace[..i], IsFinal) || IsFinal(trace[i])
    ensures LiveSignal(trace, end, i) <==> IsSignal(trace[i]) && !Occurs(trace[..i], IsFinal)
    ensures trace[..i + 1][..i] == trace[..i] && trace[..i + 1][i] == trace[i]
  {
    OccursStep(trace, i, IsStarted);
    OccursStep(trace, i, IsFinal);
  }

  class GatewayObservabilityMiddleware {
    const metrics: GatewayMetrics

    constructor (metrics: GatewayMetrics)
      ensures this.metrics == metrics
    {
      this.metrics := metrics;
    }

    /** One call: exactly one stream cancellation is counted for a known endpoint whose client left in
        mid-response, and none otherwise; the record holds the bytes of the delivered bodies. */
    method Call(endpoint: Option<string>, trace: seq<Event>, end: End)
      returns (status: int, bytes: nat, cancelled: bool)
      modifies metrics
      ensures metrics.streamCancellations ==
        if StreamCancelled(trace, end) && endpoint.Some? && endpoint.value != ""
        then GatewayMetrics.Bump(old(metrics.streamCancellations), endpoint.value) else old(metrics.streamCancellations)
      ensures bytes == DeliveredBytes(trace)
      ensures cancelled <==> RequestCancelled(trace, end)
      ensures status == RecordedStatus(trace, end)
    {
      var call := new ObservedCall();
      for i := 0 to |trace|
        invariant fresh(call) && After(call.Value(), trace, end, i)
        invariant metrics.streamCancellations == old(metrics.streamCancellations)
      {
        match trace[i] {
          case Received(disconnect) => call.ObserveReceive(disconnect, trace, end, i);
          case Sent(message, delivery) => call.ObserveSend(message, delivery, trace, end, i);
        }
      }
      call.Leave(trace, end);
      if call.downstreamDisconnected && endpoint.Some? && endpoint.value != "" {
        metrics.RecordStreamCancellation(endpoint.value);
      }
      return call.statusCode, call.bytesStreamed, call.cancelled;
    }
  }
}
