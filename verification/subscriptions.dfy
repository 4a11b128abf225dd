/** The SSE subscription layer: the process-wide map from event type to the
    open stream (`_eventSourceMap`), `subscribe`, `closeEventSource`,
    `unsubscribe`, and the callbacks a stream invokes.

    Streams are abstract: a session records the event type it was opened for,
    its URL and its ready state, and every open or close request made of the
    transport is appended to a log, so the order of transport operations can
    be stated. */
module Subscriptions {
  import opened Wrappers
  import opened EventTypes

  /** The ready state of a stream (`EventSource.CONNECTING`, `OPEN`, `CLOSED`). */
  datatype ReadyState = Connecting | Open | Closed

  /** One stream, opened for `eventType` on `url`. */
  datatype Session = Session(eventType: string, url: string, state: ReadyState)

  /** A request made of the transport: connect to a URL, or close a stream. */
  datatype TransportOp = OpenStream(url: string) | CloseStream(session: nat)

  /** The client state. Session ids are indices into `sessions`; `registry`
      is the event-source map, keyed by the event-type value the caller
      passed. */
  datatype Client = Client(
    sseSupported: bool,
    baseUri: string,
    registry: map<string, nat>,
    sessions: seq<Session>,
    transport: seq<TransportOp>)

  /** The base URI a client starts with. */
  const DefaultBaseUri: string := "http://localhost:8081/rest/"

  /** How `subscribe` ended. The source returns nothing in every case; the
      first two correspond to its alert and its console error, the third to
      the exception `encodeParam` raises for an undefined channel id. */
  datatype SubscribeOutcome =
    | NotSupported
    | UnknownEventType
    | ChannelIdUndefined
    | Subscribed(session: nat)

  /** Session `id` has not been closed. */
  predicate Live(c: Client, id: nat)
  {
    id < |c.sessions| && c.sessions[id].state != Closed
  }

  /** The invariant of every reachable client: the map holds only the five
      event-type names, each mapped to a session opened for that name, and
      every session that is not closed is the one the map holds for its type. */
  predicate Valid(c: Client)
  {
    && (forall t :: t in c.registry ==>
          IsKnownName(t) && c.registry[t] < |c.sessions| && c.sessions[c.registry[t]].eventType == t)
    && (forall id :: 0 <= id < |c.sessions| && c.sessions[id].state != Closed ==>
          c.sessions[id].eventType in c.registry && c.registry[c.sessions[id].eventType] == id)
  }

  /** The client at startup: an empty map, no streams. */
  function Init(sseSupported: bool): (c: Client)
    ensures Valid(c)
    ensures c.registry == map[] && c.sessions == [] && c.baseUri == DefaultBaseUri
  {
    Client(sseSupported, DefaultBaseUri, map[], [], [])
  }

  /** `setBaseURI`: later subscriptions connect below `uri`; open streams are
      untouched. */
  function SetBaseUri(c: Client, uri: string): (c': Client)
    ensures Valid(c) ==> Valid(c')
    ensures c'.baseUri == uri && c'.sseSupported == c.sseSupported
    ensures c'.registry == c.registry && c'.sessions == c.sessions && c'.transport == c.transport
  {
    c.(baseUri := uri)
  }

  /** Closes a stream (`eventSource.close()`), leaving the map alone. */
  function CloseSession(c: Client, id: nat): (c': Client)
    requires id < |c.sessions|
  {
    c.(sessions := c.sessions[id := c.sessions[id].(state := Closed)],
       transport := c.transport + [CloseStream(id)])
  }

  /** `subscribe(successCallback, errorCallback, eventType, channelId)`.
      `channelId` is None when the caller leaves it undefined. */
  function Subscribe(c: Client, eventType: string, channelId: Option<string>): (r: (Client, SubscribeOutcome))
    requires Valid(c)
    ensures r.1.Subscribed? <==>
              && c.sseSupported
              && IsKnownName(eventType)
              && (eventType == Name(DataChannelTransmission) ==> channelId.Some?)
    ensures !c.sseSupported ==> r == (c, NotSupported)
  {
    if !c.sseSupported then (c, NotSupported)
    else
      var c1 := if eventType in c.registry then CloseSession(c, c.registry[eventType]) else c;
      match ParseEventType(eventType)
      case None => (c1, UnknownEventType)
      case Some(e) =>
        if e == DataChannelTransmission && channelId.None? then (c1, ChannelIdUndefined)
        else
          var url := c1.baseUri + Resource(e, channelId.GetOr(""));
          (OpenSession(c1, eventType, url), Subscribed(|c1.sessions|))
  }

  /** Opens a stream on `url` (`new EventSource(url)`) and records it in the
      map under `eventType`. */
  function OpenSession(c: Client, eventType: string, url: string): Client
  {
    c.(registry := c.registry[eventType := |c.sessions|],
       sessions := c.sessions + [Session(eventType, url, Connecting)],
       transport := c.transport + [OpenStream(url)])
  }

  /** `closeEventSource(eventType)`: removes the entry and closes its stream,
      reporting whether there was one. */
  function CloseEventSource(c: Client, eventType: string): (r: (Client, bool))
    requires Valid(c)
    ensures Valid(r.0)
    ensures r.1 <==> eventType in c.registry
    ensures !r.1 ==> r.0 == c
    ensures r.1 ==>
              && r.0.registry == c.registry - {eventType}
              && r.0.sessions == c.sessions[c.registry[eventType] := c.sessions[c.registry[eventType]].(state := Closed)]
              && r.0.transport == c.transport + [CloseStream(c.registry[eventType])]
              && r.0.baseUri == c.baseUri && r.0.sseSupported == c.sseSupported
  {
    if eventType in c.registry then
      (CloseSession(c.(registry := c.registry - {eventType}), c.registry[eventType]), true)
    else (c, false)
  }

  /** `unsubscribe(eventType)`: `closeEventSource` with its result dropped. */
  function Unsubscribe(c: Client, eventType: string): (c': Client)
    requires Valid(c)
    ensures Valid(c')
    ensures c'.registry == c.registry - {eventType}
    ensures eventType !in c.registry ==> c' == c
    ensures eventType in c.registry ==>
              && c'.sessions == c.sessions[c.registry[eventType] := c.sessions[c.registry[eventType]].(state := Closed)]
              && c'.transport == c.transport + [CloseStream(c.registry[eventType])]
              && c'.baseUri == c.baseUri && c'.sseSupported == c.sseSupported
  {
    CloseEventSource(c, eventType).0
  }

  /** Closing a stream keeps the invariant: it only shrinks the set of live
      streams. */
  lemma CloseSessionValid(c: Client, id: nat)
    requires Valid(c) && id < |c.sessions|
    ensures Valid(CloseSession(c, id))
  {
  }

  /** `subscribe` keeps the invariant. */
  lemma SubscribeValid(c: Client, eventType: string, channelId: Option<string>)
    requires Valid(c)
    ensures Valid(Subscribe(c, eventType, channelId).0)
  {
    if c.sseSupported {
      var c1 := if eventType in c.registry then CloseSession(c, c.registry[eventType]) else c;
      if eventType in c.registry {
        CloseSessionValid(c, c.registry[eventType]);
      }
      assert Valid(c1);
      assert eventType in c1.registry ==> !Live(c1, c1.registry[eventType]);
      match ParseEventType(eventType)
      case None =>
      case Some(e) =>
        if !(e == DataChannelTransmission && channelId.None?) {
          OpenSessionValid(c1, eventType, c1.baseUri + Resource(e, channelId.GetOr("")));
        }
    }
  }

  /** Opening a stream for a known type whose previous stream, if any, is
      closed keeps the invariant. */
  lemma OpenSessionValid(c: Client, eventType: string, url: string)
    requires Valid(c) && IsKnownName(eventType)
    requires eventType in c.registry ==> !Live(c, c.registry[eventType])
    ensures Valid(OpenSession(c, eventType, url))
  {
    var c' := OpenSession(c, eventType, url);
    var id := |c.sessions|;
    assert c'.sessions[..id] == c.sessions;
    forall j | 0 <= j < |c'.sessions| && c'.sessions[j].state != Closed
      ensures c'.sessions[j].eventType in c'.registry && c'.registry[c'.sessions[j].eventType] == j
    {
      if j < id {
        assert c'.sessions[j] == c.sessions[j];
      }
    }
  }

  /** The single-stream-per-type guarantee: in a valid client, two streams
      that are not closed and were opened for the same event type are the same
      stream, and it is the one the map holds. */
  lemma AtMostOneLiveSessionPerType(c: Client, i: nat, j: nat)
    requires Valid(c) && Live(c, i) && Live(c, j)
    requires c.sessions[i].eventType == c.sessions[j].eventType
    ensures i == j
    ensures c.registry[c.sessions[i].eventType] == i
  {
  }

  /** A successful `subscribe` for a known type: the stream previously held
      for that type is closed, and the close is requested of the transport
      before the new stream is opened; the map sends the type to a fresh
      stream connecting to the base URI followed by the type's resource; every
      other entry and every other stream is unchanged. */
  lemma SubscribeReplaces(c: Client, e: EventType, channelId: Option<string>)
    requires Valid(c) && c.sseSupported
    requires e == DataChannelTransmission ==> channelId.Some?
    ensures var (c', outcome) := Subscribe(c, Name(e), channelId);
            var id := |c.sessions|;
            var url := c.baseUri + Resource(e, channelId.GetOr(""));
            && outcome == Subscribed(id)
            && c'.registry == c.registry[Name(e) := id]
            && c'.sessions[..id] == (if Name(e) in c.registry
                                     then c.sessions[c.registry[Name(e)] := c.sessions[c.registry[Name(e)]].(state := Closed)]
                                     else c.sessions)
            && c'.sessions[id] == Session(Name(e), url, Connecting)
            && |c'.sessions| == id + 1
            && c'.transport == c.transport
                 + (if Name(e) in c.registry then [CloseStream(c.registry[Name(e)])] else [])
                 + [OpenStream(url)]
            && c'.baseUri == c.baseUri && c'.sseSupported == c.sseSupported
  {
    ParseName(e);
    var t := Name(e);
    var (c', outcome) := Subscribe(c, t, channelId);
    var id := |c.sessions|;
    assert c'.sessions[..id] == (if t in c.registry
                                 then c.sessions[c.registry[t] := c.sessions[c.registry[t]].(state := Closed)]
                                 else c.sessions);
  }

  /** After `subscribe` succeeds for a type, the new stream is the only one
      for that type that is not closed. */
  lemma SubscribeLeavesOneLiveSession(c: Client, e: EventType, channelId: Option<string>, j: nat)
    requires Valid(c) && c.sseSupported
    requires e == DataChannelTransmission ==> channelId.Some?
    requires Live(Subscribe(c, Name(e), channelId).0, j)
    requires Subscribe(c, Name(e), channelId).0.sessions[j].eventType == Name(e)
    ensures j == |c.sessions|
  {
    SubscribeReplaces(c, e, channelId);
    SubscribeValid(c, Name(e), channelId);
    var c' := Subscribe(c, Name(e), channelId).0;
    AtMostOneLiveSessionPerType(c', j, |c.sessions|);
  }

  /** Subscribing twice to the same type: the first stream ends closed, the
      second is live and is the one the map holds. */
  lemma SubscribeTwice(c: Client, e: EventType, first: Option<string>, second: Option<string>)
    requires Valid(c) && c.sseSupported
    requires e == DataChannelTransmission ==> first.Some? && second.Some?
    ensures var c1 := Subscribe(c, Name(e), first).0;
            && Valid(c1)
            && var c2 := Subscribe(c1, Name(e), second).0;
            && |c2.sessions| == |c.sessions| + 2
            && c2.sessions[|c.sessions|].state == Closed
            && Live(c2, |c.sessions| + 1)
            && Name(e) in c2.registry
            && c2.registry[Name(e)] == |c.sessions| + 1
  {
    SubscribeReplaces(c, e, first);
    SubscribeValid(c, Name(e), first);
    var c1 := Subscribe(c, Name(e), first).0;
    SubscribeReplaces(c1, e, second);
  }

  /** An unknown event type touches neither the map, the streams nor the
      transport. */
  lemma SubscribeUnknownType(c: Client, eventType: string, channelId: Option<string>)
    requires Valid(c) && !IsKnownName(eventType)
    ensures Subscribe(c, eventType, channelId).0 == c
    ensures c.sseSupported ==> Subscribe(c, eventType, channelId).1 == UnknownEventType
  {
  }

  /** A data channel subscription without a channel id throws from the
      encoder after the stream held for that type has already been closed;
      that stream's entry stays in the map and nothing new is opened. */
  lemma SubscribeUndefinedChannel(c: Client)
    requires Valid(c) && c.sseSupported
    ensures var t := Name(DataChannelTransmission);
            var (c', outcome) := Subscribe(c, t, None);
            && outcome == ChannelIdUndefined
            && c'.registry == c.registry
            && |c'.sessions| == |c.sessions|
            && c'.baseUri == c.baseUri && c'.sseSupported == c.sseSupported
            && (t in c.registry ==>
                  && c'.sessions == c.sessions[c.registry[t] := c.sessions[c.registry[t]].(state := Closed)]
                  && c'.sessions[c.registry[t]].state == Closed
                  && c'.transport == c.transport + [CloseStream(c.registry[t])])
            && (t !in c.registry ==> c' == c)
  {
  }

  /** A second `closeEventSource` right after the first reports false and
      changes nothing. */
  lemma CloseEventSourceTwice(c: Client, eventType: string)
    requires Valid(c)
    ensures var c1 := CloseEventSource(c, eventType).0;
            CloseEventSource(c1, eventType) == (c1, false)
  {
  }

  /** After `closeEventSource`, no stream for that type is live. */
  lemma NoLiveSessionAfterClose(c: Client, eventType: string, j: nat)
    requires Valid(c)
    requires Live(CloseEventSource(c, eventType).0, j)
    ensures CloseEventSource(c, eventType).0.sessions[j].eventType != eventType
  {
  }

  /** `unsubscribe` of a type with no stream performs no transport operation. */
  lemma UnsubscribeWithoutSubscription(c: Client, eventType: string)
    requires Valid(c) && eventType !in c.registry
    ensures Unsubscribe(c, eventType) == c
  {
  }

  /** What the transport reports on a stream: the handshake completed, a
      named server event arrived, or an error, carrying the stream's ready
      state when the error event has a target (None when it has none). */
  datatype StreamEvent =
    | Handshake
    | Message(name: string, data: string)
    | Fault(target: Option<ReadyState>)

  /** The reasons the error handler reports. */
  datatype ErrorReason = Reconnecting | ConnectionLost | SomeErrorOccurred

  /** A callback invocation: `successCallback(data, status)` or
      `errorCallback(status, reason)`. */
  datatype Callback =
    | Success(data: string, status: int)
    | Error(status: int, reason: ErrorReason)

  /** The reason strings passed to the error callback. */
  function ReasonText(reason: ErrorReason): string
  {
    match reason
    case Reconnecting => "reconnecting"
    case ConnectionLost => "connectionLost"
    case SomeErrorOccurred => "someErrorOccurred"
  }

  /** The error handler's `switch` on the target's ready state: connecting
      means the transport is retrying, closed means the stream is lost, and
      anything else, including an open stream or a missing target, is an
      unclassified error. */
  function ClassifyError(target: Option<ReadyState>): (reason: ErrorReason)
    ensures reason == Reconnecting <==> target == Some(Connecting)
    ensures reason == ConnectionLost <==> target == Some(Closed)
    ensures reason == SomeErrorOccurred <==> target.None? || target == Some(Open)
  {
    match target
    case Some(Connecting) => Reconnecting
    case Some(Closed) => ConnectionLost
    case _ => SomeErrorOccurred
  }

  /** The caller can tell the three reasons apart by their text. */
  lemma ReasonTextDistinct(a: ErrorReason, b: ErrorReason)
    requires ReasonText(a) == ReasonText(b)
    ensures a == b
  {
  }

  /** One transport event on session `id`, handled atomically. A closed
      stream dispatches nothing. Otherwise a handshake makes it open with no
      callback, an `"event"` message is forwarded with status 200 (other
      event names have no listener), and an error moves the stream to the
      reported state and invokes the error callback once with status 400. */
  function Deliver(c: Client, id: nat, ev: StreamEvent): (r: (Client, seq<Callback>))
    requires Valid(c) && id < |c.sessions|
    ensures Valid(r.0)
    ensures r.0.registry == c.registry && r.0.transport == c.transport
    ensures |r.0.sessions| == |c.sessions|
    ensures forall j :: 0 <= j < |c.sessions| && j != id ==> r.0.sessions[j] == c.sessions[j]
    ensures !Live(c, id) ==> r == (c, [])
    ensures Live(c, id) && ev.Fault? ==> r.1 == [Error(400, ClassifyError(ev.target))]
    ensures Live(c, id) && ev.Message? ==> r.1 == (if ev.name == "event" then [Success(ev.data, 200)] else [])
    ensures ev.Handshake? ==> r.1 == []
    ensures Live(c, id) && ev.Handshake? ==> r.0.sessions[id] == c.sessions[id].(state := Open)
    ensures Live(c, id) && ev.Message? ==> r.0 == c
    ensures r.0.baseUri == c.baseUri && r.0.sseSupported == c.sseSupported
    ensures Live(c, id) && ev.Fault? && ev.target.Some? ==> r.0.sessions[id] == c.sessions[id].(state := ev.target.value)
    ensures Live(c, id) && ev.Fault? && ev.target.None? ==> r.0 == c
  {
    var session := c.sessions[id];
    if session.state == Closed then (c, [])
    else match ev
      case Handshake =>
        (c.(sessions := c.sessions[id := session.(state := Open)]), [])
      case Message(name, data) =>
        (c, if name == "event" then [Success(data, 200)] else [])
      case Fault(target) =>
        (c.(sessions := c.sessions[id := session.(state := target.GetOr(session.state))]),
         [Error(400, ClassifyError(target))])
  }

  /** A lost connection is reported, but the entry stays in the map until the
      caller closes it. */
  lemma ConnectionLostKeepsEntry(c: Client, t: string)
    requires Valid(c) && t in c.registry && Live(c, c.registry[t])
    ensures var (c', callbacks) := Deliver(c, c.registry[t], Fault(Some(Closed)));
            && callbacks == [Error(400, ConnectionLost)]
            && t in c'.registry && c'.registry[t] == c.registry[t]
            && !Live(c', c.registry[t])
  {
  }
}
