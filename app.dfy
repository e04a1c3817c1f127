/** The client's entry points: opening a session (argument checks, port
    default, plain or secure connection), the registry of subscribed event
    types, and per-listener event forwarding. */
module HassWsClient {
  import opened Wire
  import opened Transport
  import opened Websocket
  import opened Reader
  import opened InternalServices

  datatype InitializeAppRequest = InitializeAppRequest(ipAddress: string, port: string, haAuthToken: string, secure: bool)

  datatype EventListener = EventListener(eventType: string)

  /** What a listener hands on: the event type and the whole raw frame. */
  datatype EventData = EventData(eventType: string, rawEventJson: Frame)

  const DefaultPort: string := "8123"

  /** The address and the token are required. */
  predicate ArgsValid(request: InitializeAppRequest) {
    request.ipAddress != "" && request.haAuthToken != ""
  }

  /** The port to dial: the one given, or 8123 when none is given. */
  function ResolvePort(port: string): (p: string)
    ensures p != ""
    ensures port != "" ==> p == port
    ensures port == "" ==> p == DefaultPort
  {
    if port == "" then DefaultPort else port
  }

  /** The URI a request dials: wss when it asks for a secure connection, ws otherwise. */
  function AppUri(request: InitializeAppRequest): string {
    Uri(if request.secure then "wss" else "ws", request.ipAddress, ResolvePort(request.port))
  }

  /** The secure flag alone decides the scheme: flipping it always changes the URI. */
  lemma SecureFlagSelectsScheme(request: InitializeAppRequest)
    ensures AppUri(request) != AppUri(request.(secure := !request.secure))
  {
    SchemesGiveDistinctUris(request.ipAddress, ResolvePort(request.port), request.ipAddress, ResolvePort(request.port));
  }

  /** The connection opening a session may touch: none when the arguments are invalid. */
  function Endpoints(request: InitializeAppRequest, net: Network): set<Conn> {
    if ArgsValid(request) then Endpoint(net, AppUri(request)) else {}
  }

  /** All listed entries differ. */
  ghost predicate Distinct(s: seq<string>) {
    forall i, j :: 0 <= i < j < |s| ==> s[i] != s[j]
  }

  /** A session over one authenticated connection. The context and its cancel
      function are not modelled; the Service wrapper is modelled by the Event
      service it holds. */
  class App {
    const conn: Conn
    const wsWriter: WebSocketWriter
    const service: Event
    var eventListenerTypes: seq<string>

    /** The writer and the event service wrap this session's connection, and
        each event type is subscribed at most once. */
    ghost predicate Valid()
      reads this
    {
      && wsWriter.conn == conn
      && service.conn == wsWriter
      && Distinct(eventListenerTypes)
    }

    constructor (conn: Conn, wsWriter: WebSocketWriter, service: Event)
      requires wsWriter.conn == conn && service.conn == wsWriter
      ensures Valid()
      ensures this.conn == conn && this.wsWriter == wsWriter && this.service == service
      ensures eventListenerTypes == []
    {
      this.conn := conn;
      this.wsWriter := wsWriter;
      this.service := service;
      eventListenerTypes := [];
    }

    /** Subscribes to the listener's event type unless it is already
        registered. A new type is subscribed with one write and appended at the
        end; a known one causes no write and no change. A failed subscription
        write panics: `panicked` holds the panic value and nothing is appended. */
    method RegisterEventListener(listener: EventListener, alloc: IdAllocator) returns (panicked: Option<Error>)
      requires Valid()
      modifies this`eventListenerTypes, conn`outbound, alloc
      ensures Valid()
      ensures listener.eventType in old(eventListenerTypes) ==>
        && panicked == None
        && eventListenerTypes == old(eventListenerTypes)
        && conn.outbound == old(conn.outbound)
        && alloc.last == old(alloc.last)
      ensures listener.eventType !in old(eventListenerTypes) ==>
        && alloc.last == Successor(old(alloc.last))
        && conn.outbound == old(conn.outbound) +
             (if conn.writeErr.None? then [SubscribeMsg(SubEvent(alloc.last, "subscribe_events", listener.eventType))] else [])
        && eventListenerTypes == (if conn.writeErr.None? then old(eventListenerTypes) + [listener.eventType]
                                  else old(eventListenerTypes))
        && panicked == (if conn.writeErr.None? then None
                        else Some(Wrapped("error writing to websocket", conn.writeErr.value)))
    {
      panicked := None;
      if listener.eventType !in eventListenerTypes {
        panicked := SubscribeToEventType(listener.eventType, wsWriter, alloc, []);
        if panicked.Some? {
          return;
        }
        eventListenerTypes := eventListenerTypes + [listener.eventType];
      }
    }

    /** Starts a reader on the connection and forwards, in order, the frames
        whose event type is the listener's. As written it returns at the first
        frame of any other event type; it also stops when the reader closes
        its channel. */
    method ListenForEvents(listener: EventListener, eventChan: Channel<EventData>)
      requires !eventChan.closed
      modifies conn`inbound, eventChan
      ensures eventChan.sent == old(eventChan.sent) + ForwardedEvents(Publish(old(conn.inbound)), listener.eventType)
      ensures !eventChan.closed && conn.inbound == []
    {
      var elChan := new Channel<ChanMsg>();
      ListenWebsocket(conn, elChan);
      assert elChan.sent == Publish(old(conn.inbound));
      ReceiveEvents(elChan.sent, listener.eventType, eventChan);
    }

    /** ListenForEvents with the mismatch skipped (`continue`) instead of
        ending the listener: every frame of the listener's event type is
        forwarded, in order, until the reader closes its channel. */
    method ListenForEventStream(listener: EventListener, eventChan: Channel<EventData>)
      requires !eventChan.closed
      modifies conn`inbound, eventChan
      ensures eventChan.sent == old(eventChan.sent) + MatchingEvents(Publish(old(conn.inbound)), listener.eventType)
      ensures !eventChan.closed && conn.inbound == []
    {
      var elChan := new Channel<ChanMsg>();
      ListenWebsocket(conn, elChan);
      assert elChan.sent == Publish(old(conn.inbound));
      ReceiveEventStream(elChan.sent, listener.eventType, eventChan);
    }
  }

  /** ListenForEvents' receive loop over what its reader published (`msgs`,
      after which the reader's channel is closed). */
  method ReceiveEvents(msgs: seq<ChanMsg>, eventType: string, eventChan: Channel<EventData>)
    requires !eventChan.closed
    modifies eventChan
    ensures eventChan.sent == old(eventChan.sent) + ForwardedEvents(msgs, eventType)
    ensures !eventChan.closed
  {
    var i := 0;
    while i < |msgs|
      invariant 0 <= i <= |msgs|
      invariant !eventChan.closed
      invariant old(eventChan.sent) + ForwardedEvents(msgs, eventType)
                == eventChan.sent + ForwardedEvents(msgs[i..], eventType)
    {
      var msg := msgs[i];
      assert msgs[i..][1..] == msgs[i + 1..];
      i := i + 1;
      var msgEventType := EventTypeOf(msg.raw);
      if msgEventType != eventType {
        return;
      }
      var eventData := EventData(msgEventType, msg.raw);
      eventChan.Send(eventData);
    }
  }

  /** ListenForEventStream's receive loop: skips, rather than stops at, a
      message of another event type. */
  method ReceiveEventStream(msgs: seq<ChanMsg>, eventType: string, eventChan: Channel<EventData>)
    requires !eventChan.closed
    modifies eventChan
    ensures eventChan.sent == old(eventChan.sent) + MatchingEvents(msgs, eventType)
    ensures !eventChan.closed
  {
    var i := 0;
    while i < |msgs|
      invariant 0 <= i <= |msgs|
      invariant !eventChan.closed
      invariant old(eventChan.sent) + MatchingEvents(msgs, eventType)
                == eventChan.sent + MatchingEvents(msgs[i..], eventType)
    {
      var msg := msgs[i];
      var msgEventType := EventTypeOf(msg.raw);
      if msgEventType == eventType {
        var eventData := EventData(msgEventType, msg.raw);
        MatchingEventsTake(msgs, eventType, i);
        eventChan.Send(eventData);
      } else {
        MatchingEventsSkip(msgs, eventType, i);
      }
      i := i + 1;
    }
  }

  /** Registering the same listener twice subscribes at most once. */
  method RegisterTwice(app: App, listener: EventListener, alloc: IdAllocator) returns (panicked: Option<Error>)
    requires app.Valid()
    modifies app`eventListenerTypes, app.conn`outbound, alloc
    ensures app.Valid()
    ensures |app.conn.outbound| <= |old(app.conn.outbound)| + 1
    ensures panicked == None ==> listener.eventType in app.eventListenerTypes
  {
    panicked := app.RegisterEventListener(listener, alloc);
    if panicked.Some? {
      return;
    }
    panicked := app.RegisterEventListener(listener, alloc);
  }

  /** Opens a session: checks the arguments before anything else, defaults the
      port, dials the plain or the secure URI and runs the handshake. Only a
      successful handshake yields an App. */
  method InitializeAppInstance(request: InitializeAppRequest, net: Network) returns (app: App?, err: Option<Error>)
    modifies Endpoints(request, net)
    ensures !ArgsValid(request) ==> app == null && err == Some(InvalidArgs)
    ensures ArgsValid(request) ==>
      Handshook(net, AppUri(request), request.haAuthToken, if app == null then null else app.conn, err)
    ensures app != null ==> err == None && fresh(app) && app.Valid() && app.eventListenerTypes == []
  {
    if !ArgsValid(request) {
      return null, Some(InvalidArgs);
    }
    var port := ResolvePort(request.port);

    var conn: Conn?;
    if request.secure {
      conn, err := SetupSecureConnection(request.ipAddress, port, request.haAuthToken, net);
    } else {
      conn, err := SetupConnection(request.ipAddress, port, request.haAuthToken, net);
    }

    if conn == null {
      return null, err;
    }

    var wsWriter := new WebSocketWriter(conn);
    var service := BuildService(wsWriter);
    app := new App(conn, wsWriter, service);
    return app, None;
  }

  /** The listener's event type is what the frame's "event"."event_type" decodes to. */
  predicate Carries(msg: ChanMsg, eventType: string) {
    EventTypeOf(msg.raw) == eventType
  }

  /** What ListenForEvents forwards: the events up to the first message of
      another event type. */
  function ForwardedEvents(msgs: seq<ChanMsg>, eventType: string): seq<EventData> {
    if msgs == [] || !Carries(msgs[0], eventType) then []
    else [EventData(eventType, msgs[0].raw)] + ForwardedEvents(msgs[1..], eventType)
  }

  /** What a filtering listener forwards: every event of its type, in order. */
  function MatchingEvents(msgs: seq<ChanMsg>, eventType: string): seq<EventData> {
    if msgs == [] then []
    else (if Carries(msgs[0], eventType) then [EventData(eventType, msgs[0].raw)] else [])
         + MatchingEvents(msgs[1..], eventType)
  }

  /** ListenForEvents forwards the longest run of matching messages at the
      head of the stream, each as its own raw frame, and stops at the first
      message that does not match. */
  lemma {:induction false} ForwardedIsMatchingPrefix(msgs: seq<ChanMsg>, eventType: string)
    ensures |ForwardedEvents(msgs, eventType)| <= |msgs|
    ensures forall k :: 0 <= k < |ForwardedEvents(msgs, eventType)| ==>
      Carries(msgs[k], eventType) && ForwardedEvents(msgs, eventType)[k] == EventData(eventType, msgs[k].raw)
    ensures |ForwardedEvents(msgs, eventType)| < |msgs| ==> !Carries(msgs[|ForwardedEvents(msgs, eventType)|], eventType)
  {
    if msgs != [] && Carries(msgs[0], eventType) {
      ForwardedIsMatchingPrefix(msgs[1..], eventType);
      var rest := ForwardedEvents(msgs[1..], eventType);
      var all := ForwardedEvents(msgs, eventType);
      assert all == [EventData(eventType, msgs[0].raw)] + rest;
      forall k | 0 <= k < |all|
        ensures Carries(msgs[k], eventType) && all[k] == EventData(eventType, msgs[k].raw)
      {
        if k > 0 {
          assert all[k] == rest[k - 1];
          assert msgs[k] == msgs[1..][k - 1];
        }
      }
      if |all| < |msgs| {
        assert msgs[|all|] == msgs[1..][|rest|];
      }
    }
  }

  /** Whatever ListenForEvents forwards, the filtering listener forwards too,
      as the start of its output. */
  lemma {:induction false} ForwardedIsPrefixOfMatching(msgs: seq<ChanMsg>, eventType: string)
    ensures ForwardedEvents(msgs, eventType) <= MatchingEvents(msgs, eventType)
  {
    if msgs != [] && Carries(msgs[0], eventType) {
      ForwardedIsPrefixOfMatching(msgs[1..], eventType);
    }
  }

  /** A step of the filtering loop that forwards the message. */
  lemma MatchingEventsTake(msgs: seq<ChanMsg>, eventType: string, i: int)
    requires 0 <= i < |msgs| && Carries(msgs[i], eventType)
    ensures MatchingEvents(msgs[i..], eventType) == [EventData(eventType, msgs[i].raw)] + MatchingEvents(msgs[i + 1..], eventType)
  {
  }

  /** A step of the filtering loop that skips the message. */
  lemma MatchingEventsSkip(msgs: seq<ChanMsg>, eventType: string, i: int)
    requires 0 <= i < |msgs| && !Carries(msgs[i], eventType)
    ensures MatchingEvents(msgs[i..], eventType) == MatchingEvents(msgs[i + 1..], eventType)
  {
  }

  /** Filtering a stream in two parts gives the two outputs one after the
      other: order is kept, and every matching message is forwarded once,
      duplicates included. */
  lemma {:induction false} MatchingEventsAppend(a: seq<ChanMsg>, b: seq<ChanMsg>, eventType: string)
    ensures MatchingEvents(a + b, eventType) == MatchingEvents(a, eventType) + MatchingEvents(b, eventType)
  {
    if a == [] {
      assert a + b == b;
    } else {
      assert (a + b)[0] == a[0];
      assert (a + b)[1..] == a[1..] + b;
      MatchingEventsAppend(a[1..], b, eventType);
    }
  }

  /** The filtering listener misses no event of its type. */
  lemma {:induction false} MatchingEventsComplete(msgs: seq<ChanMsg>, eventType: string, k: int)
    requires 0 <= k < |msgs| && Carries(msgs[k], eventType)
    ensures EventData(eventType, msgs[k].raw) in MatchingEvents(msgs, eventType)
  {
    if k > 0 {
      assert msgs[k] == msgs[1..][k - 1];
      MatchingEventsComplete(msgs[1..], eventType, k - 1);
    }
  }

  /** The filtering listener forwards nothing but events of its type. */
  lemma {:induction false} MatchingEventsSound(msgs: seq<ChanMsg>, eventType: string, e: EventData)
    requires e in MatchingEvents(msgs, eventType)
    ensures exists k :: 0 <= k < |msgs| && Carries(msgs[k], eventType) && e == EventData(eventType, msgs[k].raw)
  {
    var head := if Carries(msgs[0], eventType) then [EventData(eventType, msgs[0].raw)] else [];
    if e !in head {
      MatchingEventsSound(msgs[1..], eventType, e);
      var k :| 0 <= k < |msgs[1..]| && Carries(msgs[1..][k], eventType) && e == EventData(eventType, msgs[1..][k].raw);
      assert msgs[1..][k] == msgs[k + 1];
    }
  }

  /** The hub's acknowledgement of subscription 1. */
  const AckFrame: Frame :=
    Frame(TextBytes("{\"id\":1,\"type\":\"result\",\"success\":true,\"result\":null}"),
          Some(Fields(Some("result"), Some(1), Some(true), None, None)))

  /** A state_changed event delivered on subscription 1. */
  const StateChangedFrame: Frame :=
    Frame(TextBytes("{\"id\":1,\"type\":\"event\",\"event\":{\"event_type\":\"state_changed\"}}"),
          Some(Fields(Some("event"), Some(1), None, Some("state_changed"), None)))

  /** After subscribing, the hub first acknowledges with a result frame that
      has no event. As written the listener returns on it and never forwards
      the event that follows; the filtering listener forwards it. */
  method ListenerStopsAtAck() returns (asWritten: seq<EventData>, intended: seq<EventData>)
    ensures asWritten == []
    ensures intended == [EventData("state_changed", StateChangedFrame)]
  {
    var ack := AckFrame;
    var event := StateChangedFrame;
    var listener := EventListener("state_changed");
    var m1, m2 := ToChanMsg(ack), ToChanMsg(event);
    assert [ack, event][1..] == [event];
    assert Publish([event]) == [m2];
    assert Publish([ack, event]) == [m1, m2];
    assert [m1, m2][1..] == [m2];
    assert !Carries(m1, listener.eventType) && Carries(m2, listener.eventType);
    assert MatchingEvents([m2], listener.eventType) == [EventData(listener.eventType, event)];

    var c1 := new Conn([ack, event], Transport("closed"), None);
    var w1 := new WebSocketWriter(c1);
    var s1 := BuildService(w1);
    var app1 := new App(c1, w1, s1);
    var out1 := new Channel<EventData>();
    app1.ListenForEvents(listener, out1);
    asWritten := out1.sent;

    var c2 := new Conn([ack, event], Transport("closed"), None);
    var w2 := new WebSocketWriter(c2);
    var s2 := BuildService(w2);
    var app2 := new App(c2, w2, s2);
    var out2 := new Channel<EventData>();
    app2.ListenForEventStream(listener, out2);
    intended := out2.sent;
  }
}
