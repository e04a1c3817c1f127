/** The websocket package: the writer every request goes through, single
    reads, the connection URI, and the authentication handshake that opens a
    connection. */
module Websocket {
  import opened Wire
  import opened Transport

  /** Wraps the connection for every write after the handshake. Its mutex is
      not modelled: each write is one atomic step. */
  class WebSocketWriter {
    const conn: Conn

    constructor (conn: Conn)
      ensures this.conn == conn
    {
      this.conn := conn;
    }

    /** One write of `msg`. A transport error comes back unchanged and the
        write is not retried. */
    method WriteMessage(msg: Message) returns (err: Option<Error>)
      modifies conn`outbound
      ensures err == conn.writeErr
      ensures conn.outbound == if err.None? then old(conn.outbound) + [msg] else old(conn.outbound)
    {
      err := conn.WriteJSON(msg);
      if err.Some? {
        return err;
      }
      return None;
    }
  }

  /** One read: the frame on success, the empty frame and the error on failure. */
  method ReadMessage(conn: Conn) returns (msg: Frame, err: Option<Error>)
    modifies conn`inbound
    ensures old(conn.inbound) == [] ==> msg == EmptyFrame && err == Some(conn.readErr) && conn.inbound == []
    ensures old(conn.inbound) != [] ==> msg == old(conn.inbound)[0] && err == None && conn.inbound == old(conn.inbound)[1..]
  {
    var r := conn.ReadFrame();
    if r.Failure? {
      return EmptyFrame, Some(r.error);
    }
    return r.value, None;
  }

  /** "<scheme>://<ip>:<port>/api/websocket" */
  function Uri(scheme: string, ip: string, port: string): string {
    scheme + "://" + ip + ":" + port + "/api/websocket"
  }

  /** The plain and the secure URI never name the same endpoint. */
  lemma SchemesGiveDistinctUris(ip: string, port: string, ip': string, port': string)
    ensures Uri("ws", ip, port) != Uri("wss", ip', port')
  {
    assert Uri("ws", ip, port)[2] == ':';
    assert Uri("wss", ip', port')[2] == 's';
  }

  /** For one scheme and address, different ports give different URIs. */
  lemma {:induction false} UriDeterminesPort(scheme: string, ip: string, port: string, port': string)
    requires Uri(scheme, ip, port) == Uri(scheme, ip, port')
    ensures port == port'
  {
    var head := scheme + "://" + ip + ":";
    var tail := "/api/websocket";
    var u, u' := Uri(scheme, ip, port), Uri(scheme, ip, port');
    assert u == head + port + tail;
    assert u' == head + port' + tail;
    assert |port| == |port'|;
    assert port == u[|head|..|head| + |port|];
    assert port' == u'[|head|..|head| + |port'|];
  }

  /** The hosts the dialer can reach; dialing any other URI fails. Dialing
      itself (TCP, TLS, the HTTP upgrade) is not modelled. */
  datatype Network = Network(hosts: map<string, Conn>)

  function Dial(net: Network, uri: string): Result<Conn, Error> {
    if uri in net.hosts then Success(net.hosts[uri]) else Failure(DialFailed(uri))
  }

  /** The connection a dial of `uri` reaches, if any: all a handshake may change. */
  function Endpoint(net: Network, uri: string): set<Conn> {
    if uri in net.hosts then {net.hosts[uri]} else {}
  }

  function AuthRequest(token: string): Message {
    AuthMsg(AuthMessage("auth", token))
  }

  /** The hub accepts the credentials exactly when its reply decodes with type "auth_ok". */
  predicate AuthAccepted(reply: Frame) {
    TypeOf(reply) == "auth_ok"
  }

  /** A reply that is not JSON is read as a rejection. */
  lemma UndecodableReplyRejected(reply: Frame)
    requires reply.decoded.None?
    ensures !AuthAccepted(reply)
  {
  }

  /** The outcome of a handshake on a connection with these frames queued:
      the error (None on success), how many frames it read and what it wrote. */
  datatype HandshakeRun = HandshakeRun(err: Option<Error>, read: nat, written: seq<Message>)

  /** The handshake after the dial: read the greeting and ignore it, write the
      auth message, read the reply and require "auth_ok". The first failing
      step ends it with that step's error. */
  function Handshake(inbound: seq<Frame>, readErr: Error, writeErr: Option<Error>, token: string): (run: HandshakeRun)
    // success exactly when a greeting and an "auth_ok" reply arrive and the auth message goes out
    ensures run.err.None? <==> |inbound| >= 2 && writeErr.None? && AuthAccepted(inbound[1])
    // at most the greeting and the reply are read; on success both are
    ensures run.read <= |inbound| && run.read <= 2
    ensures run.err.None? ==> run.read == 2
    // exactly one auth message is written, and only once the greeting has arrived
    ensures run.written == [] || run.written == [AuthRequest(token)]
    ensures run.written != [] <==> |inbound| >= 1 && writeErr.None?
    // a missing greeting stops everything: nothing is written and the read error is returned
    ensures |inbound| == 0 ==> run.err == Some(readErr) && run.written == []
    // a failed write returns its error and reads no reply
    ensures |inbound| >= 1 && writeErr.Some? ==> run.err == writeErr && run.read == 1
    // a failed reply read returns the read error as it is, not ErrInvalidToken
    ensures |inbound| == 1 && writeErr.None? ==> run.err == Some(readErr)
    // a reply of any other type, or one that is not JSON, is ErrInvalidToken
    ensures |inbound| >= 2 && writeErr.None? && !AuthAccepted(inbound[1]) ==> run.err == Some(InvalidToken)
  {
    if |inbound| == 0 then HandshakeRun(Some(readErr), 0, [])
    else if writeErr.Some? then HandshakeRun(writeErr, 1, [])
    else if |inbound| == 1 then HandshakeRun(Some(readErr), 1, [AuthRequest(token)])
    else if !AuthAccepted(inbound[1]) then HandshakeRun(Some(InvalidToken), 2, [AuthRequest(token)])
    else HandshakeRun(None, 2, [AuthRequest(token)])
  }

  /** The state after dialing `uri` and running the handshake: the connection
      is returned only on success, and it has read and written what
      `Handshake` says. */
  twostate predicate Handshook(net: Network, uri: string, token: string, new conn: Conn?, new err: Option<Error>)
    reads Endpoint(net, uri)
  {
    if uri !in net.hosts then
      conn == null && err == Some(DialFailed(uri))
    else
      var c := net.hosts[uri];
      var run := Handshake(old(c.inbound), c.readErr, c.writeErr, token);
      && err == run.err
      && conn == (if run.err.None? then c else null)
      && c.inbound == old(c.inbound)[run.read..]
      && c.outbound == old(c.outbound) + run.written
  }

  method SendAuthMessage(conn: Conn, token: string) returns (err: Option<Error>)
    modifies conn`outbound
    ensures err == conn.writeErr
    ensures conn.outbound == if err.None? then old(conn.outbound) + [AuthRequest(token)] else old(conn.outbound)
  {
    err := conn.WriteJSON(AuthRequest(token));
    if err.Some? {
      return err;
    }
    return None;
  }

  method VerifyAuthResponse(conn: Conn) returns (err: Option<Error>)
    modifies conn`inbound
    ensures old(conn.inbound) == [] ==> err == Some(conn.readErr) && conn.inbound == []
    ensures old(conn.inbound) != [] ==> conn.inbound == old(conn.inbound)[1..]
    ensures old(conn.inbound) != [] ==> err == if AuthAccepted(old(conn.inbound)[0]) then None else Some(InvalidToken)
  {
    var msg, e := ReadMessage(conn);
    if e.Some? {
      return e;
    }
    var authType := TypeOf(msg);
    if authType != "auth_ok" {
      return Some(InvalidToken);
    }
    return None;
  }

  method ConnectionFromUri(uri: string, authToken: string, net: Network) returns (conn: Conn?, err: Option<Error>)
    modifies Endpoint(net, uri)
    ensures Handshook(net, uri, authToken, conn, err)
  {
    var dialed := Dial(net, uri);
    if dialed.Failure? {
      return null, Some(dialed.error);
    }
    var c := dialed.value;
    ghost var inbound, outbound := c.inbound, c.outbound;
    ghost var run := Handshake(inbound, c.readErr, c.writeErr, authToken);

    // the greeting (auth_required); its content is ignored
    var _, e := ReadMessage(c);
    if e.Some? {
      assert run == HandshakeRun(Some(c.readErr), 0, []) && c.inbound == inbound[0..];
      return null, e;
    }
    assert c.inbound == inbound[1..] && c.outbound == outbound;

    e := SendAuthMessage(c, authToken);
    if e.Some? {
      assert run == HandshakeRun(c.writeErr, 1, []) && c.outbound == outbound;
      return null, e;
    }
    assert c.outbound == outbound + run.written;

    e := VerifyAuthResponse(c);
    assert c.inbound == inbound[run.read..];
    if e.Some? {
      assert run.err == e;
      return null, e;
    }
    assert run.err == None;
    return c, None;
  }

  method SetupConnection(ip: string, port: string, authToken: string, net: Network) returns (conn: Conn?, err: Option<Error>)
    modifies Endpoint(net, Uri("ws", ip, port))
    ensures Handshook(net, Uri("ws", ip, port), authToken, conn, err)
  {
    var uri := Uri("ws", ip, port);
    conn, err := ConnectionFromUri(uri, authToken, net);
  }

  method SetupSecureConnection(ip: string, port: string, authToken: string, net: Network) returns (conn: Conn?, err: Option<Error>)
    modifies Endpoint(net, Uri("wss", ip, port))
    ensures Handshook(net, Uri("wss", ip, port), authToken, conn, err)
  {
    var uri := Uri("wss", ip, port);
    conn, err := ConnectionFromUri(uri, authToken, net);
  }

  /** Subscribes the connection to one event type with the given id, or with a
      fresh one when none is given. A failed write panics; the panic value is
      returned here as `panicked`. */
  method SubscribeToEventType(eventType: string, w: WebSocketWriter, alloc: IdAllocator, id: seq<int64>)
    returns (panicked: Option<Error>)
    modifies w.conn`outbound, alloc
    ensures |id| == 0 ==> alloc.last == Successor(old(alloc.last))
    ensures |id| != 0 ==> alloc.last == old(alloc.last)
    ensures var finalId := if |id| == 0 then alloc.last else id[0];
      w.conn.outbound == old(w.conn.outbound) +
        (if w.conn.writeErr.None? then [SubscribeMsg(SubEvent(finalId, "subscribe_events", eventType))] else [])
    ensures panicked == if w.conn.writeErr.None? then None
                        else Some(Wrapped("error writing to websocket", w.conn.writeErr.value))
  {
    var finalId: int64;
    if |id| == 0 {
      finalId := alloc.GetId();
    } else {
      finalId := id[0];
    }
    var e := SubEvent(finalId, "subscribe_events", eventType);
    var err := w.WriteMessage(SubscribeMsg(e));
    if err.Some? {
      return Some(Wrapped("error writing to websocket", err.value));
    }
    return None;
  }
}
