/** The public services package: correlated service calls. A call is written
    first; when it expects a response, the caller waits for the first "result"
    frame carrying the call's id. */
module Services {
  import opened Wire
  import opened Transport
  import opened Websocket
  import opened Reader

  /** {result: {response}}; None is Go's nil. */
  datatype ServiceResponse = ServiceResponse(response: Option<Json>)

  const EmptyResponse: ServiceResponse := ServiceResponse(None)

  function DecodeServiceResponse(f: Frame): ServiceResponse {
    ServiceResponse(ResponseOf(f))
  }

  /** The message is the result of the call with this id. */
  predicate Answers(msg: ChanMsg, id: int64) {
    msg.msgType == "result" && msg.id == id
  }

  /** The response carried by the first message that answers the call, if any. */
  function FirstResult(msgs: seq<ChanMsg>, id: int64): Option<ServiceResponse> {
    if msgs == [] then None
    else if Answers(msgs[0], id) then Some(DecodeServiceResponse(msgs[0].raw))
    else FirstResult(msgs[1..], id)
  }

  /** The first answering message is the one whose response is taken; every
      message before it, of another type or with another id, is skipped. */
  lemma {:induction false} FirstResultFindsFirstAnswer(msgs: seq<ChanMsg>, id: int64, k: int)
    requires 0 <= k < |msgs| && Answers(msgs[k], id)
    requires forall j :: 0 <= j < k ==> !Answers(msgs[j], id)
    ensures FirstResult(msgs, id) == Some(DecodeServiceResponse(msgs[k].raw))
  {
    if k > 0 {
      assert !Answers(msgs[0], id);
      forall j | 0 <= j < k - 1
        ensures !Answers(msgs[1..][j], id)
      {
        assert msgs[1..][j] == msgs[j + 1];
      }
      FirstResultFindsFirstAnswer(msgs[1..], id, k - 1);
    }
  }

  /** A response is only ever taken from a result frame with the call's own id. */
  lemma {:induction false} FirstResultIsAnAnswer(msgs: seq<ChanMsg>, id: int64)
    requires FirstResult(msgs, id).Some?
    ensures exists k :: 0 <= k < |msgs| && Answers(msgs[k], id)
                        && FirstResult(msgs, id) == Some(DecodeServiceResponse(msgs[k].raw))
  {
    if !Answers(msgs[0], id) {
      FirstResultIsAnAnswer(msgs[1..], id);
      var k :| 0 <= k < |msgs[1..]| && Answers(msgs[1..][k], id)
               && FirstResult(msgs[1..], id) == Some(DecodeServiceResponse(msgs[1..][k].raw));
      assert msgs[1..][k] == msgs[k + 1];
    }
  }

  /** No response exactly when no message answers the call. */
  lemma {:induction false} FirstResultNone(msgs: seq<ChanMsg>, id: int64)
    ensures FirstResult(msgs, id) == None <==> forall k :: 0 <= k < |msgs| ==> !Answers(msgs[k], id)
  {
    if msgs != [] {
      FirstResultNone(msgs[1..], id);
      if !Answers(msgs[0], id) {
        forall k | 0 <= k < |msgs| && (forall j :: 0 <= j < |msgs[1..]| ==> !Answers(msgs[1..][j], id))
          ensures !Answers(msgs[k], id)
        {
          if k > 0 {
            assert msgs[k] == msgs[1..][k - 1];
          }
        }
      }
    }
  }

  /** Messages after the answer do not matter: the wait ends at the match. */
  lemma {:induction false} FirstResultIgnoresLater(msgs: seq<ChanMsg>, later: seq<ChanMsg>, id: int64)
    requires FirstResult(msgs, id).Some?
    ensures FirstResult(msgs + later, id) == FirstResult(msgs, id)
  {
    assert (msgs + later)[0] == msgs[0];
    if !Answers(msgs[0], id) {
      assert (msgs + later)[1..] == msgs[1..] + later;
      FirstResultIgnoresLater(msgs[1..], later, id);
    }
  }

  /** Starts a reader on the connection and waits for the first result frame
      with this id; nil (None) when the stream ends first. */
  method ListenForServiceResponse(conn: Conn, id: int64) returns (resp: Option<ServiceResponse>)
    modifies conn`inbound
    ensures resp == FirstResult(Publish(old(conn.inbound)), id)
    ensures conn.inbound == []
  {
    var elChan := new Channel<ChanMsg>();
    ListenWebsocket(conn, elChan);
    var msgs := elChan.sent;

    resp := None;
    var i := 0;
    while i < |msgs|
      invariant 0 <= i <= |msgs|
      invariant FirstResult(msgs, id) == FirstResult(msgs[i..], id)
      invariant resp == None
    {
      var msg := msgs[i];
      assert msgs[i..][1..] == msgs[i + 1..];
      i := i + 1;
      if msg.msgType != "result" {
        continue;
      }
      if msg.id != id {
        continue;
      }
      resp := Some(DecodeServiceResponse(msg.raw));
      break;
    }
  }

  /** What Call ends with: a response and an error, or a nil-pointer
      dereference panic. */
  datatype CallOutcome = Returned(response: ServiceResponse, err: Option<Error>) | NilDereference

  /** Calls services over the shared writer. The context it also holds is not
      modelled. */
  class ServiceCaller {
    const conn: WebSocketWriter

    constructor (conn: WebSocketWriter)
      ensures this.conn == conn
    {
      this.conn := conn;
    }

    /** Writes the call; when it expects a response, waits for it. As written,
        a stream that ends before the answer leaves a nil response that is
        then dereferenced. */
    method Call(service: ServiceCall) returns (outcome: CallOutcome)
      modifies conn.conn
      ensures conn.conn.writeErr.Some? ==>
        outcome == Returned(EmptyResponse, conn.conn.writeErr) && unchanged(conn.conn)
      ensures conn.conn.writeErr.None? ==> conn.conn.outbound == old(conn.conn.outbound) + [CallServiceMsg(service)]
      ensures conn.conn.writeErr.None? && !service.returnResponse ==>
        outcome == Returned(EmptyResponse, None) && conn.conn.inbound == old(conn.conn.inbound)
      ensures conn.conn.writeErr.None? && service.returnResponse ==>
        conn.conn.inbound == [] &&
        outcome == match FirstResult(Publish(old(conn.conn.inbound)), service.id)
                   case Some(r) => Returned(r, None)
                   case None => NilDereference
    {
      var err := conn.WriteMessage(CallServiceMsg(service));
      if err.Some? {
        return Returned(EmptyResponse, err);
      }
      if service.returnResponse {
        var resp := ListenForServiceResponse(conn.conn, service.id);
        if resp.None? {
          return NilDereference;
        }
        return Returned(resp.value, None);
      }
      return Returned(EmptyResponse, None);
    }

    /** Call with the end of the stream reported as ResponseChannelClosed
        instead of a nil dereference; otherwise the same. */
    method CallChecked(service: ServiceCall) returns (outcome: CallOutcome)
      modifies conn.conn
      ensures outcome.Returned?
      ensures conn.conn.writeErr.Some? ==>
        outcome == Returned(EmptyResponse, conn.conn.writeErr) && unchanged(conn.conn)
      ensures conn.conn.writeErr.None? ==> conn.conn.outbound == old(conn.conn.outbound) + [CallServiceMsg(service)]
      ensures conn.conn.writeErr.None? && !service.returnResponse ==>
        outcome == Returned(EmptyResponse, None) && conn.conn.inbound == old(conn.conn.inbound)
      ensures conn.conn.writeErr.None? && service.returnResponse ==>
        conn.conn.inbound == [] &&
        outcome == match FirstResult(Publish(old(conn.conn.inbound)), service.id)
                   case Some(r) => Returned(r, None)
                   case None => Returned(EmptyResponse, Some(ResponseChannelClosed))
    {
      var err := conn.WriteMessage(CallServiceMsg(service));
      if err.Some? {
        return Returned(EmptyResponse, err);
      }
      if service.returnResponse {
        var resp := ListenForServiceResponse(conn.conn, service.id);
        if resp.None? {
          return Returned(EmptyResponse, Some(ResponseChannelClosed));
        }
        return Returned(resp.value, None);
      }
      return Returned(EmptyResponse, None);
    }
  }

  /** A call expecting a response on a connection whose stream ends at once:
      Call panics where CallChecked reports ResponseChannelClosed. */
  method ClosedStreamPanics() returns (asWritten: CallOutcome, checked: CallOutcome)
    ensures asWritten == NilDereference
    ensures checked == Returned(EmptyResponse, Some(ResponseChannelClosed))
  {
    var target := ServiceTarget("", "", "light.kitchen", "");
    var call := ServiceCall(7, "call_service", "light", "turn_on", None, target, true);

    var c1 := new Conn([], Transport("closed"), None);
    var w1 := new WebSocketWriter(c1);
    var caller1 := new ServiceCaller(w1);
    asWritten := caller1.Call(call);

    var c2 := new Conn([], Transport("closed"), None);
    var w2 := new WebSocketWriter(c2);
    var caller2 := new ServiceCaller(w2);
    checked := caller2.CallChecked(call);
  }

  /** A call_service request with a fresh id and the given fields. */
  method NewServiceCall(domain: string, service: string, data: Option<Payload>, target: ServiceTarget,
                        returnResponse: bool, alloc: IdAllocator) returns (sc: ServiceCall)
    modifies alloc
    ensures alloc.last == Successor(old(alloc.last)) && sc.id == alloc.last
    ensures sc.requestType == "call_service"
    ensures sc.domain == domain && sc.service == service && sc.serviceData == data
    ensures sc.target == target && sc.returnResponse == returnResponse
  {
    var id := alloc.GetId();
    sc := ServiceCall(id, "call_service", domain, service, data, target, returnResponse);
  }
}
