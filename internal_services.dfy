/** The internal services package: building a service bound to the shared
    writer, the base request every service call starts from, and firing
    events. */
module InternalServices {
  import opened Wire
  import opened Transport
  import opened Websocket

  /** The event service: fires events over the shared writer. The context it
      also holds is not modelled. */
  class Event {
    const conn: WebSocketWriter

    constructor (conn: WebSocketWriter)
      ensures this.conn == conn
    {
      this.conn := conn;
    }

    /** Fires `eventType` with a fresh id. `eventData` stands for Go's variadic
        maps: the first one, if any, is sent as event_data and the rest are
        ignored. The one write's error is discarded. */
    method Fire(eventType: string, eventData: seq<Payload>, alloc: IdAllocator)
      modifies conn.conn`outbound, alloc
      ensures alloc.last == Successor(old(alloc.last))
      ensures var req := FireEventRequest(alloc.last, "fire_event", eventType,
                                          if |eventData| == 0 then None else Some(eventData[0]));
        conn.conn.outbound == old(conn.conn.outbound) + (if conn.conn.writeErr.None? then [FireEventMsg(req)] else [])
    {
      var id := alloc.GetId();
      var req := FireEventRequest(id, "fire_event", "", None);
      req := req.(eventType := eventType);
      if |eventData| != 0 {
        req := req.(eventData := Some(eventData[0]));
      }
      var _ := conn.WriteMessage(FireEventMsg(req));
    }
  }

  /** A new service value holding exactly the given writer. */
  method BuildService(conn: WebSocketWriter) returns (e: Event)
    ensures fresh(e) && e.conn == conn
  {
    e := new Event(conn);
  }

  datatype EntityTarget = EntityTarget(entityId: string)

  /** {id, type, domain, service, service_data?, target?} */
  datatype BaseServiceRequest = BaseServiceRequest(
    id: int64,
    requestType: string,
    domain: string,
    service: string,
    serviceData: Option<Payload>,
    target: EntityTarget)

  /** A call_service request with a fresh id, targeting `entityId` when it is
      not empty; domain, service and data are left at their zero values. */
  method NewBaseServiceRequest(entityId: string, alloc: IdAllocator) returns (bsr: BaseServiceRequest)
    modifies alloc
    ensures alloc.last == Successor(old(alloc.last)) && bsr.id == alloc.last
    ensures bsr.requestType == "call_service"
    ensures bsr.domain == "" && bsr.service == "" && bsr.serviceData == None
    ensures bsr.target.entityId == entityId
  {
    var id := alloc.GetId();
    bsr := BaseServiceRequest(id, "call_service", "", "", None, EntityTarget(""));
    if entityId != "" {
      bsr := bsr.(target := EntityTarget(entityId));
    }
  }
}
