/** The values that cross the connection to the Home Assistant hub: inbound
    frames as the client decodes them, outbound messages as the client writes
    them, and the errors the client reports.

    JSON decoding is not modelled byte by byte. A frame carries its bytes
    together with the fields `json.Unmarshal` finds in them, and every decode
    in the client is a total function of that record. */
module Wire {

  datatype Option<+T> = None | Some(value: T)

  datatype Result<+T, +E> = Success(value: T) | Failure(error: E)

  const MinInt64: int := -0x8000_0000_0000_0000
  const MaxInt64: int := 0x7FFF_FFFF_FFFF_FFFF

  /** Go's int64: message identifiers. */
  newtype int64 = x: int | MinInt64 <= x <= MaxInt64

  newtype byte = x: int | 0 <= x < 256

  /** An opaque JSON value: service data, event data and service responses. */
  datatype Json =
    | JNull
    | JBool(b: bool)
    | JNumber(n: real)
    | JString(s: string)
    | JArray(elems: seq<Json>)
    | JObject(members: map<string, Json>)

  /** Go's map[string]any payloads. */
  type Payload = map<string, Json>

  /** The fields of a JSON object that the client ever decodes. A field is None
      when the key is absent, is null, or holds a value of the wrong JSON type:
      in each of these cases json.Unmarshal leaves the Go field as it was.
      For `response`, decoded into Go's `any`, a JSON null is Go's nil and so is
      None as well: `Some(JNull)` never arises. */
  datatype Fields = Fields(
    msgType: Option<string>,    // "type"
    id: Option<int64>,          // "id"
    success: Option<bool>,      // "success"
    eventType: Option<string>,  // "event": {"event_type": ...}
    response: Option<Json>)     // "result": {"response": ...}

  /** One inbound frame: its bytes and what decoding them yields. `decoded` is
      None when the bytes are not a JSON object; json.Unmarshal then fails and
      sets no field at all. */
  datatype Frame = Frame(bytes: seq<byte>, decoded: Option<Fields>)

  /** The empty byte slice returned with a read error. It is not JSON. */
  const EmptyFrame: Frame := Frame([], None)

  /** The bytes of an ASCII text, as UTF-8 encodes it. */
  function TextBytes(s: string): seq<byte> {
    seq(|s|, i requires 0 <= i < |s| => (s[i] as int % 256) as byte)
  }

  /** The "type" string a decode into a Go struct finds, "" when there is none. */
  function TypeOf(f: Frame): string {
    if f.decoded.Some? && f.decoded.value.msgType.Some? then f.decoded.value.msgType.value else ""
  }

  /** The "id" a decode finds, 0 when there is none. */
  function IdOf(f: Frame): int64 {
    if f.decoded.Some? && f.decoded.value.id.Some? then f.decoded.value.id.value else 0
  }

  /** The "event"."event_type" a decode finds, "" when there is none. */
  function EventTypeOf(f: Frame): string {
    if f.decoded.Some? && f.decoded.value.eventType.Some? then f.decoded.value.eventType.value else ""
  }

  /** The "result"."response" a decode finds, None (Go's nil) when there is none. */
  function ResponseOf(f: Frame): Option<Json> {
    if f.decoded.Some? then f.decoded.value.response else None
  }

  datatype Error =
    | Transport(reason: string)              // an error of the socket, passed through unchanged
    | DialFailed(uri: string)                // the dial of this URI failed
    | InvalidToken                           // ErrInvalidToken: the hub did not answer "auth_ok"
    | InvalidArgs                            // ErrInvalidArgs: a required argument is empty
    | Wrapped(context: string, cause: Error) // fmt.Errorf("<context>: %w", cause)
    | ResponseChannelClosed                  // the stream ended before a matching result

  /** {type, access_token} */
  datatype AuthMessage = AuthMessage(msgType: string, accessToken: string)

  /** {id, type, event_type} */
  datatype SubEvent = SubEvent(id: int64, msgType: string, eventType: string)

  /** {area_id, device_id, entity_id, label_id} */
  datatype ServiceTarget = ServiceTarget(areaId: string, deviceId: string, entityId: string, labelId: string)

  /** {id, type, domain, service, service_data?, target, return_response};
      a nil service_data map is None. */
  datatype ServiceCall = ServiceCall(
    id: int64,
    requestType: string,
    domain: string,
    service: string,
    serviceData: Option<Payload>,
    target: ServiceTarget,
    returnResponse: bool)

  /** {id, type, event_type, event_data?}; a nil event_data map is None. */
  datatype FireEventRequest = FireEventRequest(id: int64, msgType: string, eventType: string, eventData: Option<Payload>)

  /** Everything the client writes to the connection. */
  datatype Message =
    | AuthMsg(auth: AuthMessage)
    | SubscribeMsg(sub: SubEvent)
    | CallServiceMsg(call: ServiceCall)
    | FireEventMsg(fire: FireEventRequest)
}
