/** The websocket package's read loop: every frame read becomes one envelope
    message on a channel, in read order, until the first read error closes the
    channel. */
module Reader {
  import opened Wire
  import opened Transport
  import Websocket

  /** The envelope fields decoded from every inbound frame. */
  datatype BaseMessage = BaseMessage(msgType: string, id: int64, success: bool)

  /** What the loop publishes: the envelope and the raw frame. */
  datatype ChanMsg = ChanMsg(id: int64, msgType: string, success: bool, raw: Frame)

  /** The frame says `"success": false` in so many words. */
  predicate ReportsFailure(f: Frame) {
    f.decoded.Some? && f.decoded.value.success == Some(false)
  }

  /** Decodes the envelope into a value whose Success is preset to true, so a
      frame without a boolean "success" field reads as a success. */
  function DecodeBase(f: Frame): (b: BaseMessage)
    ensures b.success <==> !ReportsFailure(f)
    ensures f.decoded.None? ==> b == BaseMessage("", 0, true)
    ensures b.msgType == TypeOf(f) && b.id == IdOf(f)
  {
    var preset := BaseMessage("", 0, true);
    match f.decoded
    case None => preset
    case Some(fields) =>
      BaseMessage(TypeOf(f), IdOf(f), if fields.success.Some? then fields.success.value else preset.success)
  }

  /** The message one frame becomes. */
  function ToChanMsg(f: Frame): (m: ChanMsg)
    ensures m.raw == f
    ensures m.success <==> !ReportsFailure(f)
    ensures m.msgType == TypeOf(f) && m.id == IdOf(f)
    ensures f.decoded.None? ==> m == ChanMsg(0, "", true, f)
  {
    var base := DecodeBase(f);
    ChanMsg(base.id, base.msgType, base.success, f)
  }

  /** What the loop publishes for these frames, read in this order. */
  function Publish(frames: seq<Frame>): seq<ChanMsg> {
    if frames == [] then [] else [ToChanMsg(frames[0])] + Publish(frames[1..])
  }

  /** One message per frame, none dropped (not the undecodable frames, not the
      unsuccessful ones), and the k-th message is made from the k-th frame. */
  lemma {:induction false} PublishInOrder(frames: seq<Frame>, k: int)
    requires 0 <= k < |frames|
    ensures |Publish(frames)| == |frames|
    ensures Publish(frames)[k] == ToChanMsg(frames[k])
  {
    PublishLength(frames);
    if k > 0 {
      PublishInOrder(frames[1..], k - 1);
    }
  }

  lemma {:induction false} PublishLength(frames: seq<Frame>)
    ensures |Publish(frames)| == |frames|
  {
    if frames != [] {
      PublishLength(frames[1..]);
    }
  }

  /** Publishing two batches one after the other publishes their concatenation. */
  lemma {:induction false} PublishAppend(a: seq<Frame>, b: seq<Frame>)
    ensures Publish(a + b) == Publish(a) + Publish(b)
  {
    if a == [] {
      assert a + b == b;
    } else {
      assert (a + b)[1..] == a[1..] + b;
      PublishAppend(a[1..], b);
    }
  }

  /** Reads until the first read error, publishing one message per frame, then
      closes the channel. Nothing is published for the failed read. */
  method ListenWebsocket(conn: Conn, c: Channel<ChanMsg>)
    requires !c.closed
    modifies conn`inbound, c
    ensures c.sent == old(c.sent) + Publish(old(conn.inbound))
    ensures c.closed && conn.inbound == []
  {
    while true
      invariant !c.closed
      invariant old(c.sent) + Publish(old(conn.inbound)) == c.sent + Publish(conn.inbound)
      decreases |conn.inbound|
    {
      var bytes, err := Websocket.ReadMessage(conn);
      if err.Some? {
        c.Close();
        break;
      }
      var base := DecodeBase(bytes);
      var chanMsg := ChanMsg(base.id, base.msgType, base.success, bytes);
      c.Send(chanMsg);
    }
  }
}
