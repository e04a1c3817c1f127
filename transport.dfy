/** What the client stands on: the websocket connection, Go channels and the
    process-wide identifier allocator. */
module Transport {
  import opened Wire

  /** A connected websocket. Reads take frames from `inbound` in order; once it
      is empty every read fails with `readErr` (a broken socket keeps failing).
      Each successful write appends one message to `outbound`; when `writeErr`
      is set every write fails with it and nothing is sent. */
  class Conn {
    var inbound: seq<Frame>
    var outbound: seq<Message>
    const readErr: Error
    const writeErr: Option<Error>

    constructor (inbound: seq<Frame>, readErr: Error, writeErr: Option<Error>)
      ensures this.inbound == inbound && outbound == []
      ensures this.readErr == readErr && this.writeErr == writeErr
    {
      this.inbound := inbound;
      this.outbound := [];
      this.readErr := readErr;
      this.writeErr := writeErr;
    }

    /** The socket's own ReadMessage: the next frame, or the read error. */
    method ReadFrame() returns (r: Result<Frame, Error>)
      modifies this`inbound
      ensures old(inbound) == [] ==> r == Failure(readErr) && inbound == []
      ensures old(inbound) != [] ==> r == Success(old(inbound)[0]) && inbound == old(inbound)[1..]
    {
      if inbound == [] {
        r := Failure(readErr);
      } else {
        r := Success(inbound[0]);
        inbound := inbound[1..];
      }
    }

    /** The socket's own WriteJSON: one frame holding `m`, or the write error. */
    method WriteJSON(m: Message) returns (err: Option<Error>)
      modifies this`outbound
      ensures err == writeErr
      ensures outbound == if writeErr.None? then old(outbound) + [m] else old(outbound)
    {
      err := writeErr;
      if err.None? {
        outbound := outbound + [m];
      }
    }
  }

  /** A Go channel: what has been sent on it, in order, and whether it is closed.
      Sending on or closing a closed channel panics in Go, so both require an
      open one. */
  class Channel<T> {
    var sent: seq<T>
    var closed: bool

    constructor ()
      ensures sent == [] && !closed
    {
      sent := [];
      closed := false;
    }

    method Send(x: T)
      requires !closed
      modifies this
      ensures sent == old(sent) + [x] && !closed
    {
      sent := sent + [x];
    }

    method Close()
      requires !closed
      modifies this
      ensures closed && sent == old(sent)
    {
      closed := true;
    }
  }

  /** The 64-bit two's-complement increment. */
  function Successor(x: int64): int64 {
    if x as int == MaxInt64 then MinInt64 as int64 else x + 1
  }

  /** Stands in for the process-wide id counter behind GetId: each draw
      advances the counter and hands out its new value. */
  class IdAllocator {
    var last: int64

    constructor ()
      ensures last == 0
    {
      last := 0;
    }

    method GetId() returns (id: int64)
      modifies this
      ensures last == Successor(old(last)) && id == last
    {
      last := Successor(last);
      id := last;
    }
  }
}
