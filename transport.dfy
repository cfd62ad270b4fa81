/** The part of a Netty channel the client relies on: whether it is open, and
    the frames flushed to it. */
module Transport {
  import opened Base

  class Channel {
    /** `Channel.isOpen()` */
    var open: bool
    /** Every frame whose write reached the socket, in order. */
    var outbound: seq<Frame>

    /** A freshly registered channel. */
    constructor ()
      ensures open && outbound == []
    {
      open := true;
      outbound := [];
    }

    /** `writeAndFlush(frame)`: a write to a closed channel fails, and nobody
        listens on the failed future, so it leaves no trace. */
    method WriteAndFlush(f: Frame)
      modifies this
      ensures open == old(open)
      ensures outbound == if old(open) then old(outbound) + [f] else old(outbound)
    {
      if open {
        outbound := outbound + [f];
      }
    }

    /** `close()`; closing a closed channel does nothing. */
    method Close()
      modifies this
      ensures !open && outbound == old(outbound)
    {
      open := false;
    }

    /** `writeAndFlush(new CloseWebSocketFrame()).addListener(CLOSE)`: send the
        close frame, then close once the write is done. */
    method CloseGracefully()
      modifies this
      ensures !open
      ensures outbound == if old(open) then old(outbound) + [CloseFrame] else old(outbound)
    {
      WriteAndFlush(CloseFrame);
      Close();
    }
  }
}
