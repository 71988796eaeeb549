/** Stand-ins for the two WebSocket objects a session talks to. They record
    every call the relay makes on them; what the `ws` library then does with
    a call (queueing, framing, the close handshake) is not modelled. */
module Sockets {
  import opened Protocol

  /** The browser-facing socket. `open` is `readyState === WebSocket.OPEN`;
      `sent` is every payload handed to `send`, in order. */
  class ClientSocket {
    var open: bool
    var sent: seq<Notification>

    constructor ()
      ensures open && sent == []
    {
      open := true;
      sent := [];
    }

    method Send(n: Notification)
      modifies this
      ensures sent == old(sent) + [n] && open == old(open)
    {
      sent := sent + [n];
    }

    /** The library moves the socket to CLOSED before it emits 'close'. */
    method MarkClosed()
      modifies this
      ensures !open && sent == old(sent)
    {
      open := false;
    }
  }

  /** The upstream socket created by `new WebSocket(url)`: `sent` is every frame
      handed to `send`, `closeCalls` how many times `close()` was called. */
  class UpstreamSocket {
    var sent: seq<UpstreamMsg>
    var closeCalls: nat

    constructor ()
      ensures sent == [] && closeCalls == 0
    {
      sent := [];
      closeCalls := 0;
    }

    method Send(m: UpstreamMsg)
      modifies this
      ensures sent == old(sent) + [m] && closeCalls == old(closeCalls)
    {
      sent := sent + [m];
    }

    method Close()
      modifies this
      ensures closeCalls == old(closeCalls) + 1 && sent == old(sent)
    {
      closeCalls := closeCalls + 1;
    }
  }
}
