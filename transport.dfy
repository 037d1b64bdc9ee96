/**
 * The browser's WebSocket as the pages use it, reduced to its `readyState`
 * (CONNECTING, OPEN, CLOSING, CLOSED) and to what `send` and `close` do in each state.
 */
module Transport {

  datatype ReadyState = Connecting | Open | Closing | Closed

  /** What `socket.send(data)` does: transmit, silently drop, or throw `InvalidStateError`. */
  datatype SendOutcome = Transmitted | Discarded | Throws

  /**
   * `send` transmits only while OPEN, throws while still CONNECTING, and after `close()`
   * (CLOSING or CLOSED) drops the data without an error.
   */
  function SendResult(s: ReadyState): (o: SendOutcome)
    ensures o == Transmitted <==> s == Open
    ensures o == Throws <==> s == Connecting
  {
    match s
    case Connecting => Throws
    case Open => Transmitted
    case Closing => Discarded
    case Closed => Discarded
  }

  /**
   * The state right after `socket.close()`: a socket that is CONNECTING or OPEN starts its
   * closing handshake; a socket already CLOSING or CLOSED is left as it is. Either way it is
   * no longer OPEN, and the close event is still to come unless it was already CLOSED.
   */
  function AfterClose(s: ReadyState): (t: ReadyState)
    ensures t != Open && t != Connecting
    ensures t == Closed <==> s == Closed
  {
    if s == Connecting || s == Open then Closing else s
  }
}
