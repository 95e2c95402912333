/**
 * A Unix stream socket as the netconnectd client uses it: connect, one
 * `sendall`, repeated `recv(16)` under a 10-second timeout, and `close`.
 * The far end is an input: whether connecting or sending fails (and with
 * which exception message), and the chunks successive reads return. A read
 * after the last chunk is the timeout.
 */
module Sockets {
  import opened Wrappers
  import opened Utf8

  /** The size every read asks for. */
  const RecvSize := 16

  /** The message of `socket.timeout` once the 10-second timeout expires. */
  const TimeoutMessage := "timed out"

  /** What one `recv(16)` can return. */
  type Chunk = c: seq<byte> | |c| <= RecvSize witness []

  /**
   * The `message` of a socket exception. Python 2's socket module raises
   * with byte strings, taken here to be ASCII.
   */
  type ErrorText = s: string | IsAscii(s)

  /** The behaviour of the daemon on one connection. */
  datatype Peer = Peer(connectError: Option<ErrorText>, sendError: Option<ErrorText>, chunks: seq<Chunk>)

  datatype Received = Data(chunk: Chunk) | TimedOut

  class Socket {
    const peer: Peer
    var connected: bool
    /** Every byte handed to the peer so far. */
    var sent: seq<byte>
    /** The chunks the peer has yet to deliver. */
    var pending: seq<Chunk>
    /** How many times `close` was called. */
    var closes: nat

    constructor (peer: Peer)
      ensures this.peer == peer && !connected && sent == [] && pending == peer.chunks && closes == 0
    {
      this.peer := peer;
      connected := false;
      sent := [];
      pending := peer.chunks;
      closes := 0;
    }

    /** `connect`: the exception message when it raises. */
    method Connect() returns (err: Option<string>)
      modifies this
      ensures err == peer.connectError && connected == err.None?
      ensures sent == old(sent) && pending == old(pending) && closes == old(closes)
    {
      err := peer.connectError;
      connected := err.None?;
    }

    /** `sendall`: all of `data` is sent, or it raises. */
    method SendAll(data: seq<byte>) returns (err: Option<string>)
      requires connected
      modifies this
      ensures err == peer.sendError
      ensures sent == if err.None? then old(sent) + data else old(sent)
      ensures connected == old(connected) && pending == old(pending) && closes == old(closes)
    {
      err := peer.sendError;
      if err.None? {
        sent := sent + data;
      }
    }

    /** `recv(16)`: the next chunk, or the timeout once nothing more arrives. */
    method Recv() returns (r: Received)
      requires connected
      modifies this
      ensures old(pending) == [] ==> r == TimedOut && pending == []
      ensures old(pending) != [] ==> r == Data(old(pending)[0]) && pending == old(pending)[1..]
      ensures connected == old(connected) && sent == old(sent) && closes == old(closes)
    {
      if pending == [] {
        r := TimedOut;
      } else {
        r := Data(pending[0]);
        pending := pending[1..];
      }
    }

    method Close()
      modifies this
      ensures closes == old(closes) + 1 && !connected
      ensures sent == old(sent) && pending == old(pending)
    {
      closes := closes + 1;
      connected := false;
    }
  }
}
