/**
  The coroutines that send and receive an address frame, over one end of a non-blocking socket: each
  `co_await` tries the I/O, suspends while it would block, and tries again when the event loop says
  the socket is ready.
 */
module Transmission {
  import opened Prelude
  import opened Codec
  import opened Framing

  datatype Io = Moved(n: nat) | WouldBlock | IoError

  /** One end of a TCP connection, with the kernel's buffers and the peer behind it. */
  class Socket {
    const capacity: nat
    var readable: seq<byte>   // received by the kernel and not yet read
    var arriving: seq<byte>   // what the peer will still send before it closes
    var unread: seq<byte>     // accepted by the kernel and not yet read by the peer
    var delivered: seq<byte>  // read by the peer
    var failed: bool          // some call has returned an error other than "would block"

    ghost predicate Valid()
      reads this
    {
      capacity > 0 && |unread| <= capacity
    }

    /** Everything there is to read from here on. */
    function Incoming(): seq<byte>
      reads this
    {
      readable + arriving
    }

    /** Everything sent so far. */
    function Sent(): seq<byte>
      reads this
    {
      delivered + unread
    }

    /** What the peer and the network may do at any time: deliver more bytes, and take some. */
    method PeerActs()
      requires Valid()
      modifies this
      ensures Valid() && Incoming() == old(Incoming()) && Sent() == old(Sent())
      ensures old(readable) <= readable && old(delivered) <= delivered && failed == old(failed)
    {
      var i :| 0 <= i <= |arriving|;
      readable, arriving := readable + arriving[..i], arriving[i..];
      var j :| 0 <= j <= |unread|;
      delivered, unread := delivered + unread[..j], unread[j..];
    }

    /** Until epoll reports the socket readable, or writable, which it then stays: nobody else uses it. */
    method AwaitReadiness(write: bool)
      requires Valid()
      modifies this
      ensures Valid() && Incoming() == old(Incoming()) && Sent() == old(Sent())
      ensures if write then |unread| < capacity else readable != [] || arriving == []
      ensures failed == old(failed)
    {
      PeerActs();
      if write {
        delivered, unread := delivered + unread, [];
      } else {
        readable, arriving := readable + arriving, [];
      }
    }

    /** `read(2)` on a non-blocking socket. */
    method Read(buffer: array<byte>, at: nat, length: nat) returns (r: Io)
      requires Valid() && at + length <= buffer.Length && length > 0
      modifies this, buffer
      ensures Valid() && Sent() == old(Sent())
      ensures r.Moved? ==> r.n <= length && (r.n == 0 <==> old(Incoming()) == [])
      ensures r.Moved? ==> r.n <= |old(Incoming())| && Incoming() == old(Incoming())[r.n..]
      ensures r.Moved? ==> buffer[..] == old(buffer[..at]) + old(Incoming())[..r.n] + old(buffer[at + r.n..])
      ensures !r.Moved? ==> Incoming() == old(Incoming()) && buffer[..] == old(buffer[..])
      ensures r.WouldBlock? ==> old(readable == [] && arriving != [])
      ensures failed == (old(failed) || r.IoError?)
    {
      if * {
        failed := true;
        r := IoError;
      } else if readable == [] {
        r := if arriving == [] then Moved(0) else WouldBlock;
      } else {
        var n: nat :| 1 <= n <= length && n <= |readable|;
        ghost var incoming := Incoming();
        forall k | 0 <= k < n {
          buffer[at + k] := readable[k];
        }
        readable := readable[n..];
        assert incoming[..n] + Incoming() == incoming;
        r := Moved(n);
      }
    }

    /** `write(2)` on a non-blocking socket. */
    method Write(buffer: array<byte>, at: nat, length: nat) returns (r: Io)
      requires Valid() && at + length <= buffer.Length && length > 0
      modifies this
      ensures Valid() && Incoming() == old(Incoming())
      ensures r.Moved? ==> 1 <= r.n <= length && Sent() == old(Sent()) + buffer[at..at + r.n]
      ensures !r.Moved? ==> Sent() == old(Sent())
      ensures r.WouldBlock? ==> old(|unread|) == capacity
      ensures failed == (old(failed) || r.IoError?)
    {
      if * {
        failed := true;
        r := IoError;
      } else if |unread| == capacity {
        r := WouldBlock;
      } else {
        var n: nat :| 1 <= n <= length && n <= capacity - |unread|;
        unread := unread + buffer[at..at + n];
        r := Moved(n);
      }
    }
  }

  /** `tcp_connection::rw_awaitable`. */
  class RwAwaitable {
    const socket: Socket
    const buffer: array<byte>
    const at: nat
    const length: nat
    const write: bool
    var n: Io

    constructor (socket: Socket, write: bool, buffer: array<byte>, at: nat, length: nat)
      ensures this.socket == socket && this.write == write && this.buffer == buffer
      ensures this.at == at && this.length == length
    {
      this.socket, this.write, this.buffer, this.at, this.length := socket, write, buffer, at, length;
      this.n := WouldBlock;
    }

    ghost predicate Valid()
      reads this, socket
    {
      socket.Valid() && at + length <= buffer.Length && length > 0
    }

    /** The bytes this operation has moved, if it has reported `k` of them and nothing else happened. */
    twostate predicate Transferred(k: nat)
      reads this, socket, buffer
      requires at + k <= buffer.Length && k <= |old(socket.Incoming())| + length
    {
      if write then
        && socket.Sent() == old(socket.Sent()) + buffer[at..at + k]
        && socket.Incoming() == old(socket.Incoming())
        && buffer[..] == old(buffer[..])
      else
        && k <= |old(socket.Incoming())|
        && socket.Sent() == old(socket.Sent())
        && socket.Incoming() == old(socket.Incoming())[k..]
        && buffer[..] == old(buffer[..at]) + old(socket.Incoming())[..k] + old(buffer[at + k..])
    }

    method DoIo() returns (r: Io)
      requires Valid()
      modifies socket, buffer
      ensures Valid()
      ensures r.Moved? ==> r.n <= length && Transferred(r.n)
      ensures r.Moved? ==> (r.n == 0 <==> !write && old(socket.Incoming()) == [])
      ensures !r.Moved? ==> socket.Sent() == old(socket.Sent()) && socket.Incoming() == old(socket.Incoming())
      ensures !r.Moved? ==> buffer[..] == old(buffer[..])
      ensures r.WouldBlock? ==> if write then old(|socket.unread|) == socket.capacity
                                else old(socket.readable == [] && socket.arriving != [])
      ensures socket.failed == (old(socket.failed) || r.IoError?)
    {
      if write {
        r := socket.Write(buffer, at, length);
      } else {
        r := socket.Read(buffer, at, length);
      }
    }

    /** `await_ready`: the first try. */
    method Ready() returns (r: Io)
      requires Valid()
      modifies socket, buffer
      ensures Valid()
      ensures r.Moved? ==> r.n <= length && Transferred(r.n)
      ensures r.Moved? ==> (r.n == 0 <==> !write && old(socket.Incoming()) == [])
      ensures !r.Moved? ==> socket.Sent() == old(socket.Sent()) && socket.Incoming() == old(socket.Incoming())
      ensures !r.Moved? ==> buffer[..] == old(buffer[..])
      ensures socket.failed == (old(socket.failed) || r.IoError?)
    {
      socket.PeerActs();
      r := DoIo();
    }

    /** The suspension until the socket is ready, and the second try. */
    method Retry() returns (r: Io)
      requires Valid()
      modifies socket, buffer
      ensures Valid() && !r.WouldBlock?
      ensures r.Moved? ==> r.n <= length && Transferred(r.n)
      ensures r.Moved? ==> (r.n == 0 <==> !write && old(socket.Incoming()) == [])
      ensures !r.Moved? ==> socket.Sent() == old(socket.Sent()) && socket.Incoming() == old(socket.Incoming())
      ensures socket.failed == (old(socket.failed) || r.IoError?)
    {
      socket.AwaitReadiness(write);
      r := DoIo();
    }

    /**
      `co_await` on this operation, from the first try to `await_resume`: it moves exactly the bytes
      it reports, whether or not it had to wait, and moves nothing when it throws (None). Having
      waited, it never finds the socket unready a second time: it throws only if the socket failed.
     */
    method Await() returns (r: Option<nat>)
      requires Valid()
      modifies this, socket, buffer
      ensures Valid()
      ensures r.Some? ==> r.value <= length && Transferred(r.value)
      ensures r.Some? ==> (r.value == 0 <==> !write && old(socket.Incoming()) == [])
      ensures r.None? ==> socket.Sent() == old(socket.Sent()) && socket.Incoming() == old(socket.Incoming())
      ensures socket.failed == (old(socket.failed) || r.None?)
    {
      n := Ready();
      if n.WouldBlock? {
        n := Retry();
      }
      match n
      case Moved(k) => r := Some(k);
      case _ => r := None;
    }
  }

  /** `local_address::serialize`. */
  method SerializeAddress(host: Host, address: seq<byte>) returns (buffer: seq<byte>)
    ensures buffer == Frame(address)
  {
    var b := new Buffer();
    b.Serialize(host, |address|, LENGTH_BYTES);
    b.bytes := b.bytes + address;
    buffer := b.bytes;
  }

  /**
    `send_address`: every byte of the frame goes out once and in order; when the socket fails, a
    prefix of the frame has gone out.
   */
  method SendAddress(host: Host, address: seq<byte>, connection: Socket) returns (ok: bool)
    requires connection.Valid() && !connection.failed
    modifies connection
    ensures connection.Valid() && connection.Incoming() == old(connection.Incoming())
    ensures ok <==> !connection.failed
    ensures ok ==> connection.Sent() == old(connection.Sent()) + Frame(address)
    ensures !ok ==> exists k :: 0 <= k < |Frame(address)| && connection.Sent() == old(connection.Sent()) + Frame(address)[..k]
  {
    var bytes := SerializeAddress(host, address);
    var buffer := new byte[|bytes|](i requires 0 <= i < |bytes| => bytes[i]);
    assert buffer[..] == bytes;
    var sent := 0;
    while sent < buffer.Length
      invariant 0 <= sent <= buffer.Length && buffer[..] == bytes
      invariant connection.Valid() && connection.Incoming() == old(connection.Incoming())
      invariant connection.Sent() == old(connection.Sent()) + bytes[..sent] && !connection.failed
    {
      var awaitable := new RwAwaitable(connection, true, buffer, sent, buffer.Length - sent);
      var r := awaitable.Await();
      match r {
        case None => return false;
        case Some(n) =>
          assert bytes[..sent] + buffer[sent..sent + n] == bytes[..sent + n];
          sent := sent + n;
      }
    }
    return true;
  }

  /**
    One receive loop: reads until the buffer is full, however the stream is cut into reads. It stops
    early only at the end of the stream, when every byte is gone, or when the socket fails.
   */
  method Fill(buffer: array<byte>, connection: Socket) returns (r: Io)
    requires connection.Valid() && !connection.failed
    modifies connection, buffer
    ensures connection.Valid() && connection.Sent() == old(connection.Sent())
    ensures if connection.failed then r.IoError? else r.Moved?
    ensures r.Moved? ==>
              if buffer.Length <= |old(connection.Incoming())| then
                && r.n == buffer.Length
                && buffer[..] == old(connection.Incoming())[..buffer.Length]
                && connection.Incoming() == old(connection.Incoming())[buffer.Length..]
              else r.n < buffer.Length && connection.Incoming() == []
  {
    ghost var input := connection.Incoming();
    var done := 0;
    while done < buffer.Length
      invariant 0 <= done <= buffer.Length && done <= |input|
      invariant connection.Valid() && connection.Sent() == old(connection.Sent())
      invariant buffer[..done] == input[..done]
      invariant connection.Incoming() == input[done..] && !connection.failed
    {
      var awaitable := new RwAwaitable(connection, false, buffer, done, buffer.Length - done);
      var n := awaitable.Await();
      if n.None? {
        return IoError;
      }
      if n.value == 0 {
        return Moved(done);
      }
      assert input[done..][..n.value] == input[done..done + n.value];
      done := done + n.value;
    }
    return Moved(done);
  }

  /**
    `from_tcp_connection`, up to the construction of the endpoint: however the stream is cut into
    reads, the result is that of parsing everything the peer sends, and nothing past the frame is read.
   */
  method FromTcpConnection(host: Host, connection: Socket, limit: nat) returns (r: Read)
    requires connection.Valid() && !connection.failed
    modifies connection
    ensures connection.Valid() && connection.Sent() == old(connection.Sent())
    ensures r == Failed(Broken) <==> connection.failed
    ensures r != Failed(Broken) ==> (r, connection.Incoming()) == Parse(old(connection.Incoming()), limit)
  {
    ghost var input := connection.Incoming();
    var lengthBuffer := new byte[LENGTH_BYTES];
    var lengthRead := Fill(lengthBuffer, connection);
    if lengthRead.IoError? {
      return Failed(Broken);
    }
    if lengthRead.n < LENGTH_BYTES {
      return Failed(LengthEnded);
    }
    var p := new Cursor(lengthBuffer);
    var addressLength := p.Deserialize(host, LENGTH_BYTES);
    assert lengthBuffer[0..LENGTH_BYTES] == input[..LENGTH_BYTES];
    HeaderIsUnique(addressLength, input[..LENGTH_BYTES]);
    if addressLength > limit {
      return Failed(TooLarge);
    }
    var addressBuffer := new byte[addressLength];
    var addressRead := Fill(addressBuffer, connection);
    if addressRead.IoError? {
      return Failed(Broken);
    }
    if addressRead.n < addressLength {
      return Failed(AddressEnded);
    }
    assert input[LENGTH_BYTES..][..addressLength] == input[LENGTH_BYTES..LENGTH_BYTES + addressLength];
    assert input[LENGTH_BYTES..][addressLength..] == input[LENGTH_BYTES + addressLength..];
    return Received(addressBuffer[..]);
  }

  lemma HeaderIsUnique(n: nat, header: seq<byte>)
    requires |header| == LENGTH_BYTES && n < Pow256(LENGTH_BYTES) && NetworkOrder(n, LENGTH_BYTES) == header
    ensures HeaderValue(header) == n
  {
    SerializeIsNetworkOrder(BigEndian, n, LENGTH_BYTES);
    CodecRoundTrip(BigEndian, BigEndian, n, LENGTH_BYTES);
  }
}
