/**
  The frame that carries a worker address over TCP: its length as eight bytes in network order, then
  the address itself.
 */
module Framing {
  import opened Prelude
  import opened Codec

  /** `sizeof(size_t)`. */
  const LENGTH_BYTES: nat := 8

  /** The largest address a frame can describe, and the bytes that describe it. */
  predicate Encodable(address: seq<byte>) {
    |address| < Pow256(LENGTH_BYTES)
  }

  function Frame(address: seq<byte>): (f: seq<byte>)
    ensures |f| == LENGTH_BYTES + |address|
  {
    NetworkOrder(|address|, LENGTH_BYTES) + address
  }

  /** The length a header stands for. */
  function HeaderValue(header: seq<byte>): nat {
    DeserializedValue(BigEndian, header)
  }

  datatype ReadError = LengthEnded | AddressEnded | TooLarge | Broken

  datatype Read = Received(address: seq<byte>) | Failed(error: ReadError)

  /**
    What the receive loops make of everything the peer sends before it closes, when the reader can
    allocate up to `limit` bytes: the result, and the bytes left unread.
   */
  function Parse(input: seq<byte>, limit: nat): (r: (Read, seq<byte>)) {
    if |input| < LENGTH_BYTES then (Failed(LengthEnded), [])
    else
      var n := HeaderValue(input[..LENGTH_BYTES]);
      if n > limit then (Failed(TooLarge), input[LENGTH_BYTES..])
      else if |input| < LENGTH_BYTES + n then (Failed(AddressEnded), [])
      else (Received(input[LENGTH_BYTES..LENGTH_BYTES + n]), input[LENGTH_BYTES + n..])
  }

  lemma HeaderOfFrame(address: seq<byte>)
    requires Encodable(address)
    ensures HeaderValue(NetworkOrder(|address|, LENGTH_BYTES)) == |address|
  {
    SerializeIsNetworkOrder(LittleEndian, |address|, LENGTH_BYTES);
    CodecRoundTrip(LittleEndian, BigEndian, |address|, LENGTH_BYTES);
  }

  /** A frame is read back exactly, whatever follows it, and what follows is left unread. */
  lemma FrameRoundTrip(address: seq<byte>, suffix: seq<byte>, limit: nat)
    requires Encodable(address) && |address| <= limit
    ensures Parse(Frame(address) + suffix, limit) == (Received(address), suffix)
  {
    var input := Frame(address) + suffix;
    HeaderOfFrame(address);
    assert input[..LENGTH_BYTES] == NetworkOrder(|address|, LENGTH_BYTES);
    assert input[LENGTH_BYTES..LENGTH_BYTES + |address|] == address;
    assert input[LENGTH_BYTES + |address|..] == suffix;
  }

  /** A stream that ends inside a frame is an error, never a partial address. */
  lemma TruncatedFrameFails(address: seq<byte>, cut: nat, limit: nat)
    requires Encodable(address) && cut < |Frame(address)|
    ensures Parse(Frame(address)[..cut], limit).0.Failed?
  {
    if cut >= LENGTH_BYTES {
      HeaderOfFrame(address);
      assert Frame(address)[..cut][..LENGTH_BYTES] == NetworkOrder(|address|, LENGTH_BYTES);
    }
  }

  /** Conversely, an address is returned only for a stream that starts with that address's frame. */
  lemma ReceivedMeansFrame(input: seq<byte>, limit: nat)
    requires Parse(input, limit).0.Received?
    ensures var (read, rest) := Parse(input, limit);
            |read.address| <= limit && input == Frame(read.address) + rest
  {
    var header := input[..LENGTH_BYTES];
    var n := HeaderValue(header);
    CodecRoundTripBack(BigEndian, header);
    SerializeIsNetworkOrder(BigEndian, n, LENGTH_BYTES);
    assert input == header + input[LENGTH_BYTES..LENGTH_BYTES + n] + input[LENGTH_BYTES + n..];
  }

  /** No frame is a proper prefix of another: a receiver cannot stop early or run into the next frame. */
  lemma FramesArePrefixFree(a: seq<byte>, b: seq<byte>)
    requires Encodable(a) && Encodable(b) && Frame(a) <= Frame(b)
    ensures a == b
  {
    var suffix := Frame(b)[|Frame(a)|..];
    var limit := if |a| < |b| then |b| else |a|;
    assert Frame(a) + suffix == Frame(b) == Frame(b) + [];
    FrameRoundTrip(a, suffix, limit);
    FrameRoundTrip(b, [], limit);
  }
}
