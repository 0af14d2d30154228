/**
  Integers in network byte order. A host stores an integer of `w` bytes in its own order; `hton` and
  `ntoh` swap the bytes on a little-endian host and do nothing on a big-endian one. Network order is
  the order of Appendix B of RFC 791: the most significant byte first.
 */
module Codec {
  import opened Prelude

  datatype Host = LittleEndian | BigEndian

  function Pow256(w: nat): (p: nat)
    ensures p >= 1
  {
    if w == 0 then 1 else 256 * Pow256(w - 1)
  }

  function Reverse(s: seq<byte>): (r: seq<byte>)
    ensures |r| == |s|
    ensures forall k :: 0 <= k < |s| ==> r[k] == s[|s| - 1 - k]
  {
    seq(|s|, (k: nat) requires k < |s| => s[|s| - 1 - k])
  }

  /** The `w` low-order bytes of a value, the least significant first. */
  function Digits(v: nat, w: nat): (s: seq<byte>)
    ensures |s| == w
  {
    if w == 0 then [] else [v % 256] + Digits(v / 256, w - 1)
  }

  function Value(s: seq<byte>): nat {
    if s == [] then 0 else s[0] + 256 * Value(s[1..])
  }

  /** An integer as the host keeps it in memory, and back. */
  function Store(host: Host, v: nat, w: nat): seq<byte> {
    match host case LittleEndian => Digits(v, w) case BigEndian => Reverse(Digits(v, w))
  }

  function Load(host: Host, s: seq<byte>): nat {
    match host case LittleEndian => Value(s) case BigEndian => Value(Reverse(s))
  }

  function ByteSwap(v: nat, w: nat): nat {
    Value(Reverse(Digits(v, w)))
  }

  /** `htobe16`, `htobe32` and `htobe64`, and equally `be16toh`, `be32toh` and `be64toh`. */
  function HostToNetwork(host: Host, v: nat, w: nat): nat {
    match host case LittleEndian => ByteSwap(v, w) case BigEndian => v
  }

  /** The bytes `serialize` copies out: the memory of the converted integer. */
  function SerializedBytes(host: Host, v: nat, w: nat): seq<byte> {
    Store(host, HostToNetwork(host, v, w), w)
  }

  /** The integer `deserialize` makes of `w` bytes it copied in. */
  function DeserializedValue(host: Host, s: seq<byte>): nat {
    HostToNetwork(host, Load(host, s), |s|)
  }

  /** The reference: byte `k` is the `k`-th base-256 digit counted from the most significant one. */
  function NetworkOrder(v: nat, w: nat): (s: seq<byte>)
    ensures |s| == w
  {
    seq(w, (k: nat) requires k < w => v / Pow256(w - 1 - k) % 256)
  }

  // ------------------------------------------------------------------------------------------------

  lemma {:induction false} ValueOfDigits(v: nat, w: nat)
    requires v < Pow256(w)
    ensures Value(Digits(v, w)) == v
  {
    if w == 0 {
    } else {
      ValueOfDigits(v / 256, w - 1);
      assert Digits(v, w)[1..] == Digits(v / 256, w - 1);
    }
  }

  lemma {:induction false} DigitsOfValue(s: seq<byte>)
    ensures Value(s) < Pow256(|s|) && Digits(Value(s), |s|) == s
  {
    if s == [] {
    } else {
      DigitsOfValue(s[1..]);
      assert Value(s) % 256 == s[0] && Value(s) / 256 == Value(s[1..]);
    }
  }

  lemma ReverseTwice(s: seq<byte>)
    ensures Reverse(Reverse(s)) == s
  {
  }

  lemma {:induction false} DivideTwice(v: nat, w: nat)
    ensures v / 256 / Pow256(w) == v / Pow256(w + 1)
  {
    var p := Pow256(w);
    var q, r := v / 256 / p, v / 256 % p;
    assert v == 256 * (q * p + r) + v % 256;
    assert v == q * (256 * p) + (256 * r + v % 256) by {
      assert 256 * (q * p) == q * (256 * p);
    }
    Quotient(v, 256 * p, q, 256 * r + v % 256);
  }

  lemma Quotient(v: nat, d: nat, q: nat, r: nat)
    requires d > 0 && r < d && v == q * d + r
    ensures v / d == q
  {
    var e := v / d - q;
    assert v == d * (v / d) + v % d;
    assert d * e == d * (v / d) - d * q;
    if e >= 1 {
      AtLeastOnce(d, e);
    } else if e <= -1 {
      AtLeastOnce(d, -e);
    }
  }

  lemma {:induction false} AtLeastOnce(d: nat, e: nat)
    requires e >= 1
    ensures d * e >= d
  {
    if e > 1 {
      AtLeastOnce(d, e - 1);
      assert d * e == d * (e - 1) + d;
    }
  }

  lemma {:induction false} DigitAt(v: nat, w: nat, k: nat)
    requires k < w
    ensures Digits(v, w)[k] == v / Pow256(k) % 256
  {
    if k == 0 {
    } else {
      DigitAt(v / 256, w - 1, k - 1);
      DivideTwice(v, k - 1);
    }
  }

  /** On either kind of host the bytes sent are those of the reference, the most significant first. */
  lemma SerializeIsNetworkOrder(host: Host, v: nat, w: nat)
    ensures SerializedBytes(host, v, w) == NetworkOrder(v, w)
  {
    DigitsOfValue(Reverse(Digits(v, w)));
    forall k | 0 <= k < w
      ensures Reverse(Digits(v, w))[k] == NetworkOrder(v, w)[k]
    {
      DigitAt(v, w, w - 1 - k);
    }
  }

  /** Reading gives back any integer of the width, between hosts of any two kinds. */
  lemma {:induction false} CodecRoundTrip(sender: Host, receiver: Host, v: nat, w: nat)
    requires v < Pow256(w)
    ensures DeserializedValue(receiver, SerializedBytes(sender, v, w)) == v
  {
    SerializeIsNetworkOrder(sender, v, w);
    SerializeIsNetworkOrder(BigEndian, v, w);
    var s := Reverse(Digits(v, w));
    assert NetworkOrder(v, w) == s;
    DigitsOfValue(s);
    ReverseTwice(Digits(v, w));
    ValueOfDigits(v, w);
  }

  /** Writing gives back any bytes that were read: no two byte strings stand for one integer. */
  lemma {:induction false} CodecRoundTripBack(host: Host, s: seq<byte>)
    ensures DeserializedValue(host, s) < Pow256(|s|)
    ensures SerializedBytes(host, DeserializedValue(host, s), |s|) == s
  {
    DigitsOfValue(s);
    DigitsOfValue(Reverse(s));
    ReverseTwice(s);
    DigitsOfValue(Reverse(Digits(Value(s), |s|)));
  }

  // ------------------------------------------------------------------------------------------------

  /** A byte vector written through a `back_inserter`. */
  class Buffer {
    var bytes: seq<byte>

    constructor ()
      ensures bytes == []
    {
      bytes := [];
    }

    method Serialize(host: Host, value: nat, w: nat)
      modifies this
      ensures bytes == old(bytes) + NetworkOrder(value, w)
    {
      var nvalue := HostToNetwork(host, value, w);
      bytes := bytes + Store(host, nvalue, w);
      SerializeIsNetworkOrder(host, value, w);
    }
  }

  /** A read position in a fixed buffer: the iterator that `deserialize` advances. */
  class Cursor {
    const data: array<byte>
    var at: nat

    constructor (data: array<byte>)
      ensures this.data == data && at == 0
    {
      this.data := data;
      at := 0;
    }

    method Deserialize(host: Host, w: nat) returns (value: nat)
      requires at + w <= data.Length
      modifies this
      ensures at == old(at) + w && value < Pow256(w)
      ensures NetworkOrder(value, w) == data[old(at)..at]
    {
      var memory := data[at..at + w];
      value := Load(host, memory);
      at := at + w;
      value := HostToNetwork(host, value, w);
      CodecRoundTripBack(host, memory);
      SerializeIsNetworkOrder(host, value, w);
    }
  }
}
