/** The operations of the handshake coroutines in direct-style order, if none fails: one frame in, one out. */
module HandshakeOrder {
  import opened Prelude
  import opened Framing
  import opened Coroutine
  import opened SequentialOrder
  import opened HandshakeTasks

  ghost predicate NoErrors(orc: Oracle) {
    forall op :: orc(op).error.None?
  }

  ghost function Reads(orc: Oracle, got: seq<byte>, limit: nat): seq<Op> {
    Program(orc, ReadBody(got, limit))
  }

  ghost function Sends(orc: Oracle, size: nat, sent: nat): seq<Op>
    requires sent <= size
  {
    Program(orc, SendBody(size, sent))
  }

  lemma {:induction false} ReadsNext(orc: Oracle, input: seq<byte>, at: nat, limit: nat)
    requires KernelContract(orc, input) && NoErrors(orc) && at < |input| && Wanted(input[..at], limit) > 0
    ensures var op := Recv(at, Wanted(input[..at], limit));
            && 1 <= orc(op).length <= |input| - at
            && Reads(orc, input[..at], limit) == [op] + Reads(orc, input[..at + orc(op).length], limit)
  {
    var got := input[..at];
    var rest := Wanted(got, limit);
    var code := if at < LENGTH_BYTES then LENGTH_ENDED else ADDRESS_ENDED;
    var op, k := Recv(at, rest), ReadNext(got, rest, code, limit);
    var c := orc(op);
    assert ReadBody(got, limit) == AwaitOp(op, k);
    assert ReadsFrom(c, input, at, rest);
    assert Delivered(StreamRecv, c) == Returned(Count(c.length, c.buffer)) && Delivered(StreamRecv, c) in k;
    assert got + c.buffer == input[..at + c.length];
    ContinueProgram(orc, op, k);
  }

  lemma {:induction false} SendsNext(orc: Oracle, input: seq<byte>, size: nat, sent: nat)
    requires KernelContract(orc, input) && NoErrors(orc) && sent < size
    ensures var op := SendOp(sent, size - sent);
            && 1 <= orc(op).length <= size - sent
            && Sends(orc, size, sent) == [op] + Sends(orc, size, sent + orc(op).length)
  {
    var op, k := SendOp(sent, size - sent), SendNext(size, sent);
    var c := orc(op);
    assert Writes(c, size - sent);
    assert Delivered(StreamRecv, c) == Returned(Count(c.length, c.buffer)) && Delivered(StreamRecv, c) in k;
    ContinueProgram(orc, op, k);
  }

  /** The receive loops ask for more until they have the whole frame. */
  lemma {:induction false} WantedOfFrame(orc: Oracle, address: seq<byte>, at: nat, limit: nat)
    requires Encodable(address) && |address| <= limit && at <= |Framing.Frame(address)|
    ensures var frame := Framing.Frame(address);
            && Wanted(frame[..at], limit) <= |frame| - at
            && (Wanted(frame[..at], limit) > 0 <==> at < |frame|)
            && (at == |frame| ==> Reads(orc, frame[..at], limit) == [])
  {
    var frame := Framing.Frame(address);
    if at >= LENGTH_BYTES {
      HeaderOfFrame(address);
      assert frame[..at][..LENGTH_BYTES] == Codec.NetworkOrder(|address|, LENGTH_BYTES);
    }
  }

  lemma {:induction false} CallProgram(orc: Oracle, child: Body, slot: nat, next: imap<Outcome, Body>, o: Outcome)
    requires Eval(orc, child, []) == Some(o) && o in next
    ensures Program(orc, Call(child, slot, next)) == Program(orc, child) + Program(orc, next[o])
  {
    var k := AwaitTemporary(slot, next).k;
    assert k[o] == Drop(slot, next[o]);
    StartProgram(orc, child, AwaitTemporary(slot, next), o);
  }

  /** Two lists of operations, in one order or the other. */
  ghost function Ordered(first: bool, a: seq<Op>, b: seq<Op>): seq<Op> {
    if first then a + b else b + a
  }

  /** What is left of a handshake, with `got` read and `sent` bytes sent. */
  ghost function Left(orc: Oracle, accepting: bool, size: nat, got: seq<byte>, sent: nat, limit: nat): seq<Op>
    requires sent <= size
  {
    Ordered(accepting, Reads(orc, got, limit), Sends(orc, size, sent))
  }

  lemma {:induction false} ReadReturns(orc: Oracle, peer: seq<byte>, limit: nat)
    requires Encodable(peer) && |peer| <= limit && KernelContract(orc, Framing.Frame(peer)) && NoErrors(orc)
    ensures Eval(orc, ReadBody([], limit), []) == Some(Returned(Bytes(peer)))
  {
    var frame := Framing.Frame(peer);
    assert frame[..0] == [] && frame + [] == frame;
    ReadEvaluates(orc, frame, 0, limit);
    FrameRoundTrip(peer, [], limit);
    ReadErrorIsReal(orc, [], limit);
  }

  lemma {:induction false} SendReturns(orc: Oracle, input: seq<byte>, size: nat)
    requires KernelContract(orc, input) && NoErrors(orc)
    ensures Eval(orc, SendBody(size, 0), []) == Some(Returned(Unit))
  {
    SendEvaluates(orc, input, size, 0);
    SendErrorIsReal(orc, size, 0);
  }

  /** A handshake whose operations do not fail reads one frame and sends the other. */
  lemma {:induction false} WholeHandshake(orc: Oracle, accepting: bool, address: seq<byte>, peer: seq<byte>, limit: nat)
    requires Encodable(peer) && |peer| <= limit && KernelContract(orc, Framing.Frame(peer)) && NoErrors(orc)
    ensures Program(orc, HandshakeBody(accepting, address, limit))
         == Left(orc, accepting, |Framing.Frame(address)|, [], 0, limit)
  {
    var size, v := |Framing.Frame(address)|, Bytes(peer);
    ReadReturns(orc, peer, limit);
    SendReturns(orc, Framing.Frame(peer), size);
    if accepting {
      CallProgram(orc, ReadBody([], limit), 0, AcceptNext(size), Returned(v));
      assert AcceptNext(size)[Returned(v)] == Call(SendBody(size, 0), 1, ReturnNext(v));
      CallProgram(orc, SendBody(size, 0), 1, ReturnNext(v), Returned(Unit));
      assert ReturnNext(v)[Returned(Unit)] == Return(v);
    } else {
      CallProgram(orc, SendBody(size, 0), 0, ConnectNext(limit), Returned(Unit));
      assert ConnectNext(limit)[Returned(Unit)] == Call(ReadBody([], limit), 1, ReturnReceivedNext());
      CallProgram(orc, ReadBody([], limit), 1, ReturnReceivedNext(), Returned(v));
      assert ReturnReceivedNext()[Returned(v)] == Return(v);
    }
  }

  /** Whether the next operation is a read, or else a write. */
  predicate ReadsNow(accepting: bool, size: nat, peerSize: nat, got: nat, sent: nat) {
    got < peerSize && (accepting || sent == size)
  }

  predicate SendsNow(accepting: bool, size: nat, peerSize: nat, got: nat, sent: nat) {
    sent < size && (!accepting || got == peerSize)
  }

  lemma {:induction false} FirstOf(first: bool, op: Op, a: seq<Op>, a': seq<Op>, b: seq<Op>)
    requires a == [op] + a' && (first || b == [])
    ensures Ordered(first, a, b) == [op] + Ordered(first, a', b)
  {
    if first {
      assert ([op] + a') + b == [op] + (a' + b);
    }
  }

  /** The first of what is left is the next operation, and its result says what is left after it. */
  lemma {:induction false} LeftReads(orc: Oracle, accepting: bool, size: nat, peer: seq<byte>, at: nat, sent: nat,
                                     limit: nat)
    requires Encodable(peer) && |peer| <= limit && KernelContract(orc, Framing.Frame(peer)) && NoErrors(orc)
    requires sent <= size && ReadsNow(accepting, size, |Framing.Frame(peer)|, at, sent)
    ensures var frame := Framing.Frame(peer);
            var op := Recv(at, Wanted(frame[..at], limit));
            && 1 <= orc(op).length <= |frame| - at
            && Left(orc, accepting, size, frame[..at], sent, limit)
               == [op] + Left(orc, accepting, size, frame[..at + orc(op).length], sent, limit)
  {
    var frame := Framing.Frame(peer);
    var op := Recv(at, Wanted(frame[..at], limit));
    WantedOfFrame(orc, peer, at, limit);
    ReadsNext(orc, frame, at, limit);
    FirstOf(accepting, op, Reads(orc, frame[..at], limit), Reads(orc, frame[..at + orc(op).length], limit), Sends(orc, size, sent));
  }

  lemma {:induction false} LeftSends(orc: Oracle, accepting: bool, size: nat, peer: seq<byte>, at: nat, sent: nat,
                                     limit: nat)
    requires Encodable(peer) && |peer| <= limit && KernelContract(orc, Framing.Frame(peer)) && NoErrors(orc)
    requires at <= |Framing.Frame(peer)| && SendsNow(accepting, size, |Framing.Frame(peer)|, at, sent)
    ensures var frame := Framing.Frame(peer);
            var op := SendOp(sent, size - sent);
            && 1 <= orc(op).length <= size - sent
            && Left(orc, accepting, size, frame[..at], sent, limit)
               == [op] + Left(orc, accepting, size, frame[..at], sent + orc(op).length, limit)
  {
    var frame := Framing.Frame(peer);
    var op := SendOp(sent, size - sent);
    WantedOfFrame(orc, peer, at, limit);
    SendsNext(orc, frame, size, sent);
    FirstOf(!accepting, op, Sends(orc, size, sent), Sends(orc, size, sent + orc(op).length), Reads(orc, frame[..at], limit));
  }

  lemma {:induction false} LeftEnds(orc: Oracle, accepting: bool, size: nat, peer: seq<byte>, limit: nat)
    requires Encodable(peer) && |peer| <= limit
    ensures Left(orc, accepting, size, Framing.Frame(peer), size, limit) == []
  {
    var frame := Framing.Frame(peer);
    WantedOfFrame(orc, peer, |frame|, limit);
    assert frame[..|frame|] == frame;
  }

  // --- How many steps that takes ------------------------------------------------------------------

  lemma {:induction false} ReadsCost(orc: Oracle, peer: seq<byte>, at: nat, limit: nat)
    requires Encodable(peer) && |peer| <= limit && KernelContract(orc, Framing.Frame(peer)) && NoErrors(orc)
    requires at <= |Framing.Frame(peer)|
    ensures Cost(orc, ReadBody(Framing.Frame(peer)[..at], limit), []) <= 3 * (|Framing.Frame(peer)| - at) + 1
    decreases |Framing.Frame(peer)| - at
  {
    var frame := Framing.Frame(peer);
    var got := frame[..at];
    WantedOfFrame(orc, peer, at, limit);
    if at < |frame| {
      var rest, code := Wanted(got, limit), if at < LENGTH_BYTES then LENGTH_ENDED else ADDRESS_ENDED;
      var op, k := Recv(at, rest), ReadNext(got, rest, code, limit);
      var c := orc(op);
      assert ReadBody(got, limit) == AwaitOp(op, k);
      assert ReadsFrom(c, frame, at, rest);
      assert Delivered(StreamRecv, c) == Returned(Count(c.length, c.buffer)) && Delivered(StreamRecv, c) in k;
      assert got + c.buffer == frame[..at + c.length];
      OperationCost(orc, op, k);
      ReadsCost(orc, peer, at + c.length, limit);
    }
  }

  lemma {:induction false} SendsCost(orc: Oracle, input: seq<byte>, size: nat, sent: nat)
    requires KernelContract(orc, input) && NoErrors(orc) && sent <= size
    ensures Cost(orc, SendBody(size, sent), []) <= 3 * (size - sent) + 1
    decreases size - sent
  {
    if sent < size {
      var op, k := SendOp(sent, size - sent), SendNext(size, sent);
      var c := orc(op);
      assert Writes(c, size - sent);
      assert Delivered(StreamRecv, c) == Returned(Count(c.length, c.buffer)) && Delivered(StreamRecv, c) in k;
      OperationCost(orc, op, k);
      SendsCost(orc, input, size, sent + c.length);
    }
  }

  lemma {:induction false} OperationCost(orc: Oracle, op: Op, k: imap<Outcome, Body>)
    requires Delivered(op.kind, orc(op)) in k
    ensures Cost(orc, AwaitOp(op, k), []) == 3 + Cost(orc, k[Delivered(op.kind, orc(op))], [])
  {
  }

  /** A call costs a start, an await and the end of the temporary besides what is called and what follows. */
  lemma {:induction false} CallCost(orc: Oracle, child: Body, next: imap<Outcome, Body>, env: seq<Local>, o: Outcome)
    requires Eval(orc, child, []) == Some(o) && o in next
    ensures Cost(orc, Call(child, |env|, next), env)
         == 5 + Cost(orc, child, []) + Cost(orc, next[o], env + [Destroyed])
  {
    var env1 := env + [Pending(o)];
    var k := AwaitTemporary(|env|, next).k;
    assert k[o] == Drop(|env|, next[o]);
    assert env1[|env| := Consumed][|env| := Destroyed] == env + [Destroyed];
    AwaitCost(orc, |env|, k, env1, o);
    DropCost(orc, |env|, next[o], env1[|env| := Consumed]);
    StartCost(orc, child, AwaitTemporary(|env|, next), env, o);
  }

  lemma {:induction false} StartCost(orc: Oracle, child: Body, next: Body, env: seq<Local>, o: Outcome)
    requires Eval(orc, child, []) == Some(o)
    ensures Cost(orc, Start(child, next), env) == 1 + Cost(orc, child, []) + Cost(orc, next, env + [Pending(o)])
  {
  }

  lemma {:induction false} AwaitCost(orc: Oracle, i: nat, k: imap<Outcome, Body>, env: seq<Local>, o: Outcome)
    requires i < |env| && env[i] == Pending(o) && o in k
    ensures Cost(orc, AwaitTask(i, k), env) == 3 + Cost(orc, k[o], env[i := Consumed])
  {
  }

  lemma {:induction false} DropCost(orc: Oracle, i: nat, next: Body, env: seq<Local>)
    requires i < |env|
    ensures Cost(orc, Drop(i, next), env) == 1 + Cost(orc, next, env[i := Destroyed])
  {
  }

  /** Three steps for each byte, at most, and a few more. */
  lemma {:induction false} HandshakeCost(orc: Oracle, accepting: bool, address: seq<byte>, peer: seq<byte>, limit: nat)
    requires Encodable(peer) && |peer| <= limit && KernelContract(orc, Framing.Frame(peer)) && NoErrors(orc)
    ensures Cost(orc, HandshakeBody(accepting, address, limit), [])
         <= 3 * (|Framing.Frame(address)| + |Framing.Frame(peer)|) + 13
  {
    var size, v := |Framing.Frame(address)|, Bytes(peer);
    ReadReturns(orc, peer, limit);
    SendReturns(orc, Framing.Frame(peer), size);
    assert Framing.Frame(peer)[..0] == [];
    ReadsCost(orc, peer, 0, limit);
    SendsCost(orc, Framing.Frame(peer), size, 0);
    assert [] + [Destroyed] == [Destroyed];
    if accepting {
      CallCost(orc, ReadBody([], limit), AcceptNext(size), [], Returned(v));
      assert AcceptNext(size)[Returned(v)] == Call(SendBody(size, 0), 1, ReturnNext(v));
      CallCost(orc, SendBody(size, 0), ReturnNext(v), [Destroyed], Returned(Unit));
      assert ReturnNext(v)[Returned(Unit)] == Return(v);
    } else {
      CallCost(orc, SendBody(size, 0), ConnectNext(limit), [], Returned(Unit));
      assert ConnectNext(limit)[Returned(Unit)] == Call(ReadBody([], limit), 1, ReturnReceivedNext());
      CallCost(orc, ReadBody([], limit), ReturnReceivedNext(), [Destroyed], Returned(v));
      assert ReturnReceivedNext()[Returned(v)] == Return(v);
    }
  }
}
