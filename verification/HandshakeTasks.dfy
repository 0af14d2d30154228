/**
  The handshake coroutines on the task machine: `from_tcp_connection` and `send_address` as child
  tasks of `acceptor::accept` and `connector::connect`, with every `recv` and `send` free to complete
  at once or after a suspension, and free to fail.
 */
module HandshakeTasks {
  import opened Prelude
  import opened Codec
  import opened Framing
  import opened Coroutine
  import opened TaskMachine
  import opened TaskTheorems
  import opened SequentialTasks

  const LENGTH_ENDED := 1
  const ADDRESS_ENDED := 2
  const TOO_LARGE := 3

  /** The operations of one connection, told apart by direction and by position in the stream. */
  function Recv(at: nat, length: nat): Op {
    Op(StreamRecv, 2 * at, length)
  }

  function SendOp(at: nat, length: nat): Op {
    Op(StreamRecv, 2 * at + 1, length)
  }

  /** A read that succeeds returns from one byte up to what is asked for, or nothing at the end of the stream. */
  ghost predicate ReadsFrom(c: Completion, input: seq<byte>, at: nat, length: nat)
    requires at <= |input|
  {
    c.error.None? ==>
      && c.length <= length && c.length <= |input| - at && (c.length == 0 <==> at == |input|)
      && c.buffer == input[at..at + c.length]
  }

  /** A write that succeeds takes at least one byte. */
  ghost predicate Writes(c: Completion, length: nat) {
    c.error.None? ==> 1 <= c.length <= length && c.buffer == []
  }

  /** The kernel under a connection whose peer sends `input` and then closes. Any call may fail. */
  ghost predicate KernelContract(orc: Oracle, input: seq<byte>) {
    && (forall at: nat, length: nat :: at <= |input| && length > 0 ==> ReadsFrom(orc(Recv(at, length)), input, at, length))
    && (forall at: nat, length: nat :: length > 0 ==> Writes(orc(SendOp(at, length)), length))
  }

  // --- The bodies ---------------------------------------------------------------------------------

  /** The rest of `from_tcp_connection` once it has read `got`: both receive loops. */
  ghost function ReadBody(got: seq<byte>, limit: nat): Body
    decreases LENGTH_BYTES + limit - |got|, 1
  {
    if |got| < LENGTH_BYTES then
      AwaitOp(Recv(|got|, LENGTH_BYTES - |got|), ReadNext(got, LENGTH_BYTES - |got|, LENGTH_ENDED, limit))
    else
      var length := HeaderValue(got[..LENGTH_BYTES]);
      if length > limit then Throw(TOO_LARGE)
      else if |got| >= LENGTH_BYTES + length then Return(Bytes(got[LENGTH_BYTES..]))
      else
        var rest := LENGTH_BYTES + length - |got|;
        AwaitOp(Recv(|got|, rest), ReadNext(got, rest, ADDRESS_ENDED, limit))
  }

  /** What follows a `recv` of up to `rest` bytes: nothing received ends the loop with an exception. */
  ghost function ReadNext(got: seq<byte>, rest: nat, code: int, limit: nat): imap<Outcome, Body>
    requires |got| + rest <= LENGTH_BYTES + limit
    decreases LENGTH_BYTES + limit - |got|, 0
  {
    imap o: Outcome | o.Returned? && o.value.Count? && o.value.n == |o.value.buffer| <= rest ::
      if o.value.n == 0 then Throw(code) else ReadBody(got + o.value.buffer, limit)
  }

  /** The rest of `send_address` once `sent` bytes of the frame are sent. */
  ghost function SendBody(size: nat, sent: nat): Body
    requires sent <= size
    decreases size - sent, 1
  {
    if sent == size then Return(Unit) else AwaitOp(SendOp(sent, size - sent), SendNext(size, sent))
  }

  ghost function SendNext(size: nat, sent: nat): imap<Outcome, Body>
    requires sent <= size
    decreases size - sent, 0
  {
    imap o: Outcome | o.Returned? && o.value.Count? && 1 <= o.value.n <= size - sent ::
      SendBody(size, sent + o.value.n)
  }

  ghost function AcceptBody(address: seq<byte>, limit: nat): Body {
    Call(ReadBody([], limit), 0, AcceptNext(|Framing.Frame(address)|))
  }

  ghost function AcceptNext(size: nat): imap<Outcome, Body> {
    imap o: Outcome | o.Returned? :: Call(SendBody(size, 0), 1, ReturnNext(o.value))
  }

  ghost function ReturnNext(v: Value): imap<Outcome, Body> {
    imap[Returned(Unit) := Return(v)]
  }

  ghost function ConnectBody(address: seq<byte>, limit: nat): Body {
    Call(SendBody(|Framing.Frame(address)|, 0), 0, ConnectNext(limit))
  }

  ghost function ConnectNext(limit: nat): imap<Outcome, Body> {
    imap o: Outcome | o.Returned? :: Call(ReadBody([], limit), 1, ReturnReceivedNext())
  }

  ghost function ReturnReceivedNext(): imap<Outcome, Body> {
    imap o: Outcome | o.Returned? :: Return(o.value)
  }

  ghost function HandshakeBody(accepting: bool, address: seq<byte>, limit: nat): Body {
    if accepting then AcceptBody(address, limit) else ConnectBody(address, limit)
  }

  // --- What they evaluate to ----------------------------------------------------------------------

  /** What the coroutine makes of a parse: the address, or the exception of the loop that failed. */
  function OutcomeOf(read: Read): Outcome {
    match read
    case Received(address) => Returned(Bytes(address))
    case Failed(LengthEnded) => Threw(LENGTH_ENDED)
    case Failed(AddressEnded) => Threw(ADDRESS_ENDED)
    case Failed(_) => Threw(TOO_LARGE)
  }

  /** How many bytes the receive loops ask for next. */
  function Wanted(got: seq<byte>, limit: nat): nat {
    if |got| < LENGTH_BYTES then LENGTH_BYTES - |got|
    else
      var length := HeaderValue(got[..LENGTH_BYTES]);
      if length > limit || |got| >= LENGTH_BYTES + length then 0 else LENGTH_BYTES + length - |got|
  }

  /** The error of the first `recv` that fails, if the loops come to one. */
  ghost function ReadError(orc: Oracle, got: seq<byte>, limit: nat): Option<int>
    decreases LENGTH_BYTES + limit - |got|
  {
    var rest := Wanted(got, limit);
    if rest == 0 then None
    else
      var c := orc(Recv(|got|, rest));
      if c.error.Some? then c.error
      else if 0 < |c.buffer| <= rest then ReadError(orc, got + c.buffer, limit)
      else None
  }

  /** The error of the first `send` that fails. */
  ghost function SendError(orc: Oracle, size: nat, sent: nat): Option<int>
    requires sent <= size
    decreases size - sent
  {
    if sent == size then None
    else
      var c := orc(SendOp(sent, size - sent));
      if c.error.Some? then c.error
      else if 1 <= c.length <= size - sent then SendError(orc, size, sent + c.length)
      else None
  }

  /** Reading ends with the first error, or else with what the peer's bytes mean. */
  ghost function ReadOutcome(orc: Oracle, input: seq<byte>, got: seq<byte>, limit: nat): Outcome {
    match ReadError(orc, got, limit)
    case Some(code) => Threw(code)
    case None => OutcomeOf(Parse(input, limit).0)
  }

  ghost function SendOutcome(orc: Oracle, size: nat): Outcome {
    match SendError(orc, size, 0)
    case Some(code) => Threw(code)
    case None => Returned(Unit)
  }

  /** The handshake ends with the first exception of its two halves, or with what was read. */
  ghost function HandshakeOutcome(orc: Oracle, accepting: bool, address: seq<byte>, input: seq<byte>, limit: nat): Outcome {
    var read, send := ReadOutcome(orc, input, [], limit), SendOutcome(orc, |Framing.Frame(address)|);
    var first, second := if accepting then read else send, if accepting then send else read;
    if first.Threw? then first else if second.Threw? then second else read
  }

  /** An error that ends a loop is the error of some operation. */
  lemma {:induction false} ReadErrorIsReal(orc: Oracle, got: seq<byte>, limit: nat)
    ensures ReadError(orc, got, limit).Some? ==> exists op :: orc(op).error == ReadError(orc, got, limit)
    decreases LENGTH_BYTES + limit - |got|
  {
    var rest := Wanted(got, limit);
    if rest > 0 {
      var c := orc(Recv(|got|, rest));
      if c.error.None? && 0 < |c.buffer| <= rest {
        ReadErrorIsReal(orc, got + c.buffer, limit);
      }
    }
  }

  lemma {:induction false} SendErrorIsReal(orc: Oracle, size: nat, sent: nat)
    requires sent <= size
    ensures SendError(orc, size, sent).Some? ==> exists op :: orc(op).error == SendError(orc, size, sent)
    decreases size - sent
  {
    if sent < size {
      var c := orc(SendOp(sent, size - sent));
      if c.error.None? && 1 <= c.length <= size - sent {
        SendErrorIsReal(orc, size, sent + c.length);
      }
    }
  }

  /** With a peer that sends its frame: the peer's address, or the error of an operation. */
  lemma {:induction false} HandshakeOutcomeIs(orc: Oracle, accepting: bool, address: seq<byte>, peer: seq<byte>,
                                              suffix: seq<byte>, limit: nat)
    requires Encodable(peer) && |peer| <= limit
    ensures var o := HandshakeOutcome(orc, accepting, address, Framing.Frame(peer) + suffix, limit);
            && (o == Returned(Bytes(peer)) || exists op :: orc(op).error.Some? && o == Threw(orc(op).error.value))
            && ((forall op :: orc(op).error.None?) ==> o == Returned(Bytes(peer)))
  {
    FrameRoundTrip(peer, suffix, limit);
    ReadErrorIsReal(orc, [], limit);
    SendErrorIsReal(orc, |Framing.Frame(address)|, 0);
  }

  /** One `recv` of a receive loop. */
  lemma {:induction false} RecvEvaluates(orc: Oracle, input: seq<byte>, at: nat, rest: nat, code: int, limit: nat)
    requires KernelContract(orc, input) && at <= |input| && rest > 0 && at + rest <= LENGTH_BYTES + limit
    ensures var c := orc(Recv(at, rest));
            && ReadsFrom(c, input, at, rest)
            && Eval(orc, AwaitOp(Recv(at, rest), ReadNext(input[..at], rest, code, limit)), [])
               == if c.error.Some? then Some(Threw(c.error.value))
                  else if c.length == 0 then Some(Threw(code))
                  else Eval(orc, ReadBody(input[..at + c.length], limit), [])
  {
    var k := ReadNext(input[..at], rest, code, limit);
    var c := orc(Recv(at, rest));
    var o := Delivered(StreamRecv, c);
    if c.error.None? {
      assert o == Returned(Count(c.length, c.buffer)) && o in k;
      EvalAwaitOp(orc, Recv(at, rest), k, []);
      assert input[..at] + c.buffer == input[..at + c.length];
    }
  }

  /** The loops go on with one more read, in either loop. */
  lemma {:induction false} NextRead(orc: Oracle, input: seq<byte>, at: nat, limit: nat)
    requires KernelContract(orc, input) && at <= |input| && Wanted(input[..at], limit) > 0
    ensures var c := orc(Recv(at, Wanted(input[..at], limit)));
            var code := if at < LENGTH_BYTES then LENGTH_ENDED else ADDRESS_ENDED;
            && ReadsFrom(c, input, at, Wanted(input[..at], limit))
            && Eval(orc, ReadBody(input[..at], limit), [])
               == (if c.error.Some? then Some(Threw(c.error.value))
                   else if c.length == 0 then Some(Threw(code))
                   else Eval(orc, ReadBody(input[..at + c.length], limit), []))
            && ReadError(orc, input[..at], limit)
               == (if c.error.Some? then c.error
                   else if c.length == 0 then None
                   else ReadError(orc, input[..at + c.length], limit))
  {
    var got := input[..at];
    var rest := Wanted(got, limit);
    var code := if at < LENGTH_BYTES then LENGTH_ENDED else ADDRESS_ENDED;
    assert ReadBody(got, limit) == AwaitOp(Recv(at, rest), ReadNext(got, rest, code, limit));
    RecvEvaluates(orc, input, at, rest, code, limit);
    var c := orc(Recv(at, rest));
    if c.error.None? {
      assert got + c.buffer == input[..at + c.length];
    }
  }

  /** The loops stop: at an address that is too large, or with all of it. */
  lemma {:induction false} LastRead(orc: Oracle, input: seq<byte>, at: nat, limit: nat)
    requires LENGTH_BYTES <= at <= |input| && Wanted(input[..at], limit) == 0
    requires HeaderValue(input[..LENGTH_BYTES]) <= limit ==> at == LENGTH_BYTES + HeaderValue(input[..LENGTH_BYTES])
    ensures Eval(orc, ReadBody(input[..at], limit), []) == Some(ReadOutcome(orc, input, input[..at], limit))
  {
    var length := HeaderValue(input[..LENGTH_BYTES]);
    assert input[..at][..LENGTH_BYTES] == input[..LENGTH_BYTES];
    if length <= limit {
      assert input[..at][LENGTH_BYTES..] == input[LENGTH_BYTES..LENGTH_BYTES + length];
    }
  }

  /** Neither loop reads past its end. */
  ghost predicate WithinFrame(input: seq<byte>, at: nat) {
    at <= |input| && (at > LENGTH_BYTES ==> at <= LENGTH_BYTES + HeaderValue(input[..LENGTH_BYTES]))
  }

  /** At the end of the stream, inside the frame, the loop that is reading throws, as the parser fails. */
  lemma {:induction false} EndOfStream(orc: Oracle, input: seq<byte>, limit: nat)
    requires Wanted(input, limit) > 0
    ensures OutcomeOf(Parse(input, limit).0) == Threw(if |input| < LENGTH_BYTES then LENGTH_ENDED else ADDRESS_ENDED)
  {
  }

  /** One read, in terms of what the loops end with. */
  lemma {:induction false} ReadOnce(orc: Oracle, input: seq<byte>, at: nat, limit: nat)
    requires KernelContract(orc, input) && at <= |input| && Wanted(input[..at], limit) > 0
    ensures var c := orc(Recv(at, Wanted(input[..at], limit)));
            && ReadsFrom(c, input, at, Wanted(input[..at], limit))
            && if c.error.Some? || c.length == 0 then
                 Eval(orc, ReadBody(input[..at], limit), []) == Some(ReadOutcome(orc, input, input[..at], limit))
               else
                 && Eval(orc, ReadBody(input[..at], limit), []) == Eval(orc, ReadBody(input[..at + c.length], limit), [])
                 && ReadOutcome(orc, input, input[..at], limit) == ReadOutcome(orc, input, input[..at + c.length], limit)
  {
    NextRead(orc, input, at, limit);
    if at == |input| {
      assert input[..at] == input;
      EndOfStream(orc, input, limit);
    }
  }

  lemma {:induction false} ReadEvaluates(orc: Oracle, input: seq<byte>, at: nat, limit: nat)
    requires KernelContract(orc, input) && WithinFrame(input, at)
    ensures Eval(orc, ReadBody(input[..at], limit), []) == Some(ReadOutcome(orc, input, input[..at], limit))
    decreases |input| - at
  {
    assert at >= LENGTH_BYTES ==> input[..at][..LENGTH_BYTES] == input[..LENGTH_BYTES];
    if Wanted(input[..at], limit) == 0 {
      LastRead(orc, input, at, limit);
    } else {
      ReadOnce(orc, input, at, limit);
      var c := orc(Recv(at, Wanted(input[..at], limit)));
      if c.error.None? && c.length > 0 {
        ReadEvaluates(orc, input, at + c.length, limit);
      }
    }
  }

  lemma {:induction false} SendEvaluates(orc: Oracle, input: seq<byte>, size: nat, sent: nat)
    requires KernelContract(orc, input) && sent <= size
    ensures Eval(orc, SendBody(size, sent), []) ==
            Some(match SendError(orc, size, sent) case Some(code) => Threw(code) case None => Returned(Unit))
    decreases size - sent
  {
    if sent < size {
      var op := SendOp(sent, size - sent);
      var c := orc(op);
      assert Writes(c, size - sent);
      if c.error.None? {
        assert Delivered(StreamRecv, c) == Returned(Count(c.length, c.buffer)) && Delivered(StreamRecv, c) in SendNext(size, sent);
        EvalAwaitOp(orc, op, SendNext(size, sent), []);
        SendEvaluates(orc, input, size, sent + c.length);
      }
    }
  }

  /** A coroutine that calls two others in turn ends as the first that throws. */
  lemma {:induction false} AcceptHandsOn(orc: Oracle, reader: Body, input: seq<byte>, size: nat, o: Outcome)
    requires KernelContract(orc, input) && Eval(orc, reader, []) == Some(o)
    ensures Eval(orc, Call(reader, 0, AcceptNext(size)), [])
         == Some(if o.Threw? then o else if SendOutcome(orc, size).Threw? then SendOutcome(orc, size) else o)
  {
    EvalCall(orc, reader, AcceptNext(size), [], o);
    if o.Returned? {
      assert [] + [Destroyed] == [Destroyed];
      assert AcceptNext(size)[o] == Call(SendBody(size, 0), 1, ReturnNext(o.value));
      ReplyEvaluates(orc, input, size, o.value);
    }
  }

  /** The second half of `accept`: send the own address, then return the endpoint. */
  lemma {:induction false} ReplyEvaluates(orc: Oracle, input: seq<byte>, size: nat, v: Value)
    requires KernelContract(orc, input)
    ensures Eval(orc, Call(SendBody(size, 0), 1, ReturnNext(v)), [Destroyed])
         == Some(if SendOutcome(orc, size).Threw? then SendOutcome(orc, size) else Returned(v))
  {
    SendEvaluates(orc, input, size, 0);
    EvalCall(orc, SendBody(size, 0), ReturnNext(v), [Destroyed], SendOutcome(orc, size));
    assert ReturnNext(v)[Returned(Unit)] == Return(v);
  }

  /** The second half of `connect`: read the peer's address and return the endpoint made of it. */
  lemma {:induction false} ConnectHandsOn(orc: Oracle, limit: nat, o: Outcome)
    requires Eval(orc, ReadBody([], limit), []) == Some(o)
    ensures Eval(orc, Call(ReadBody([], limit), 1, ReturnReceivedNext()), [Destroyed]) == Some(o)
  {
    EvalCall(orc, ReadBody([], limit), ReturnReceivedNext(), [Destroyed], o);
    if o.Returned? {
      assert ReturnReceivedNext()[o] == Return(o.value);
    }
  }

  lemma {:induction false} ConnectCalls(orc: Oracle, sender: Body, limit: nat, o: Outcome, read: Outcome)
    requires Eval(orc, sender, []) == Some(o) && (o.Threw? || o == Returned(Unit))
    requires Eval(orc, ReadBody([], limit), []) == Some(read)
    ensures Eval(orc, Call(sender, 0, ConnectNext(limit)), []) == Some(if o.Threw? then o else read)
  {
    EvalCall(orc, sender, ConnectNext(limit), [], o);
    if o.Returned? {
      assert [] + [Destroyed] == [Destroyed];
      ConnectHandsOn(orc, limit, read);
    }
  }

  lemma {:induction false} HandshakeEvaluates(orc: Oracle, accepting: bool, address: seq<byte>, input: seq<byte>, limit: nat)
    requires KernelContract(orc, input)
    ensures Eval(orc, HandshakeBody(accepting, address, limit), [])
         == Some(HandshakeOutcome(orc, accepting, address, input, limit))
  {
    var size := |Framing.Frame(address)|;
    ReadEvaluates(orc, input, 0, limit);
    assert input[..0] == [];
    SendEvaluates(orc, input, size, 0);
    if accepting {
      AcceptHandsOn(orc, ReadBody([], limit), input, size, ReadOutcome(orc, input, [], limit));
    } else {
      ConnectCalls(orc, SendBody(size, 0), limit, SendOutcome(orc, size), ReadOutcome(orc, input, [], limit));
    }
  }

  // --- They await each child as they start it -----------------------------------------------------

  lemma {:induction false} OperationIsSequential(op: Op, k: imap<Outcome, Body>, n: nat)
    requires forall o :: o in k ==> Sequential(k[o], n)
    ensures Sequential(AwaitOp(op, k), n)
  {
  }

  lemma {:induction false} ReadIsSequential(got: seq<byte>, limit: nat)
    ensures Sequential(ReadBody(got, limit), 0)
    decreases LENGTH_BYTES + limit - |got|, 1
  {
    if |got| < LENGTH_BYTES {
      ReadNextIsSequential(got, LENGTH_BYTES - |got|, LENGTH_ENDED, limit);
    } else {
      var length := HeaderValue(got[..LENGTH_BYTES]);
      if length <= limit && |got| < LENGTH_BYTES + length {
        ReadNextIsSequential(got, LENGTH_BYTES + length - |got|, ADDRESS_ENDED, limit);
      }
    }
  }

  lemma {:induction false} ReadNextIsSequential(got: seq<byte>, rest: nat, code: int, limit: nat)
    requires |got| + rest <= LENGTH_BYTES + limit
    ensures Sequential(AwaitOp(Recv(|got|, rest), ReadNext(got, rest, code, limit)), 0)
    decreases LENGTH_BYTES + limit - |got|, 0
  {
    var k := ReadNext(got, rest, code, limit);
    forall o | o in k
      ensures Sequential(k[o], 0)
    {
      if o.value.n > 0 {
        ReadIsSequential(got + o.value.buffer, limit);
      }
    }
    OperationIsSequential(Recv(|got|, rest), k, 0);
  }

  lemma {:induction false} SendIsSequential(size: nat, sent: nat)
    requires sent <= size
    ensures Sequential(SendBody(size, sent), 0)
    decreases size - sent
  {
    if sent < size {
      var k := SendNext(size, sent);
      forall o | o in k
        ensures Sequential(k[o], 0)
      {
        SendIsSequential(size, sent + o.value.n);
      }
      OperationIsSequential(SendOp(sent, size - sent), k, 0);
    }
  }

  /** A call that awaits its child at once. */
  lemma {:induction false} CallIsSequential(child: Body, slot: nat, next: imap<Outcome, Body>)
    requires Sequential(child, 0) && forall o :: o in next ==> Sequential(next[o], slot + 1)
    ensures Sequential(Call(child, slot, next), slot)
  {
    var k := AwaitTemporary(slot, next).k;
    forall o | o in k
      ensures Sequential(k[o], slot + 1)
    {
      assert k[o] == Drop(slot, next[o]);
    }
  }

  lemma {:induction false} HandshakeIsSequential(accepting: bool, address: seq<byte>, limit: nat)
    ensures Sequential(HandshakeBody(accepting, address, limit), 0)
  {
    var size := |Framing.Frame(address)|;
    ReadIsSequential([], limit);
    SendIsSequential(size, 0);
    if accepting {
      var k := AcceptNext(size);
      forall o | o in k
        ensures Sequential(k[o], 1)
      {
        CallIsSequential(SendBody(size, 0), 1, ReturnNext(o.value));
      }
      CallIsSequential(ReadBody([], limit), 0, k);
    } else {
      var k := ConnectNext(limit);
      forall o | o in k
        ensures Sequential(k[o], 1)
      {
        CallIsSequential(ReadBody([], limit), 1, ReturnReceivedNext());
      }
      CallIsSequential(SendBody(size, 0), 0, k);
    }
  }

  // --- On the task machine ------------------------------------------------------------------------

  /**
    Both handshake coroutines, run by the task machine: for every way the kernel cuts the streams or
    fails, every mix of immediate and suspended I/O and every order of callbacks, the run is finite,
    nothing undefined happens, no destructor blocks, and it ends with what the bytes sent by the peer
    mean, or with the first error of an operation.
   */
  lemma {:induction false} HandshakeTaskParses(
      orc: Oracle, accepting: bool, address: seq<byte>, input: seq<byte>, limit: nat, es: seq<Event>)
    requires KernelContract(orc, input)
    requires IsRun(orc, Init(HandshakeBody(accepting, address, limit)), es)
    ensures var root := HandshakeBody(accepting, address, limit);
            var s := Exec(orc, Init(root), es);
            && s.fault.None? && |es| <= Cost(orc, root, []) && IsLive(s, 0)
            && (Quiescent(s) ==> s.heap[0].frame.promise == Some(HandshakeOutcome(orc, accepting, address, input, limit)))
  {
    var o := HandshakeOutcome(orc, accepting, address, input, limit);
    HandshakeEvaluates(orc, accepting, address, input, limit);
    HandshakeIsSequential(accepting, address, limit);
    SequentialRuns(orc, HandshakeBody(accepting, address, limit), o, es);
    AwaitTransparency(orc, HandshakeBody(accepting, address, limit), o, es);
  }

  /**
    When the peer's stream starts with its address's frame, it ends with that address, or with the
    error of an operation; with the address if no operation fails.
   */
  lemma {:induction false} HandshakeTaskEndsWithPeerAddress(
      orc: Oracle, accepting: bool, address: seq<byte>, peer: seq<byte>, suffix: seq<byte>, limit: nat, es: seq<Event>)
    requires Encodable(peer) && |peer| <= limit && KernelContract(orc, Framing.Frame(peer) + suffix)
    requires IsRun(orc, Init(HandshakeBody(accepting, address, limit)), es)
    ensures var s := Exec(orc, Init(HandshakeBody(accepting, address, limit)), es);
            && s.fault.None? && IsLive(s, 0)
            && (Quiescent(s) ==>
                  && s.heap[0].frame.promise.Some?
                  && var o := s.heap[0].frame.promise.value;
                     && (o == Returned(Bytes(peer)) || exists op :: orc(op).error.Some? && o == Threw(orc(op).error.value))
                     && ((forall op :: orc(op).error.None?) ==> o == Returned(Bytes(peer))))
  {
    HandshakeTaskParses(orc, accepting, address, Framing.Frame(peer) + suffix, limit, es);
    HandshakeOutcomeIs(orc, accepting, address, peer, suffix, limit);
  }

  /** A peer that closes inside its frame makes both coroutines throw, whatever the timing and the errors. */
  lemma {:induction false} HandshakeTaskThrowsOnTruncation(
      orc: Oracle, accepting: bool, address: seq<byte>, peer: seq<byte>, cut: nat, limit: nat, es: seq<Event>)
    requires Encodable(peer) && cut < |Framing.Frame(peer)| && KernelContract(orc, Framing.Frame(peer)[..cut])
    requires IsRun(orc, Init(HandshakeBody(accepting, address, limit)), es)
    ensures var s := Exec(orc, Init(HandshakeBody(accepting, address, limit)), es);
            && s.fault.None? && IsLive(s, 0)
            && (Quiescent(s) ==> s.heap[0].frame.promise.Some? && s.heap[0].frame.promise.value.Threw?)
  {
    HandshakeTaskParses(orc, accepting, address, Framing.Frame(peer)[..cut], limit, es);
    TruncatedFrameFails(peer, cut, limit);
  }
}
