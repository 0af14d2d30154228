/** The handshake coroutines, run by the task machine and driven by the event loop over one channel. */
module HandshakeDriven {
  import opened Prelude
  import opened Codec
  import opened Framing
  import opened Coroutine
  import opened TaskMachine
  import TaskInvariant
  import opened SequentialTasks
  import opened SequentialOrder
  import opened HandshakeTasks
  import opened HandshakeOrder
  import opened Driver
  import Loop = EventLoop

  /** The wiring of a single connection: receives need its channel readable, sends writable. */
  function Connection(c: Loop.ChannelId): Wiring {
    Wiring((op: Op) => c, (op: Op) => if op.id % 2 == 0 then Loop.Readable else Loop.Writable)
  }

  /**
    `accept` or `connect` from the first call on: whatever the kernel's cuts and errors, whichever
    calls would block, and in whatever batches the events come, registering never fails, neither
    machine faults, and once nothing runs and the channel waits for nothing, the coroutine has ended
    with what the bytes sent by the peer mean, or with the first error of an operation.
   */
  lemma {:induction false} DrivenHandshakeParses(
      orc: Oracle, accepting: bool, address: seq<byte>, input: seq<byte>, limit: nat,
      c: Loop.ChannelId, s: Joint, es: seq<Turn>, t: Timing)
    requires KernelContract(orc, input)
    requires Fresh(Connection(c), HandshakeBody(accepting, address, limit), s) && IsDriven(Connection(c), orc, s, es)
    ensures var s' := Driver.Drive(Connection(c), orc, s, es);
            && s'.tasks.fault.None? && !s'.loop.fault && Loop.Agrees(s'.loop) && IsLive(s'.tasks, 0)
            && (Enabled(s'.tasks, Run(t)) ==> Possible(Connection(c), s', RunTask(t)))
            && (s'.tasks.stack == [] && s'.loop.interest.Keys == {Loop.CLOSE_FD} ==>
                  s'.tasks.heap[0].frame.promise == Some(HandshakeOutcome(orc, accepting, address, input, limit)))
  {
    var root, o := HandshakeBody(accepting, address, limit), HandshakeOutcome(orc, accepting, address, input, limit);
    HandshakeEvaluates(orc, accepting, address, input, limit);
    HandshakeIsSequential(accepting, address, limit);
    DrivenProgramEnds(Connection(c), orc, root, o, s, es);
    var g := DrivenReaches(Connection(c), orc, root, o, s, es);
    SequentialRuns(orc, root, o, TaskParts(Connection(c), orc, s, es));
    if Enabled(Driver.Drive(Connection(c), orc, s, es).tasks, Run(t)) {
      NeverRegistersTwice(Connection(c), orc, root, o, s, es, t);
    }
  }

  /**
    When the peer's stream starts with its address's frame, it ends with that address, or with the
    error of an operation; with the address if no operation fails.
   */
  lemma {:induction false} DrivenHandshakeEndsWithPeerAddress(
      orc: Oracle, accepting: bool, address: seq<byte>, peer: seq<byte>, suffix: seq<byte>, limit: nat,
      c: Loop.ChannelId, s: Joint, es: seq<Turn>)
    requires Encodable(peer) && |peer| <= limit && KernelContract(orc, Framing.Frame(peer) + suffix)
    requires Fresh(Connection(c), HandshakeBody(accepting, address, limit), s)
    requires IsDriven(Connection(c), orc, s, es)
    ensures var s' := Driver.Drive(Connection(c), orc, s, es);
            && IsLive(s'.tasks, 0)
            && (s'.tasks.stack == [] && s'.loop.interest.Keys == {Loop.CLOSE_FD} ==>
                  && s'.tasks.heap[0].frame.promise.Some?
                  && var o := s'.tasks.heap[0].frame.promise.value;
                     && (o == Returned(Bytes(peer)) || exists op :: orc(op).error.Some? && o == Threw(orc(op).error.value))
                     && ((forall op :: orc(op).error.None?) ==> o == Returned(Bytes(peer))))
  {
    DrivenHandshakeParses(orc, accepting, address, Framing.Frame(peer) + suffix, limit, c, s, es, Immediate);
    HandshakeOutcomeIs(orc, accepting, address, peer, suffix, limit);
  }

  // --- The channel waits for what the coroutine needs ----------------------------------------------

  /** A read or a write of the connection. */
  ghost predicate IsIo(op: Op) {
    (exists at: nat, n: nat :: op == Recv(at, n)) || (exists at: nat, n: nat :: op == SendOp(at, n))
  }

  ghost predicate AllIo(ops: seq<Op>) {
    forall op :: op in ops ==> IsIo(op)
  }

  lemma {:induction false} ReadsAreIo(orc: Oracle, got: seq<byte>, limit: nat)
    ensures AllIo(Program(orc, ReadBody(got, limit)))
    decreases LENGTH_BYTES + limit - |got|
  {
    var rest := Wanted(got, limit);
    if rest > 0 {
      var op, code := Recv(|got|, rest), if |got| < LENGTH_BYTES then LENGTH_ENDED else ADDRESS_ENDED;
      var k, o := ReadNext(got, rest, code, limit), Delivered(op.kind, orc(op));
      assert ReadBody(got, limit) == AwaitOp(op, k);
      ContinueProgram(orc, op, k);
      if o in k && o.value.n > 0 {
        ReadsAreIo(orc, got + o.value.buffer, limit);
      }
    }
  }

  lemma {:induction false} SendsAreIo(orc: Oracle, size: nat, sent: nat)
    requires sent <= size
    ensures AllIo(Program(orc, SendBody(size, sent)))
    decreases size - sent
  {
    if sent < size {
      var op, k := SendOp(sent, size - sent), SendNext(size, sent);
      var o := Delivered(op.kind, orc(op));
      ContinueProgram(orc, op, k);
      if o in k {
        SendsAreIo(orc, size, sent + o.value.n);
      }
    }
  }

  lemma {:induction false} CallIsIo(orc: Oracle, child: Body, slot: nat, next: imap<Outcome, Body>)
    requires AllIo(Program(orc, child)) && forall o :: o in next ==> AllIo(Program(orc, next[o]))
    ensures AllIo(Program(orc, Call(child, slot, next)))
  {
    if Eval(orc, child, []).Some? && Eval(orc, child, []).value in next {
      CallProgram(orc, child, slot, next, Eval(orc, child, []).value);
    } else {
      assert Program(orc, Call(child, slot, next)) == Program(orc, child) + [];
    }
  }

  lemma {:induction false} HandshakeIsIo(orc: Oracle, accepting: bool, address: seq<byte>, limit: nat)
    ensures AllIo(Program(orc, HandshakeBody(accepting, address, limit)))
  {
    var size := |Framing.Frame(address)|;
    ReadsAreIo(orc, [], limit);
    SendsAreIo(orc, size, 0);
    if accepting {
      forall o | o in AcceptNext(size)
        ensures AllIo(Program(orc, AcceptNext(size)[o]))
      {
        CallIsIo(orc, SendBody(size, 0), 1, ReturnNext(o.value));
      }
      CallIsIo(orc, ReadBody([], limit), 0, AcceptNext(size));
    } else {
      forall o | o in ConnectNext(limit)
        ensures AllIo(Program(orc, ConnectNext(limit)[o]))
      {
        CallIsIo(orc, ReadBody([], limit), 1, ReturnReceivedNext());
      }
      CallIsIo(orc, SendBody(size, 0), 0, ConnectNext(limit));
    }
  }

  /** The descriptor of channel `c` is registered for `d`. */
  predicate RegisteredFor(l: Loop.State, c: Loop.ChannelId, d: Loop.Direction) {
    c in l.live && l.live[c].fd in l.interest && l.interest[l.live[c].fd] == d
  }

  /** A registration that no operation in flight needs does not exist. */
  lemma {:induction false} OnlyNeeded(w: Wiring, orc: Oracle, s: Joint, g: seq<TaskInvariant.Spec>, fd: Loop.Fd) returns (r: nat)
    requires JointInv(w, orc, s, g) && fd in s.loop.interest && fd != Loop.CLOSE_FD
    ensures r in s.tasks.requests && w.channel(s.tasks.requests[r].op) in s.loop.live
    ensures fd == s.loop.live[w.channel(s.tasks.requests[r].op)].fd
  {
    Loop.RegisteredHasChannel(s.loop);
    var c, d := s.loop.channels[fd], s.loop.interest[fd];
    r := s.loop.live[c].Callback(d);
    assert ArmedFor(s.loop, c, d, r);
    assert NeededOn(w, s.tasks, c, d, r);
  }

  /**
    In every state of the driven handshake: a coroutine that waits in a `recv` has its connection's
    descriptor registered for reading, one that waits in a `send` has it registered for writing,
    whatever waits is one of these, and nothing else is registered but the close event.
   */
  lemma {:induction false} WaitsTheRightWay(
      orc: Oracle, accepting: bool, address: seq<byte>, input: seq<byte>, limit: nat,
      c: Loop.ChannelId, s: Joint, es: seq<Turn>)
    requires KernelContract(orc, input)
    requires Fresh(Connection(c), HandshakeBody(accepting, address, limit), s) && IsDriven(Connection(c), orc, s, es)
    ensures var s' := Driver.Drive(Connection(c), orc, s, es);
            && (forall r :: r in s'.tasks.requests ==> IsIo(s'.tasks.requests[r].op))
            && (forall r, at: nat, n: nat :: r in s'.tasks.requests && s'.tasks.requests[r].op == Recv(at, n) ==>
                  RegisteredFor(s'.loop, c, Loop.Readable))
            && (forall r, at: nat, n: nat :: r in s'.tasks.requests && s'.tasks.requests[r].op == SendOp(at, n) ==>
                  RegisteredFor(s'.loop, c, Loop.Writable))
            && (forall fd :: fd in s'.loop.interest && fd != Loop.CLOSE_FD ==>
                  c in s'.loop.live && fd == s'.loop.live[c].fd && |s'.tasks.requests| > 0)
  {
    var root, o := HandshakeBody(accepting, address, limit), HandshakeOutcome(orc, accepting, address, input, limit);
    HandshakeEvaluates(orc, accepting, address, input, limit);
    HandshakeIsSequential(accepting, address, limit);
    var g := DrivenReaches(Connection(c), orc, root, o, s, es);
    var parts := TaskParts(Connection(c), orc, s, es);
    SequentialRuns(orc, root, o, parts);
    OperationsInOrder(orc, root, o, parts);
    HandshakeIsIo(orc, accepting, address, limit);
    var s' := Driver.Drive(Connection(c), orc, s, es);
    WaitsAsWired(orc, c, s', g);
    forall r | r in s'.tasks.requests
      ensures IsIo(s'.tasks.requests[r].op)
    {
      var all, n := Program(orc, root), |DoesAll(orc, Init(root), parts)|;
      assert all[n] in all;
    }
  }

  lemma {:induction false} WaitsAsWired(orc: Oracle, c: Loop.ChannelId, s: Joint, g: seq<TaskInvariant.Spec>)
    requires JointInv(Connection(c), orc, s, g)
    ensures forall r, at: nat, n: nat :: r in s.tasks.requests && s.tasks.requests[r].op == Recv(at, n) ==>
              RegisteredFor(s.loop, c, Loop.Readable)
    ensures forall r, at: nat, n: nat :: r in s.tasks.requests && s.tasks.requests[r].op == SendOp(at, n) ==>
              RegisteredFor(s.loop, c, Loop.Writable)
    ensures forall fd :: fd in s.loop.interest && fd != Loop.CLOSE_FD ==>
              c in s.loop.live && fd == s.loop.live[c].fd && |s.tasks.requests| > 0
  {
    forall r, at: nat, n: nat | r in s.tasks.requests && s.tasks.requests[r].op == Recv(at, n)
      ensures RegisteredFor(s.loop, c, Loop.Readable)
    {
      assert NeededOn(Connection(c), s.tasks, c, Loop.Readable, r);
      assert ArmedFor(s.loop, c, Loop.Readable, r);
    }
    forall r, at: nat, n: nat | r in s.tasks.requests && s.tasks.requests[r].op == SendOp(at, n)
      ensures RegisteredFor(s.loop, c, Loop.Writable)
    {
      assert NeededOn(Connection(c), s.tasks, c, Loop.Writable, r);
      assert ArmedFor(s.loop, c, Loop.Writable, r);
    }
    forall fd | fd in s.loop.interest && fd != Loop.CLOSE_FD
      ensures c in s.loop.live && fd == s.loop.live[c].fd && |s.tasks.requests| > 0
    {
      var r := OnlyNeeded(Connection(c), orc, s, g, fd);
      assert r in s.tasks.requests;
    }
  }
}
