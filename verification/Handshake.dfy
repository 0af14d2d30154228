/**
  Two parties exchange their addresses over one TCP connection with bounded buffers. A party is a
  coroutine that sends its frame and reads the peer's, in one order or the other; while its I/O would
  block it is suspended, until the event loop finds the socket ready. The connector sends first and
  the acceptor receives first; the other orders are modelled to find out what the order is for.
 */
module Handshake {
  import opened Prelude
  import opened Codec
  import opened Framing

  type Role = r: nat | r < 2

  const CONNECTOR: Role := 0
  const ACCEPTOR: Role := 1

  function Peer(p: Role): Role {
    1 - p
  }

  /** What is fixed: each party's address, the buffer space from each party to its peer, and the orders. */
  datatype Config = Config(address: seq<seq<byte>>, capacity: seq<nat>, sendsFirst: seq<bool>) {
    ghost predicate Valid() {
      && |address| == |capacity| == |sendsFirst| == 2
      && forall p :: 0 <= p < 2 ==> Encodable(address[p]) && capacity[p] > 0
    }
  }

  /** What a party still has to do, the current loop first. */
  datatype Plan = SendThenReceive | ReceiveThenSend | SendOnly | ReceiveOnly | Nothing {
    predicate Sending() {
      SendThenReceive? || SendOnly?
    }

    predicate Sends() {
      !ReceiveOnly? && !Nothing?
    }

    predicate Receives() {
      !SendOnly? && !Nothing?
    }

    function Rest(): Plan {
      match this
      case SendThenReceive => ReceiveOnly
      case ReceiveThenSend => SendOnly
      case _ => Nothing
    }
  }

  function FullPlan(sendsFirst: bool): Plan {
    if sendsFirst then SendThenReceive else ReceiveThenSend
  }

  /** Where the current `co_await` is: about to try, suspended, or resumed because the socket is ready. */
  datatype Await = Trying | Suspended | Woken

  /**
    One party: what it still has to do, `sent` of `send_address`, the bytes read by
    `from_tcp_connection`, and the address it has made of them. `failed` records an exception.
   */
  datatype Party = Party(plan: Plan, sent: nat, got: seq<byte>, await: Await, outcome: Option<seq<byte>>, failed: bool)

  /** `pipe[p]` holds the bytes on their way from `p` to its peer. */
  datatype State = State(party: seq<Party>, pipe: seq<seq<byte>>)

  function Init(cfg: Config): State
    requires cfg.Valid()
  {
    State(seq(2, (p: nat) requires p < 2 => Party(FullPlan(cfg.sendsFirst[p]), 0, [], Trying, None, false)), [[], []])
  }

  /** Bytes the receive loops still ask for, given what they have read. */
  function Need(got: seq<byte>): int {
    if |got| < LENGTH_BYTES then LENGTH_BYTES - |got|
    else LENGTH_BYTES + HeaderValue(got[..LENGTH_BYTES]) - |got|
  }

  ghost predicate Shape(cfg: Config, s: State) {
    cfg.Valid() && |s.party| == 2 && |s.pipe| == 2
  }

  predicate Done(s: State, p: Role)
    requires |s.party| == 2
  {
    s.party[p].plan.Nothing?
  }

  /** The kernel would not answer EAGAIN: there is space, or data, or the peer has closed. */
  predicate Ready(cfg: Config, s: State, p: Role)
    requires |s.party| == 2 && |s.pipe| == 2 && |cfg.capacity| == 2 && !Done(s, p)
  {
    Done(s, Peer(p)) || if s.party[p].plan.Sending() then |s.pipe[p]| < cfg.capacity[p] else s.pipe[Peer(p)] != []
  }

  datatype Event = Io(p: Role, n: nat) | Suspend(p: Role) | Wake(p: Role)

  /**
    The environment's part: an I/O call on a ready socket moves any number of bytes from one up to
    what is asked for and possible; a first try on a socket that is not ready suspends the party;
    the event loop wakes a suspended party only when its socket is ready.
   */
  ghost predicate Enabled(cfg: Config, s: State, e: Event)
    requires Shape(cfg, s)
  {
    && !Done(s, e.p) && !s.party[e.p].failed
    && var party := s.party[e.p];
       match e
       case Suspend(p) => party.await.Trying? && !Ready(cfg, s, p)
       case Wake(p) => party.await.Suspended? && Ready(cfg, s, p)
       case Io(p, n) =>
         && !party.await.Suspended?
         && (Ready(cfg, s, p) || party.await.Woken?)
         && if !Ready(cfg, s, p) || Closed(s, p) then n == 0
            else if party.plan.Sending() then
              1 <= n <= |Frame(cfg.address[p])| - party.sent && |s.pipe[p]| + n <= cfg.capacity[p]
            else
              1 <= n <= Need(party.got) && n <= |s.pipe[Peer(p)]|
  }

  /** The call meets a closed connection: nothing left to read, or nobody left to write to. */
  predicate Closed(s: State, p: Role)
    requires |s.party| == 2 && |s.pipe| == 2 && !Done(s, p)
  {
    Done(s, Peer(p)) && (s.party[p].plan.Sending() || s.pipe[Peer(p)] == [])
  }

  /** A read or write of `n` bytes; a closed connection or a second EAGAIN throws. */
  ghost function DoIo(cfg: Config, s: State, p: Role, n: nat): State
    requires Shape(cfg, s) && Enabled(cfg, s, Io(p, n))
  {
    var me := s.party[p];
    if !Ready(cfg, s, p) || Closed(s, p) then s.(party := s.party[p := me.(failed := true)])
    else if me.plan.Sending() then
      var frame := Frame(cfg.address[p]);
      var sent := me.sent + n;
      var me' := me.(sent := sent, await := Trying, plan := if sent < |frame| then me.plan else me.plan.Rest());
      State(s.party[p := me'], s.pipe[p := s.pipe[p] + frame[me.sent..sent]])
    else
      var from := s.pipe[Peer(p)];
      var got := me.got + from[..n];
      var me' := if Need(got) > 0 then me.(got := got, await := Trying)
                 else me.(got := got, await := Trying, plan := me.plan.Rest(), outcome := Some(got[LENGTH_BYTES..]));
      State(s.party[p := me'], s.pipe[Peer(p) := from[n..]])
  }

  ghost function Step(cfg: Config, s: State, e: Event): State
    requires Shape(cfg, s) && Enabled(cfg, s, e)
  {
    match e
    case Suspend(p) => s.(party := s.party[p := s.party[p].(await := Suspended)])
    case Wake(p) => s.(party := s.party[p := s.party[p].(await := Woken)])
    case Io(p, n) => DoIo(cfg, s, p, n)
  }

  ghost predicate IsRun(cfg: Config, s: State, es: seq<Event>)
    requires Shape(cfg, s)
    decreases |es|
  {
    es == [] || (Enabled(cfg, s, es[0]) && IsRun(cfg, Step(cfg, s, es[0]), es[1..]))
  }

  ghost function Exec(cfg: Config, s: State, es: seq<Event>): (s': State)
    requires Shape(cfg, s) && IsRun(cfg, s, es)
    ensures Shape(cfg, s')
    decreases |es|
  {
    if es == [] then s else Exec(cfg, Step(cfg, s, es[0]), es[1..])
  }

  // ------------------------------------------------------------------------------------------------

  /** The stream from `p`: what its peer has read and what is buffered are the first bytes of its frame. */
  ghost predicate StreamOk(cfg: Config, s: State, p: Role)
    requires Shape(cfg, s)
  {
    && s.party[p].sent <= |Frame(cfg.address[p])|
    && |s.pipe[p]| <= cfg.capacity[p]
    && s.party[Peer(p)].got + s.pipe[p] == Frame(cfg.address[p])[..s.party[p].sent]
  }

  ghost predicate PartyOk(cfg: Config, s: State, p: Role)
    requires Shape(cfg, s)
  {
    var me, plan := s.party[p], FullPlan(cfg.sendsFirst[p]);
    && me.plan in {plan, plan.Rest(), Nothing}
    && (me.plan.Sends() <==> me.sent < |Frame(cfg.address[p])|)
    && (me.plan.Receives() <==> |me.got| < |Frame(cfg.address[Peer(p)])|)
    && me.outcome == (if me.plan.Receives() then None else Some(cfg.address[Peer(p)]))
    && !me.failed
    && (me.await.Woken? ==> !Done(s, p) && Ready(cfg, s, p))
  }

  ghost predicate Inv(cfg: Config, s: State) {
    && Shape(cfg, s)
    && StreamOk(cfg, s, 0) && StreamOk(cfg, s, 1)
    && PartyOk(cfg, s, 0) && PartyOk(cfg, s, 1)
  }

  lemma NeedsRestOfFrame(cfg: Config, s: State, p: Role)
    requires Shape(cfg, s) && StreamOk(cfg, s, Peer(p))
    ensures var rest := |Frame(cfg.address[Peer(p)])| - |s.party[p].got|;
            && rest >= 0
            && (|s.party[p].got| >= LENGTH_BYTES ==> Need(s.party[p].got) == rest)
            && (|s.party[p].got| < LENGTH_BYTES ==> 0 < Need(s.party[p].got) <= rest)
  {
    var got, address := s.party[p].got, cfg.address[Peer(p)];
    assert got == Frame(address)[..|got|] by {
      assert got == (got + s.pipe[Peer(p)])[..|got|];
    }
    if |got| >= LENGTH_BYTES {
      assert got[..LENGTH_BYTES] == NetworkOrder(|address|, LENGTH_BYTES);
      HeaderOfFrame(address);
    }
  }

  /** A party that meets a closed connection would have had nothing left to do. */
  lemma NeverClosed(cfg: Config, s: State, p: Role)
    requires Inv(cfg, s) && !Done(s, p)
    ensures !Closed(s, p)
  {
    var q := Peer(p);
    assert StreamOk(cfg, s, p) && StreamOk(cfg, s, q) && PartyOk(cfg, s, p) && PartyOk(cfg, s, q);
    if Done(s, q) {
      assert Frame(cfg.address[q])[..s.party[q].sent] == Frame(cfg.address[q]);
    }
  }

  /** What a write does, when it is not to a closed connection. */
  lemma SendEffect(cfg: Config, s: State, p: Role, n: nat)
    requires Shape(cfg, s) && Enabled(cfg, s, Io(p, n)) && s.party[p].plan.Sending() && !Closed(s, p) && Ready(cfg, s, p)
    ensures var s', me := Step(cfg, s, Io(p, n)), s.party[p];
            && s'.party[Peer(p)] == s.party[Peer(p)] && s'.pipe[Peer(p)] == s.pipe[Peer(p)]
            && s'.party[p].sent == me.sent + n <= |Frame(cfg.address[p])| && s'.party[p].got == me.got
            && s'.pipe[p] == s.pipe[p] + Frame(cfg.address[p])[me.sent..me.sent + n] && |s'.pipe[p]| <= cfg.capacity[p]
  {
  }

  lemma CanWrite(cfg: Config, s: State, p: Role, n: nat)
    requires Inv(cfg, s) && Enabled(cfg, s, Io(p, n))
    ensures !Closed(s, p) && Ready(cfg, s, p) && StreamOk(cfg, s, p) && StreamOk(cfg, s, Peer(p))
  {
    NeverClosed(cfg, s, p);
    assert PartyOk(cfg, s, p);
  }

  lemma SendKeepsStream(cfg: Config, s: State, p: Role, n: nat)
    requires Inv(cfg, s) && Enabled(cfg, s, Io(p, n)) && s.party[p].plan.Sending()
    ensures var s' := Step(cfg, s, Io(p, n)); StreamOk(cfg, s', p) && StreamOk(cfg, s', Peer(p))
  {
    CanWrite(cfg, s, p, n);
    SendEffect(cfg, s, p, n);
    StreamExtends(Frame(cfg.address[p]), s.party[Peer(p)].got, s.pipe[p], s.party[p].sent, n);
  }

  lemma StreamExtends(frame: seq<byte>, got: seq<byte>, pipe: seq<byte>, sent: nat, n: nat)
    requires sent + n <= |frame| && got + pipe == frame[..sent]
    ensures got + (pipe + frame[sent..sent + n]) == frame[..sent + n]
  {
    assert frame[..sent] + frame[sent..sent + n] == frame[..sent + n];
  }

  lemma SendKeepsParties(cfg: Config, s: State, p: Role, n: nat)
    requires Inv(cfg, s) && Enabled(cfg, s, Io(p, n)) && s.party[p].plan.Sending()
    ensures var s' := Step(cfg, s, Io(p, n)); PartyOk(cfg, s', p) && PartyOk(cfg, s', Peer(p))
  {
    NeverClosed(cfg, s, p);
  }

  lemma ReceiveKeepsStream(cfg: Config, s: State, p: Role, n: nat)
    requires Inv(cfg, s) && Enabled(cfg, s, Io(p, n)) && !s.party[p].plan.Sending()
    ensures var s' := Step(cfg, s, Io(p, n)); StreamOk(cfg, s', p) && StreamOk(cfg, s', Peer(p))
  {
    NeverClosed(cfg, s, p);
    var from := s.pipe[Peer(p)];
    assert s.party[p].got + from[..n] + from[n..] == s.party[p].got + from;
  }

  /** The reader knows it is done exactly when it has the whole frame, and then has the address. */
  lemma ReadingFinishes(cfg: Config, s: State, p: Role, n: nat)
    requires Inv(cfg, s) && Enabled(cfg, s, Io(p, n)) && !s.party[p].plan.Sending()
    ensures var got, frame := Step(cfg, s, Io(p, n)).party[p].got, Frame(cfg.address[Peer(p)]);
            && !Closed(s, p) && |got| <= |frame|
            && (Need(got) > 0 <==> |got| < |frame|)
            && (|got| == |frame| ==> got[LENGTH_BYTES..] == cfg.address[Peer(p)])
  {
    var s', q := Step(cfg, s, Io(p, n)), Peer(p);
    NeverClosed(cfg, s, p);
    ReceiveKeepsStream(cfg, s, p, n);
    NeedsRestOfFrame(cfg, s', p);
    var got, frame := s'.party[p].got, Frame(cfg.address[q]);
    assert got == (got + s'.pipe[q])[..|got|] == frame[..|got|];
  }

  lemma ReceiveKeepsReader(cfg: Config, s: State, p: Role, n: nat)
    requires Inv(cfg, s) && Enabled(cfg, s, Io(p, n)) && !s.party[p].plan.Sending()
    ensures PartyOk(cfg, Step(cfg, s, Io(p, n)), p)
  {
    ReadingFinishes(cfg, s, p, n);
  }

  lemma ReceiveKeepsWriter(cfg: Config, s: State, p: Role, n: nat)
    requires Inv(cfg, s) && Enabled(cfg, s, Io(p, n)) && !s.party[p].plan.Sending()
    ensures PartyOk(cfg, Step(cfg, s, Io(p, n)), Peer(p))
  {
    NeverClosed(cfg, s, p);
  }

  lemma SchedulingKeeps(cfg: Config, s: State, e: Event)
    requires Inv(cfg, s) && Enabled(cfg, s, e) && !e.Io?
    ensures Inv(cfg, Step(cfg, s, e))
  {
  }

  /** Every step keeps the streams and the parties right; in particular no await ever throws. */
  lemma StepKeeps(cfg: Config, s: State, e: Event)
    requires Inv(cfg, s) && Enabled(cfg, s, e)
    ensures Inv(cfg, Step(cfg, s, e))
  {
    match e
    case Io(p, n) =>
      if s.party[p].plan.Sending() {
        SendKeepsStream(cfg, s, p, n);
        SendKeepsParties(cfg, s, p, n);
      } else {
        ReceiveKeepsStream(cfg, s, p, n);
        ReceiveKeepsReader(cfg, s, p, n);
        ReceiveKeepsWriter(cfg, s, p, n);
      }
    case _ => SchedulingKeeps(cfg, s, e);
  }

  // ------------------------------------------------------------------------------------------------
  // Termination

  ghost function Pending(cfg: Config, s: State, p: Role): int
    requires Shape(cfg, s)
  {
    var me := s.party[p];
    4 * (|Frame(cfg.address[p])| - me.sent) + 4 * (|Frame(cfg.address[Peer(p)])| - |me.got|)
      + match me.await case Trying => 2 case Suspended => 1 case Woken => 0
  }

  ghost function Bound(cfg: Config): int
    requires cfg.Valid()
  {
    8 * (|Frame(cfg.address[0])| + |Frame(cfg.address[1])|) + 4
  }

  lemma PendingDrops(cfg: Config, s: State, e: Event)
    requires Inv(cfg, s) && Enabled(cfg, s, e)
    ensures var s' := Step(cfg, s, e);
            && Pending(cfg, s', e.p) < Pending(cfg, s, e.p) && Pending(cfg, s', Peer(e.p)) == Pending(cfg, s, Peer(e.p))
  {
    NeverClosed(cfg, s, e.p);
    if e.Io? {
      IoCounts(cfg, s, e.p, e.n);
    }
  }

  /** What a read or write changes of the party that does it, and that it changes nothing of its peer. */
  lemma IoCounts(cfg: Config, s: State, p: Role, n: nat)
    requires Inv(cfg, s) && Enabled(cfg, s, Io(p, n)) && !Closed(s, p)
    ensures var me, me' := s.party[p], Step(cfg, s, Io(p, n)).party[p];
            && n >= 1 && me'.await == Trying
            && me'.sent == me.sent + (if me.plan.Sending() then n else 0)
            && |me'.got| == |me.got| + (if me.plan.Sending() then 0 else n)
            && Step(cfg, s, Io(p, n)).party[Peer(p)] == s.party[Peer(p)]
  {
  }

  lemma {:induction false} RunKeeps(cfg: Config, s: State, es: seq<Event>)
    requires Inv(cfg, s) && IsRun(cfg, s, es)
    ensures var s' := Exec(cfg, s, es);
            && Inv(cfg, s')
            && |es| + Pending(cfg, s', 0) + Pending(cfg, s', 1) <= Pending(cfg, s, 0) + Pending(cfg, s, 1)
    decreases |es|
  {
    if es == [] {
    } else {
      StepKeeps(cfg, s, es[0]);
      PendingDrops(cfg, s, es[0]);
      RunKeeps(cfg, Step(cfg, s, es[0]), es[1..]);
    }
  }

  lemma InitKeeps(cfg: Config)
    requires cfg.Valid()
    ensures Inv(cfg, Init(cfg))
    ensures Pending(cfg, Init(cfg), 0) + Pending(cfg, Init(cfg), 1) == Bound(cfg)
  {
    var s := Init(cfg);
    assert StreamOk(cfg, s, 0) && StreamOk(cfg, s, 1) && PartyOk(cfg, s, 0) && PartyOk(cfg, s, 1);
  }

  // ------------------------------------------------------------------------------------------------
  // Deadlock

  /** Nothing can happen any more. */
  ghost predicate Stuck(cfg: Config, s: State)
    requires Shape(cfg, s)
  {
    forall e :: !Enabled(cfg, s, e)
  }

  predicate Finished(s: State)
    requires |s.party| == 2
  {
    Done(s, 0) && Done(s, 1)
  }

  /** A party with a ready socket has a step to take, and so has one that has not suspended yet. */
  lemma ReadyMoves(cfg: Config, s: State, p: Role) returns (e: Event)
    requires Inv(cfg, s) && !Done(s, p)
    requires Ready(cfg, s, p) || !s.party[p].await.Suspended?
    ensures Enabled(cfg, s, e)
  {
    assert PartyOk(cfg, s, p) && StreamOk(cfg, s, Peer(p)) && StreamOk(cfg, s, p);
    NeverClosed(cfg, s, p);
    NeedsRestOfFrame(cfg, s, p);
    if !Ready(cfg, s, p) {
      e := Suspend(p);
    } else if s.party[p].await.Suspended? {
      e := Wake(p);
    } else {
      e := Io(p, 1);
    }
  }

  /** The only ways to be stuck: both wait for the peer to send, or both have filled the buffers. */
  ghost predicate Deadlock(cfg: Config, s: State)
    requires Shape(cfg, s)
  {
    && !Done(s, 0) && !Done(s, 1)
    && (s.party[0].plan.Sending() <==> s.party[1].plan.Sending())
    && !Ready(cfg, s, 0) && !Ready(cfg, s, 1)
  }

  /** The two ways in which a handshake can be set up so that it may deadlock. */
  ghost predicate Risky(cfg: Config)
    requires cfg.Valid()
  {
    && cfg.sendsFirst[0] == cfg.sendsFirst[1]
    && (cfg.sendsFirst[0] ==>
          |Frame(cfg.address[0])| > cfg.capacity[0] && |Frame(cfg.address[1])| > cfg.capacity[1])
  }

  lemma StuckMeansDeadlock(cfg: Config, s: State)
    requires Inv(cfg, s) && Stuck(cfg, s)
    ensures Finished(s) || (Risky(cfg) && Deadlock(cfg, s))
  {
    assert StreamOk(cfg, s, 0) && StreamOk(cfg, s, 1) && PartyOk(cfg, s, 0) && PartyOk(cfg, s, 1);
    forall p: Role | !Done(s, p)
      ensures !Ready(cfg, s, p)
    {
      if Ready(cfg, s, p) {
        var e := ReadyMoves(cfg, s, p);
      }
    }
    forall p: Role
      ensures s.party[p].sent == |Frame(cfg.address[p])| && |s.party[Peer(p)].got| < s.party[p].sent ==> s.pipe[p] != []
    {
      assert StreamOk(cfg, s, p);
    }
  }

  /** Whoever is done has the peer's address; when both are, nothing is left in the buffers. */
  lemma FinishedHasAddress(cfg: Config, s: State, p: Role)
    requires Inv(cfg, s)
    ensures !s.party[p].failed
    ensures Done(s, p) ==> s.party[p].outcome == Some(cfg.address[Peer(p)])
    ensures Finished(s) ==> s.pipe == [[], []]
  {
    assert StreamOk(cfg, s, p) && StreamOk(cfg, s, Peer(p)) && PartyOk(cfg, s, p) && PartyOk(cfg, s, Peer(p));
    if Finished(s) {
      assert |s.pipe[0]| == 0 && |s.pipe[1]| == 0;
    }
  }

  /**
    The handshake as the connector and the acceptor run it. Whatever the addresses, the buffers, the
    sizes of the reads and writes and the timing: no await throws, every run is finite, and one that
    cannot go on has ended with each side holding exactly the other's address and nothing left unread.
   */
  lemma {:induction false} HandshakeCompletes(cfg: Config, es: seq<Event>, p: Role)
    requires cfg.Valid() && cfg.sendsFirst == [true, false]
    requires IsRun(cfg, Init(cfg), es)
    ensures |es| <= Bound(cfg)
    ensures var s := Exec(cfg, Init(cfg), es);
            && !s.party[p].failed
            && (Done(s, p) ==> s.party[p].outcome == Some(cfg.address[Peer(p)]))
            && (Stuck(cfg, s) ==> Finished(s) && s.pipe == [[], []])
  {
    InitKeeps(cfg);
    RunKeeps(cfg, Init(cfg), es);
    FinishedHasAddress(cfg, Exec(cfg, Init(cfg), es), p);
    StuckIsFinished(cfg, Exec(cfg, Init(cfg), es));
  }

  lemma StuckIsFinished(cfg: Config, s: State)
    requires Inv(cfg, s) && cfg.sendsFirst == [true, false]
    ensures Stuck(cfg, s) ==> Finished(s)
  {
    if Stuck(cfg, s) {
      StuckMeansDeadlock(cfg, s);
    }
  }

  /** Some run ends in a state where neither side can move and not both are done. */
  ghost predicate CanDeadlock(cfg: Config)
    requires cfg.Valid()
  {
    exists es :: IsRun(cfg, Init(cfg), es) && Stuck(cfg, Exec(cfg, Init(cfg), es)) && !Finished(Exec(cfg, Init(cfg), es))
  }

  /**
    What the opposite orders are for. Two parties in the same order can deadlock: always when both
    receive first, and when both send first exactly if neither frame fits into its buffers.
   */
  lemma DeadlockIff(cfg: Config)
    requires cfg.Valid()
    ensures CanDeadlock(cfg) <==> Risky(cfg)
  {
    if CanDeadlock(cfg) {
      var es :| IsRun(cfg, Init(cfg), es) && Stuck(cfg, Exec(cfg, Init(cfg), es)) && !Finished(Exec(cfg, Init(cfg), es));
      InitKeeps(cfg);
      RunKeeps(cfg, Init(cfg), es);
      StuckMeansDeadlock(cfg, Exec(cfg, Init(cfg), es));
    }
    if Risky(cfg) {
      if cfg.sendsFirst[0] {
        FillBoth(cfg);
      } else {
        InitKeeps(cfg);
        SuspendBoth(cfg, Init(cfg));
      }
    }
  }

  /** Two parties that both try in vain end up suspended for ever. */
  lemma {:induction false} SuspendBoth(cfg: Config, s: State)
    requires Inv(cfg, s) && Deadlock(cfg, s) && s.party[0].await.Trying? && s.party[1].await.Trying?
    ensures IsRun(cfg, s, [Suspend(0), Suspend(1)])
    ensures var s' := Exec(cfg, s, [Suspend(0), Suspend(1)]); Stuck(cfg, s') && !Finished(s')
  {
    var s1 := Step(cfg, s, Suspend(0));
    var s2 := Step(cfg, s1, Suspend(1));
    assert [Suspend(0), Suspend(1)][1..] == [Suspend(1)] && [Suspend(1)][1..] == [];
    assert IsRun(cfg, s1, [Suspend(1)]) && Exec(cfg, s1, [Suspend(1)]) == s2;
    assert s2.party[0].await.Suspended? && s2.party[1].await.Suspended?;
  }

  lemma FillBoth(cfg: Config)
    requires cfg.Valid() && cfg.sendsFirst[0] && cfg.sendsFirst[1]
    requires |Frame(cfg.address[0])| > cfg.capacity[0] && |Frame(cfg.address[1])| > cfg.capacity[1]
    ensures CanDeadlock(cfg)
  {
    var s := Init(cfg);
    var e0, e1 := Io(0, cfg.capacity[0]), Io(1, cfg.capacity[1]);
    InitKeeps(cfg);
    var s1 := Step(cfg, s, e0);
    StepKeeps(cfg, s, e0);
    assert s1.party[1] == s.party[1] && s1.pipe[1] == s.pipe[1] && !Done(s1, 0);
    var s2 := Step(cfg, s1, e1);
    StepKeeps(cfg, s1, e1);
    assert s2.party[0] == s1.party[0] && s2.pipe[0] == s1.pipe[0];
    SuspendBoth(cfg, s2);
    var rest := [Suspend(0), Suspend(1)];
    Prepend(cfg, s1, e1, rest);
    Prepend(cfg, s, e0, [e1] + rest);
  }

  lemma {:induction false} Prepend(cfg: Config, s: State, e: Event, es: seq<Event>)
    requires Shape(cfg, s) && Enabled(cfg, s, e) && IsRun(cfg, Step(cfg, s, e), es)
    ensures IsRun(cfg, s, [e] + es) && Exec(cfg, s, [e] + es) == Exec(cfg, Step(cfg, s, e), es)
  {
    assert ([e] + es)[1..] == es;
  }
}
