/**
  Both handshake coroutines at once, each on its own task machine, over the two bounded buffers of one
  connection. What a read or a write does depends on what the peer has done so far.
 */
module HandshakePair {
  import opened Prelude
  import opened Framing
  import opened Coroutine
  import opened TaskMachine
  import opened TaskInvariant
  import opened TaskSteps
  import opened TaskTheorems
  import opened SequentialTasks
  import opened SequentialOrder
  import opened HandshakeTasks
  import opened HandshakeOrder
  import H = Handshake

  type Role = H.Role

  /**
    The two task machines, the bytes on their way from each side to the other, and the account of what
    each side has read and of how many bytes it has written.
   */
  datatype Pair = Pair(tasks: seq<State>, pipe: seq<seq<byte>>, got: seq<seq<byte>>, sent: seq<nat>)

  /** A step of one side; `c` is the result if the step completes an operation. */
  datatype Turn = Turn(p: Role, e: Event, c: Completion)

  ghost predicate Shape(cfg: H.Config, s: Pair) {
    cfg.Valid() && |s.tasks| == |s.pipe| == |s.got| == |s.sent| == 2
  }

  function OwnFrame(cfg: H.Config, p: Role): seq<byte>
    requires |cfg.address| == 2
  {
    Framing.Frame(cfg.address[p])
  }

  function PeerFrame(cfg: H.Config, p: Role): seq<byte>
    requires |cfg.address| == 2
  {
    OwnFrame(cfg, H.Peer(p))
  }

  ghost function Begin(cfg: H.Config, limit: nat): Pair
    requires cfg.Valid()
  {
    Pair(seq(2, (p: nat) requires p < 2 => Init(HandshakeBody(!cfg.sendsFirst[p], cfg.address[p], limit))),
         [[], []], [[], []], [0, 0])
  }

  // --- The connection -----------------------------------------------------------------------------

  predicate IsRead(op: Op) {
    op.id % 2 == 0
  }

  /** All coroutines of a side have finished, and its socket is closed. */
  ghost predicate Ended(t: State) {
    forall f: Id :: !Unfinished(t, f)
  }

  /** The kernel would not answer EAGAIN: there is data, or space, or the peer has closed. */
  ghost predicate Ready(cfg: H.Config, s: Pair, p: Role, op: Op)
    requires Shape(cfg, s)
  {
    Ended(s.tasks[H.Peer(p)]) || if IsRead(op) then s.pipe[H.Peer(p)] != [] else |s.pipe[p]| < cfg.capacity[p]
  }

  /**
    What the kernel may answer: any number of bytes from one up to what is asked for and possible; the
    end of the stream once the peer has closed and nothing is left; an error to a write after that.
   */
  ghost predicate Answers(cfg: H.Config, s: Pair, p: Role, op: Op, c: Completion)
    requires Shape(cfg, s)
  {
    var closed, data := Ended(s.tasks[H.Peer(p)]), s.pipe[H.Peer(p)];
    if IsRead(op) then
      && c.error.None? && c.length == |c.buffer| <= op.length && c.buffer <= data
      && if data == [] then closed else c.length >= 1
    else if closed then c.error.Some?
    else c.error.None? && 1 <= c.length <= op.length && |s.pipe[p]| + c.length <= cfg.capacity[p] && c.buffer == []
  }

  /** An operation completes only as the kernel may answer, and suspends only if it would block. */
  ghost predicate Possible(cfg: H.Config, s: Pair, turn: Turn)
    requires Shape(cfg, s)
  {
    var t := s.tasks[turn.p];
    && Enabled(t, turn.e)
    && (Does(t, turn.e) != [] ==> Answers(cfg, s, turn.p, Does(t, turn.e)[0], turn.c))
    && (turn.e.Run? && Suspends(t, turn.e.timing) ==> !Ready(cfg, s, turn.p, t.heap[t.stack[0]].frame.pc.op))
  }

  /** The bytes of the frame that a write at `at` takes. */
  function Portion(frame: seq<byte>, at: nat, n: nat): seq<byte> {
    if at + n <= |frame| then frame[at..at + n] else []
  }

  ghost function Take(cfg: H.Config, s: Pair, turn: Turn): Pair
    requires Shape(cfg, s) && Possible(cfg, s, turn)
  {
    var p, q, c := turn.p, H.Peer(turn.p), turn.c;
    var done := Does(s.tasks[p], turn.e);
    var s' := s.(tasks := s.tasks[p := Step((op: Op) => c, s.tasks[p], turn.e)]);
    if done == [] || c.error.Some? then s'
    else if IsRead(done[0]) then
      s'.(got := s.got[p := s.got[p] + c.buffer], pipe := s.pipe[q := s.pipe[q][|c.buffer|..]])
    else
      s'.(sent := s.sent[p := s.sent[p] + c.length],
          pipe := s.pipe[p := s.pipe[p] + Portion(OwnFrame(cfg, p), done[0].id / 2, c.length)])
  }

  ghost predicate IsSession(cfg: H.Config, s: Pair, turns: seq<Turn>)
    requires Shape(cfg, s)
    decreases |turns|
  {
    turns == [] || (Possible(cfg, s, turns[0]) && IsSession(cfg, Take(cfg, s, turns[0]), turns[1..]))
  }

  ghost function After(cfg: H.Config, s: Pair, turns: seq<Turn>): (s': Pair)
    requires Shape(cfg, s) && IsSession(cfg, s, turns)
    ensures Shape(cfg, s')
    decreases |turns|
  {
    if turns == [] then s else After(cfg, Take(cfg, s, turns[0]), turns[1..])
  }

  /** Neither side has a step to take, whatever the kernel may answer. */
  ghost predicate Stuck(cfg: H.Config, s: Pair)
    requires Shape(cfg, s)
  {
    forall turn :: !Possible(cfg, s, turn)
  }

  // --- Sessions and oracles -----------------------------------------------------------------------

  /** Oracles that have foreseen the results of a session. */
  ghost predicate Foreseen(cfg: H.Config, orcs: seq<Oracle>, s: Pair, turns: seq<Turn>)
    requires Shape(cfg, s) && IsSession(cfg, s, turns) && |orcs| == 2
    decreases |turns|
  {
    turns == []
    || ((Does(s.tasks[turns[0].p], turns[0].e) != [] ==>
           orcs[turns[0].p](Does(s.tasks[turns[0].p], turns[0].e)[0]) == turns[0].c)
        && Foreseen(cfg, orcs, Take(cfg, s, turns[0]), turns[1..]))
  }

  /** A step depends on no result but that of the operation it completes. */
  lemma {:induction false} SameStep(orc: Oracle, orc': Oracle, t: State, e: Event)
    requires Enabled(t, e) && (Does(t, e) != [] ==> orc(Does(t, e)[0]) == orc'(Does(t, e)[0]))
    ensures Step(orc, t, e) == Step(orc', t, e)
  {
  }

  // --- One side -----------------------------------------------------------------------------------

  /** Results that the connection can give a side whose peer sends its frame, and does not break. */
  ghost predicate Fitting(cfg: H.Config, limit: nat, orc: Oracle, p: Role)
    requires cfg.Valid()
  {
    |cfg.address[H.Peer(p)]| <= limit && KernelContract(orc, PeerFrame(cfg, p)) && NoErrors(orc)
  }

  /** A side has read the first bytes of its peer's frame and written some of its own. */
  ghost predicate Within(cfg: H.Config, p: Role, got: seq<byte>, sent: nat)
    requires cfg.Valid()
  {
    |got| <= |PeerFrame(cfg, p)| && got == PeerFrame(cfg, p)[..|got|] && sent <= |OwnFrame(cfg, p)|
  }

  /** The operation that such a side has to do next. */
  ghost predicate Next(cfg: H.Config, limit: nat, p: Role, got: seq<byte>, sent: nat, op: Op)
    requires cfg.Valid()
  {
    var accepting, size, peerSize := !cfg.sendsFirst[p], |OwnFrame(cfg, p)|, |PeerFrame(cfg, p)|;
    || (ReadsNow(accepting, size, peerSize, |got|, sent) && op == Recv(|got|, Wanted(got, limit)))
    || (SendsNow(accepting, size, peerSize, |got|, sent) && op == SendOp(sent, size - sent))
  }

  /** The account of a side that has done nothing, or one operation with the result `c`. */
  function GotAfter(got: seq<byte>, done: seq<Op>, c: Completion): seq<byte> {
    if done != [] && IsRead(done[0]) then got + c.buffer else got
  }

  function SentAfter(sent: nat, done: seq<Op>, c: Completion): nat {
    if done != [] && !IsRead(done[0]) then sent + c.length else sent
  }

  /** The result of what a step does, or any if it does nothing. */
  ghost function ResultOf(orc: Oracle, done: seq<Op>): Completion {
    if done == [] then Completion(None, 0, 0, []) else orc(done[0])
  }

  lemma {:induction false} SameHead(op: Op, rest: seq<Op>, op': Op, rest': seq<Op>)
    requires [op] + rest == [op'] + rest'
    ensures op == op' && rest == rest'
  {
    assert ([op] + rest)[0] == op && ([op'] + rest')[0] == op';
    assert rest == ([op] + rest)[1..] && rest' == ([op'] + rest')[1..];
  }

  lemma {:induction false} ReadSplits(cfg: H.Config, limit: nat, orc: Oracle, p: Role, got: seq<byte>, sent: nat,
                                      op: Op, rest: seq<Op>)
    requires cfg.Valid() && Fitting(cfg, limit, orc, p) && Within(cfg, p, got, sent)
    requires ReadsNow(!cfg.sendsFirst[p], |OwnFrame(cfg, p)|, |PeerFrame(cfg, p)|, |got|, sent)
    requires Left(orc, !cfg.sendsFirst[p], |OwnFrame(cfg, p)|, got, sent, limit) == [op] + rest
    ensures op == Recv(|got|, Wanted(got, limit)) && Within(cfg, p, got + orc(op).buffer, sent) && orc(op).buffer != []
    ensures rest == Left(orc, !cfg.sendsFirst[p], |OwnFrame(cfg, p)|, got + orc(op).buffer, sent, limit)
  {
    var accepting, peer, at := !cfg.sendsFirst[p], cfg.address[H.Peer(p)], |got|;
    var size, frame, next := |OwnFrame(cfg, p)|, PeerFrame(cfg, p), Recv(at, Wanted(got, limit));
    LeftReads(orc, accepting, size, peer, at, sent, limit);
    WantedOfFrame(orc, peer, at, limit);
    SameHead(op, rest, next, Left(orc, accepting, size, frame[..at + orc(next).length], sent, limit));
    assert ReadsFrom(orc(op), frame, at, Wanted(got, limit));
    assert got + orc(op).buffer == frame[..at + orc(op).length];
  }

  lemma {:induction false} SendSplits(cfg: H.Config, limit: nat, orc: Oracle, p: Role, got: seq<byte>, sent: nat,
                                      op: Op, rest: seq<Op>)
    requires cfg.Valid() && Fitting(cfg, limit, orc, p) && Within(cfg, p, got, sent)
    requires SendsNow(!cfg.sendsFirst[p], |OwnFrame(cfg, p)|, |PeerFrame(cfg, p)|, |got|, sent)
    requires Left(orc, !cfg.sendsFirst[p], |OwnFrame(cfg, p)|, got, sent, limit) == [op] + rest
    ensures op == SendOp(sent, |OwnFrame(cfg, p)| - sent) && 1 <= orc(op).length <= |OwnFrame(cfg, p)| - sent
    ensures rest == Left(orc, !cfg.sendsFirst[p], |OwnFrame(cfg, p)|, got, sent + orc(op).length, limit)
  {
    var accepting, size := !cfg.sendsFirst[p], |OwnFrame(cfg, p)|;
    var next := SendOp(sent, size - sent);
    LeftSends(orc, accepting, size, cfg.address[H.Peer(p)], |got|, sent, limit);
    SameHead(op, rest, next, Left(orc, accepting, size, got, sent + orc(next).length, limit));
  }

  lemma {:induction false} LeftSplits(cfg: H.Config, limit: nat, orc: Oracle, p: Role, got: seq<byte>, sent: nat,
                                      op: Op, rest: seq<Op>)
    requires cfg.Valid() && Fitting(cfg, limit, orc, p) && Within(cfg, p, got, sent)
    requires Left(orc, !cfg.sendsFirst[p], |OwnFrame(cfg, p)|, got, sent, limit) == [op] + rest
    ensures Next(cfg, limit, p, got, sent, op)
    ensures var got', sent' := GotAfter(got, [op], orc(op)), SentAfter(sent, [op], orc(op));
            && Within(cfg, p, got', sent')
            && rest == Left(orc, !cfg.sendsFirst[p], |OwnFrame(cfg, p)|, got', sent', limit)
  {
    var accepting, size, frame := !cfg.sendsFirst[p], |OwnFrame(cfg, p)|, PeerFrame(cfg, p);
    if ReadsNow(accepting, size, |frame|, |got|, sent) {
      ReadSplits(cfg, limit, orc, p, got, sent, op, rest);
    } else if SendsNow(accepting, size, |frame|, |got|, sent) {
      SendSplits(cfg, limit, orc, p, got, sent, op, rest);
    } else {
      assert frame[..|frame|] == frame;
      LeftEnds(orc, accepting, size, cfg.address[H.Peer(p)], limit);
    }
  }

  ghost predicate SideOk(cfg: H.Config, limit: nat, orc: Oracle, p: Role, t: State, g: seq<Spec>, got: seq<byte>, sent: nat)
    requires cfg.Valid()
  {
    && Fitting(cfg, limit, orc, p) && Within(cfg, p, got, sent)
    && Inv(orc, t, g) && Chain(t) && g[0].outcome == Returned(Bytes(cfg.address[H.Peer(p)]))
    && Rest(orc, t, g, |g|) == Left(orc, !cfg.sendsFirst[p], |OwnFrame(cfg, p)|, got, sent, limit)
  }

  ghost function SideEffort(orc: Oracle, t: State, g: seq<Spec>): nat {
    if |g| == |t.heap| then Measure(orc, t, g) else 0
  }

  /** A step of the task machine, and what it does. */
  lemma SideSteps(orc: Oracle, t: State, g: seq<Spec>, e: Event) returns (g': seq<Spec>)
    requires Inv(orc, t, g) && Chain(t) && Enabled(t, e)
    ensures var t' := Step(orc, t, e);
            && Inv(orc, t', g') && Chain(t') && g'[0].outcome == g[0].outcome
            && Measure(orc, t', g') < Measure(orc, t, g)
            && Rest(orc, t, g, |g|) == Does(t, e) + Rest(orc, t', g', |g'|)
  {
    StepKeepsChain(orc, t, g, e);
    SequentialDestroysFinished(orc, t, g);
    g' := StepAdvances(orc, t, g, e);
    StepOrder(orc, t, g, e, Step(orc, t, e), g');
  }

  lemma {:induction false} SideKeeps(cfg: H.Config, limit: nat, orc: Oracle, p: Role, t: State, g: seq<Spec>,
                                     got: seq<byte>, sent: nat, e: Event) returns (g': seq<Spec>)
    requires cfg.Valid() && SideOk(cfg, limit, orc, p, t, g, got, sent) && Enabled(t, e)
    ensures SideEffort(orc, Step(orc, t, e), g') < SideEffort(orc, t, g)
    ensures var done := Does(t, e);
            && (done != [] ==> Next(cfg, limit, p, got, sent, done[0]))
            && SideOk(cfg, limit, orc, p, Step(orc, t, e), g',
                      GotAfter(got, done, ResultOf(orc, done)), SentAfter(sent, done, ResultOf(orc, done)))
  {
    g' := SideSteps(orc, t, g, e);
    var done := Does(t, e);
    if done != [] {
      assert done == [done[0]];
      LeftSplits(cfg, limit, orc, p, got, sent, done[0], Rest(orc, Step(orc, t, e), g', |g'|));
    }
  }

  // --- Both sides ---------------------------------------------------------------------------------

  /** What one side has read and what is on its way are the first bytes of its peer's frame. */
  ghost predicate StreamOk(cfg: H.Config, s: Pair, p: Role)
    requires Shape(cfg, s)
  {
    && |s.pipe[p]| <= cfg.capacity[p] && s.sent[p] <= |OwnFrame(cfg, p)|
    && s.got[H.Peer(p)] + s.pipe[p] == OwnFrame(cfg, p)[..s.sent[p]]
  }

  ghost predicate PartOk(cfg: H.Config, limit: nat, orcs: seq<Oracle>, s: Pair, gs: seq<seq<Spec>>, p: Role)
    requires Shape(cfg, s) && |orcs| == |gs| == 2
  {
    SideOk(cfg, limit, orcs[p], p, s.tasks[p], gs[p], s.got[p], s.sent[p]) && StreamOk(cfg, s, p)
  }

  ghost predicate PairOk(cfg: H.Config, limit: nat, orcs: seq<Oracle>, s: Pair, gs: seq<seq<Spec>>) {
    && Shape(cfg, s) && |orcs| == |gs| == 2
    && PartOk(cfg, limit, orcs, s, gs, 0) && PartOk(cfg, limit, orcs, s, gs, 1)
  }

  /** The results of a turn are the foreseen ones. */
  ghost predicate Expected(orcs: seq<Oracle>, s: Pair, turn: Turn)
    requires |orcs| == |s.tasks| == 2
  {
    Does(s.tasks[turn.p], turn.e) != [] ==> orcs[turn.p](Does(s.tasks[turn.p], turn.e)[0]) == turn.c
  }

  /** What a turn changes of the two sides. */
  lemma {:induction false} TurnOfSide(cfg: H.Config, orcs: seq<Oracle>, s: Pair, turn: Turn)
    requires Shape(cfg, s) && |orcs| == 2 && Possible(cfg, s, turn) && Expected(orcs, s, turn)
    requires Does(s.tasks[turn.p], turn.e) != [] ==> turn.c.error.None?
    ensures var s', p, q, done := Take(cfg, s, turn), turn.p, H.Peer(turn.p), Does(s.tasks[turn.p], turn.e);
            && s'.tasks == s.tasks[p := Step(orcs[p], s.tasks[p], turn.e)]
            && s'.got[q] == s.got[q] && s'.sent[q] == s.sent[q]
            && s'.got[p] == GotAfter(s.got[p], done, ResultOf(orcs[p], done))
            && s'.sent[p] == SentAfter(s.sent[p], done, ResultOf(orcs[p], done))
            && (done == [] ==> s' == s.(tasks := s'.tasks))
            && (done != [] ==>
                  && ResultOf(orcs[p], done) == turn.c
                  && (if IsRead(done[0]) then s'.pipe == s.pipe[q := s.pipe[q][|turn.c.buffer|..]]
                      else s'.pipe == s.pipe[p := s.pipe[p] + Portion(OwnFrame(cfg, p), done[0].id / 2, turn.c.length)]))
  {
    SameStep((op: Op) => turn.c, orcs[turn.p], s.tasks[turn.p], turn.e);
  }

  /** A read takes what is first in the buffer. */
  lemma {:induction false} ReadKeepsStreams(cfg: H.Config, s: Pair, s': Pair, p: Role, data: seq<byte>)
    requires Shape(cfg, s) && StreamOk(cfg, s, p) && StreamOk(cfg, s, H.Peer(p)) && data <= s.pipe[H.Peer(p)]
    requires Shape(cfg, s') && s'.sent == s.sent && s'.got[p] == s.got[p] + data && s'.got[H.Peer(p)] == s.got[H.Peer(p)]
    requires s'.pipe == s.pipe[H.Peer(p) := s.pipe[H.Peer(p)][|data|..]]
    ensures StreamOk(cfg, s', p) && StreamOk(cfg, s', H.Peer(p))
  {
    assert data + s.pipe[H.Peer(p)][|data|..] == s.pipe[H.Peer(p)];
  }

  /** A write adds what comes next in the frame. */
  lemma {:induction false} WriteKeepsStreams(cfg: H.Config, s: Pair, s': Pair, p: Role, n: nat)
    requires Shape(cfg, s) && StreamOk(cfg, s, p) && StreamOk(cfg, s, H.Peer(p))
    requires s.sent[p] + n <= |OwnFrame(cfg, p)| && |s.pipe[p]| + n <= cfg.capacity[p]
    requires Shape(cfg, s') && s'.got == s.got && s'.sent[p] == s.sent[p] + n && s'.sent[H.Peer(p)] == s.sent[H.Peer(p)]
    requires s'.pipe == s.pipe[p := s.pipe[p] + OwnFrame(cfg, p)[s.sent[p]..s.sent[p] + n]]
    ensures StreamOk(cfg, s', p) && StreamOk(cfg, s', H.Peer(p))
  {
    var frame, q := OwnFrame(cfg, p), H.Peer(p);
    assert s.got[q] + (s.pipe[p] + frame[s.sent[p]..s.sent[p] + n]) == frame[..s.sent[p]] + frame[s.sent[p]..s.sent[p] + n];
  }

  lemma {:induction false} TurnKeepsStreams(cfg: H.Config, limit: nat, orcs: seq<Oracle>, s: Pair, turn: Turn)
    requires Shape(cfg, s) && |orcs| == 2 && Possible(cfg, s, turn) && Expected(orcs, s, turn)
    requires StreamOk(cfg, s, turn.p) && StreamOk(cfg, s, H.Peer(turn.p))
    requires Within(cfg, turn.p, s.got[turn.p], s.sent[turn.p])
    requires var done := Does(s.tasks[turn.p], turn.e);
             done != [] ==> turn.c.error.None? && Next(cfg, limit, turn.p, s.got[turn.p], s.sent[turn.p], done[0])
                            && SentAfter(s.sent[turn.p], done, turn.c) <= |OwnFrame(cfg, turn.p)|
    ensures var s' := Take(cfg, s, turn); StreamOk(cfg, s', turn.p) && StreamOk(cfg, s', H.Peer(turn.p))
  {
    var p, q, done := turn.p, H.Peer(turn.p), Does(s.tasks[turn.p], turn.e);
    TurnOfSide(cfg, orcs, s, turn);
    if done != [] {
      assert Answers(cfg, s, p, done[0], turn.c);
      if IsRead(done[0]) {
        ReadKeepsStreams(cfg, s, Take(cfg, s, turn), p, turn.c.buffer);
      } else {
        WriteKeepsStreams(cfg, s, Take(cfg, s, turn), p, turn.c.length);
      }
    }
  }

  ghost function Effort(orcs: seq<Oracle>, s: Pair, gs: seq<seq<Spec>>): nat
    requires |orcs| == |s.tasks| == |gs| == 2
  {
    SideEffort(orcs[0], s.tasks[0], gs[0]) + SideEffort(orcs[1], s.tasks[1], gs[1])
  }

  lemma {:induction false} PartsOf(cfg: H.Config, limit: nat, orcs: seq<Oracle>, s: Pair, gs: seq<seq<Spec>>, p: Role)
    requires Shape(cfg, s) && |orcs| == |gs| == 2
    ensures PairOk(cfg, limit, orcs, s, gs) <==> PartOk(cfg, limit, orcs, s, gs, p) && PartOk(cfg, limit, orcs, s, gs, H.Peer(p))
  {
    assert p == 0 || p == 1;
  }

  /** One side moves on, and the other stays as it is. */
  lemma {:induction false} OneSideMoves(cfg: H.Config, limit: nat, orcs: seq<Oracle>, s: Pair, gs: seq<seq<Spec>>, s': Pair,
                                        p: Role, t': State, g': seq<Spec>)
    requires Shape(cfg, s) && Shape(cfg, s') && |orcs| == |gs| == 2 && PartOk(cfg, limit, orcs, s, gs, H.Peer(p))
    requires s'.tasks == s.tasks[p := t'] && s'.got[H.Peer(p)] == s.got[H.Peer(p)] && s'.sent[H.Peer(p)] == s.sent[H.Peer(p)]
    requires SideOk(cfg, limit, orcs[p], p, t', g', s'.got[p], s'.sent[p]) && StreamOk(cfg, s', p)
    requires StreamOk(cfg, s', H.Peer(p))
    requires SideEffort(orcs[p], t', g') < SideEffort(orcs[p], s.tasks[p], gs[p])
    ensures PairOk(cfg, limit, orcs, s', gs[p := g']) && Effort(orcs, s', gs[p := g']) < Effort(orcs, s, gs)
  {
    PartsOf(cfg, limit, orcs, s', gs[p := g'], p);
    assert p == 0 || p == 1;
  }

  lemma {:induction false} TurnKeepsSide(cfg: H.Config, limit: nat, orcs: seq<Oracle>, s: Pair, gs: seq<seq<Spec>>,
                                         turn: Turn)
    returns (g': seq<Spec>)
    requires Shape(cfg, s) && |orcs| == |gs| == 2 && Possible(cfg, s, turn) && Expected(orcs, s, turn)
    requires PartOk(cfg, limit, orcs, s, gs, turn.p)
    ensures var s', p := Take(cfg, s, turn), turn.p;
            && SideOk(cfg, limit, orcs[p], p, Step(orcs[p], s.tasks[p], turn.e), g', s'.got[p], s'.sent[p])
            && SideEffort(orcs[p], Step(orcs[p], s.tasks[p], turn.e), g') < SideEffort(orcs[p], s.tasks[p], gs[p])
    ensures var p, done := turn.p, Does(s.tasks[turn.p], turn.e);
            done != [] ==>
              && turn.c.error.None? && Next(cfg, limit, p, s.got[p], s.sent[p], done[0])
              && SentAfter(s.sent[p], done, turn.c) <= |OwnFrame(cfg, p)|
  {
    var p := turn.p;
    g' := SideKeeps(cfg, limit, orcs[p], p, s.tasks[p], gs[p], s.got[p], s.sent[p], turn.e);
    TurnOfSide(cfg, orcs, s, turn);
  }

  /**
    A turn keeps both sides and both streams, and takes something off what is left to do. What it
    completes is what its side has to do next.
   */
  lemma {:induction false} TurnKeeps(cfg: H.Config, limit: nat, orcs: seq<Oracle>, s: Pair, gs: seq<seq<Spec>>, turn: Turn)
    returns (gs': seq<seq<Spec>>)
    requires PairOk(cfg, limit, orcs, s, gs) && Possible(cfg, s, turn) && Expected(orcs, s, turn)
    ensures PairOk(cfg, limit, orcs, Take(cfg, s, turn), gs')
    ensures Effort(orcs, Take(cfg, s, turn), gs') < Effort(orcs, s, gs)
    ensures Does(s.tasks[turn.p], turn.e) != [] ==>
              Next(cfg, limit, turn.p, s.got[turn.p], s.sent[turn.p], Does(s.tasks[turn.p], turn.e)[0])
  {
    var p := turn.p;
    PartsOf(cfg, limit, orcs, s, gs, p);
    var g' := TurnKeepsSide(cfg, limit, orcs, s, gs, turn);
    gs' := gs[p := g'];
    TurnOfSide(cfg, orcs, s, turn);
    TurnKeepsStreams(cfg, limit, orcs, s, turn);
    OneSideMoves(cfg, limit, orcs, s, gs, Take(cfg, s, turn), p, Step(orcs[p], s.tasks[p], turn.e), g');
  }

  lemma {:induction false} SessionKeeps(cfg: H.Config, limit: nat, orcs: seq<Oracle>, s: Pair, gs: seq<seq<Spec>>,
                                        turns: seq<Turn>)
    returns (gs': seq<seq<Spec>>)
    requires PairOk(cfg, limit, orcs, s, gs) && IsSession(cfg, s, turns) && Foreseen(cfg, orcs, s, turns)
    ensures PairOk(cfg, limit, orcs, After(cfg, s, turns), gs')
    ensures |turns| + Effort(orcs, After(cfg, s, turns), gs') <= Effort(orcs, s, gs)
    decreases |turns|
  {
    gs' := gs;
    if turns != [] {
      gs' := TurnKeeps(cfg, limit, orcs, s, gs, turns[0]);
      gs' := SessionKeeps(cfg, limit, orcs, Take(cfg, s, turns[0]), gs', turns[1..]);
    }
  }
}
