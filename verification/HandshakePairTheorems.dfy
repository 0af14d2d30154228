/** The handshake of two coroutines always ends, with both addresses exchanged. */
module HandshakePairTheorems {
  import opened Prelude
  import opened Framing
  import opened Coroutine
  import opened TaskMachine
  import opened TaskInvariant
  import opened TaskSteps
  import opened TaskTheorems
  import opened SequentialTasks
  import opened SequentialOrder
  import opened HandshakeTasks
  import opened HandshakeOrder
  import opened HandshakePair
  import H = Handshake

  // --- Every session has been foreseen by some oracles --------------------------------------------

  /** A side that has finished has read and written everything. */
  lemma {:induction false} EndedMeansAll(cfg: H.Config, limit: nat, orc: Oracle, p: Role, t: State, g: seq<Spec>,
                                         got: seq<byte>, sent: nat)
    requires cfg.Valid() && SideOk(cfg, limit, orc, p, t, g, got, sent) && Rest(orc, t, g, |g|) == []
    ensures |got| == |PeerFrame(cfg, p)| && sent == |OwnFrame(cfg, p)|
  {
    var accepting, size, peer := !cfg.sendsFirst[p], |OwnFrame(cfg, p)|, cfg.address[H.Peer(p)];
    if ReadsNow(accepting, size, |PeerFrame(cfg, p)|, |got|, sent) {
      LeftReads(orc, accepting, size, peer, |got|, sent, limit);
    } else if SendsNow(accepting, size, |PeerFrame(cfg, p)|, |got|, sent) {
      LeftSends(orc, accepting, size, peer, |got|, sent, limit);
    }
  }

  /** Nor has its peer, of what it wrote. */
  lemma {:induction false} NothingPending(cfg: H.Config, limit: nat, s: Pair, p: Role, op: Op)
    requires Shape(cfg, s) && StreamOk(cfg, s, p) && StreamOk(cfg, s, H.Peer(p))
    requires |s.got[H.Peer(p)]| == |OwnFrame(cfg, p)| && s.sent[H.Peer(p)] == |PeerFrame(cfg, p)|
    requires Next(cfg, limit, p, s.got[p], s.sent[p], op)
    ensures IsRead(op) && s.pipe[H.Peer(p)] != []
  {
    var q := H.Peer(p);
    assert |s.got[q] + s.pipe[p]| == s.sent[p] && |s.got[p] + s.pipe[q]| == s.sent[q];
  }

  /** Whoever still has something to do does not meet a closed connection. */
  lemma {:induction false} NeverClosed(cfg: H.Config, limit: nat, orcs: seq<Oracle>, s: Pair, gs: seq<seq<Spec>>,
                                       p: Role, op: Op)
    requires PairOk(cfg, limit, orcs, s, gs) && Ended(s.tasks[H.Peer(p)])
    requires Next(cfg, limit, p, s.got[p], s.sent[p], op)
    ensures IsRead(op) && s.pipe[H.Peer(p)] != []
  {
    var q := H.Peer(p);
    PartsOf(cfg, limit, orcs, s, gs, p);
    FinishedRest(orcs[q], s.tasks[q], gs[q], |gs[q]|);
    EndedMeansAll(cfg, limit, orcs[q], q, s.tasks[q], gs[q], s.got[q], s.sent[q]);
    NothingPending(cfg, limit, s, p, op);
  }

  /** What a step does is what its side has to do next, whatever the result. */
  lemma {:induction false} DoesNext(cfg: H.Config, limit: nat, orcs: seq<Oracle>, s: Pair, gs: seq<seq<Spec>>, p: Role,
                                    e: Event)
    requires PairOk(cfg, limit, orcs, s, gs) && Enabled(s.tasks[p], e) && Does(s.tasks[p], e) != []
    ensures Next(cfg, limit, p, s.got[p], s.sent[p], Does(s.tasks[p], e)[0])
  {
    PartsOf(cfg, limit, orcs, s, gs, p);
    var g' := SideKeeps(cfg, limit, orcs[p], p, s.tasks[p], gs[p], s.got[p], s.sent[p], e);
  }

  lemma {:induction false} BufferIsNext(frame: seq<byte>, got: seq<byte>, pipe: seq<byte>, sent: nat, data: seq<byte>)
    requires sent <= |frame| && got + pipe == frame[..sent] && data <= pipe
    ensures |got| + |data| <= |frame| && data == frame[|got|..|got| + |data|]
  {
    assert data == (got + pipe)[|got|..|got| + |data|];
  }

  /** What the kernel answers is what the contract of the task machine's oracles allows. */
  lemma {:induction false} AnswerFits(cfg: H.Config, s: Pair, p: Role, op: Op, c: Completion)
    requires Shape(cfg, s) && StreamOk(cfg, s, H.Peer(p)) && Answers(cfg, s, p, op, c)
    requires Ended(s.tasks[H.Peer(p)]) ==> IsRead(op) && s.pipe[H.Peer(p)] != []
    ensures c.error.None? && c.length >= 1
    ensures if IsRead(op) then |s.got[p]| <= |PeerFrame(cfg, p)| && ReadsFrom(c, PeerFrame(cfg, p), |s.got[p]|, op.length)
            else Writes(c, op.length)
  {
    if IsRead(op) {
      BufferIsNext(PeerFrame(cfg, p), s.got[p], s.pipe[H.Peer(p)], s.sent[H.Peer(p)], c.buffer);
    }
  }

  /** The result of a turn is one that the side's oracle could have given. */
  lemma {:induction false} ResultFits(cfg: H.Config, limit: nat, orcs: seq<Oracle>, s: Pair, gs: seq<seq<Spec>>, turn: Turn)
    requires PairOk(cfg, limit, orcs, s, gs) && Possible(cfg, s, turn) && Does(s.tasks[turn.p], turn.e) != []
    ensures var p, op := turn.p, Does(s.tasks[turn.p], turn.e)[0];
            && Next(cfg, limit, p, s.got[p], s.sent[p], op) && turn.c.error.None? && turn.c.length >= 1
            && (if IsRead(op) then |s.got[p]| <= |PeerFrame(cfg, p)| && ReadsFrom(turn.c, PeerFrame(cfg, p), |s.got[p]|, op.length)
                else Writes(turn.c, op.length))
  {
    var p, op := turn.p, Does(s.tasks[turn.p], turn.e)[0];
    DoesNext(cfg, limit, orcs, s, gs, p, turn.e);
    if Ended(s.tasks[H.Peer(p)]) {
      NeverClosed(cfg, limit, orcs, s, gs, p, op);
    }
    PartsOf(cfg, limit, orcs, s, gs, p);
    AnswerFits(cfg, s, p, op, turn.c);
  }

  function Updated(orc: Oracle, op: Op, c: Completion): Oracle {
    (o: Op) => if o == op then c else orc(o)
  }

  /** An operation at a position that the account has passed. */
  predicate Past(op: Op, got: nat, sent: nat) {
    op.id / 2 < if IsRead(op) then got else sent
  }

  lemma {:induction false} NextPasses(cfg: H.Config, limit: nat, p: Role, got: seq<byte>, sent: nat, op: Op, c: Completion)
    requires cfg.Valid() && Next(cfg, limit, p, got, sent, op) && if IsRead(op) then c.buffer != [] else c.length > 0
    ensures Past(op, |GotAfter(got, [op], c)|, SentAfter(sent, [op], c))
  {
  }

  lemma {:induction false} NextIsNotPast(cfg: H.Config, limit: nat, p: Role, got: seq<byte>, sent: nat, op: Op)
    requires cfg.Valid() && Next(cfg, limit, p, got, sent, op)
    ensures !Past(op, |got|, sent)
  {
  }

  lemma {:induction false} UpdatedFits(cfg: H.Config, limit: nat, orc: Oracle, p: Role, op: Op, c: Completion)
    requires cfg.Valid() && Fitting(cfg, limit, orc, p) && c.error.None?
    requires IsRead(op) ==> op.id / 2 <= |PeerFrame(cfg, p)| && ReadsFrom(c, PeerFrame(cfg, p), op.id / 2, op.length)
    requires !IsRead(op) ==> Writes(c, op.length)
    ensures Fitting(cfg, limit, Updated(orc, op, c), p)
  {
  }

  /** Accounts never shrink, and what a turn does is past afterwards. */
  lemma {:induction false} TurnGrows(cfg: H.Config, s: Pair, turn: Turn, p: Role)
    requires Shape(cfg, s) && Possible(cfg, s, turn)
    ensures var s' := Take(cfg, s, turn); |s.got[p]| <= |s'.got[p]| && s.sent[p] <= s'.sent[p]
  {
  }

  lemma {:induction false} TurnPasses(cfg: H.Config, limit: nat, orcs: seq<Oracle>, s: Pair, gs: seq<seq<Spec>>, turn: Turn)
    requires PairOk(cfg, limit, orcs, s, gs) && Possible(cfg, s, turn) && Expected(orcs, s, turn)
    requires Does(s.tasks[turn.p], turn.e) != []
    ensures var s', p := Take(cfg, s, turn), turn.p; Past(Does(s.tasks[p], turn.e)[0], |s'.got[p]|, s'.sent[p])
  {
    var p, op := turn.p, Does(s.tasks[turn.p], turn.e)[0];
    ResultFits(cfg, limit, orcs, s, gs, turn);
    NextPasses(cfg, limit, p, s.got[p], s.sent[p], op, turn.c);
    TurnOfSide(cfg, orcs, s, turn);
  }

  lemma {:induction false} SessionGrows(cfg: H.Config, s: Pair, turns: seq<Turn>, p: Role)
    requires Shape(cfg, s) && IsSession(cfg, s, turns)
    ensures var s' := After(cfg, s, turns); |s.got[p]| <= |s'.got[p]| && s.sent[p] <= s'.sent[p]
    decreases |turns|
  {
    if turns != [] {
      TurnGrows(cfg, s, turns[0], p);
      SessionGrows(cfg, Take(cfg, s, turns[0]), turns[1..], p);
    }
  }

  /** A session does not depend on the result of an operation that it has not come to. */
  lemma {:induction false} StaysForeseen(cfg: H.Config, limit: nat, orcs: seq<Oracle>, s: Pair, gs: seq<seq<Spec>>,
                                         turns: seq<Turn>,
                                         p: Role, op: Op, c: Completion)
    requires PairOk(cfg, limit, orcs, s, gs) && IsSession(cfg, s, turns) && Foreseen(cfg, orcs, s, turns)
    requires var s' := After(cfg, s, turns); !Past(op, |s'.got[p]|, s'.sent[p])
    ensures Foreseen(cfg, orcs[p := Updated(orcs[p], op, c)], s, turns)
    decreases |turns|
  {
    if turns != [] {
      var s1 := Take(cfg, s, turns[0]);
      var gs1 := TurnKeeps(cfg, limit, orcs, s, gs, turns[0]);
      StaysForeseen(cfg, limit, orcs, s1, gs1, turns[1..], p, op, c);
      if turns[0].p == p && Does(s.tasks[p], turns[0].e) != [] {
        TurnPasses(cfg, limit, orcs, s, gs, turns[0]);
        SessionGrows(cfg, s1, turns[1..], p);
      }
    }
  }

  lemma {:induction false} SessionSplits(cfg: H.Config, s: Pair, turns: seq<Turn>, n: nat)
    requires Shape(cfg, s) && IsSession(cfg, s, turns) && |turns| == n + 1
    ensures IsSession(cfg, s, turns[..n]) && Possible(cfg, After(cfg, s, turns[..n]), turns[n])
    ensures After(cfg, s, turns) == Take(cfg, After(cfg, s, turns[..n]), turns[n])
    decreases n
  {
    if n == 0 {
      assert turns[..0] == [] && turns[1..] == [];
      assert After(cfg, Take(cfg, s, turns[0]), turns[1..]) == Take(cfg, s, turns[0]);
    } else {
      var rest := turns[1..];
      SessionSplits(cfg, Take(cfg, s, turns[0]), rest, n - 1);
      assert turns[..n][1..] == rest[..n - 1] && turns[n] == rest[n - 1];
      assert turns[..n][0] == turns[0];
    }
  }

  lemma {:induction false} ForeseenExtends(cfg: H.Config, orcs: seq<Oracle>, s: Pair, turns: seq<Turn>, n: nat)
    requires Shape(cfg, s) && IsSession(cfg, s, turns) && |orcs| == 2 && |turns| == n + 1 && IsSession(cfg, s, turns[..n])
    requires Foreseen(cfg, orcs, s, turns[..n]) && Expected(orcs, After(cfg, s, turns[..n]), turns[n])
    ensures Foreseen(cfg, orcs, s, turns)
    decreases n
  {
    if n == 0 {
      assert turns[..0] == [] && turns[1..] == [];
    } else {
      var rest := turns[1..];
      assert turns[..n][1..] == rest[..n - 1] && turns[n] == rest[n - 1];
      assert turns[..n][0] == turns[0];
      ForeseenExtends(cfg, orcs, Take(cfg, s, turns[0]), rest, n - 1);
    }
  }

  /** A kernel that does as much as it is asked for. */
  ghost function DefaultOracle(input: seq<byte>): Oracle {
    (op: Op) =>
      var at := op.id / 2;
      if !IsRead(op) || at > |input| then Completion(None, op.length, 0, [])
      else
        var n := if op.length <= |input| - at then op.length else |input| - at;
        Completion(None, n, 0, input[at..at + n])
  }

  lemma {:induction false} DefaultFits(input: seq<byte>)
    ensures KernelContract(DefaultOracle(input), input) && NoErrors(DefaultOracle(input))
  {
    var orc := DefaultOracle(input);
    forall at: nat, length: nat | at <= |input| && length > 0
      ensures ReadsFrom(orc(Recv(at, length)), input, at, length)
    {
      assert IsRead(Recv(at, length)) && Recv(at, length).id / 2 == at;
    }
    forall at: nat, length: nat | length > 0
      ensures Writes(orc(SendOp(at, length)), length)
    {
      assert !IsRead(SendOp(at, length));
    }
  }

  lemma {:induction false} BeginSide(cfg: H.Config, limit: nat, orc: Oracle, p: Role) returns (g: seq<Spec>)
    requires cfg.Valid() && Fitting(cfg, limit, orc, p)
    ensures var root := HandshakeBody(!cfg.sendsFirst[p], cfg.address[p], limit);
            && SideOk(cfg, limit, orc, p, Init(root), g, [], 0)
            && SideEffort(orc, Init(root), g) == Cost(orc, root, [])
  {
    var accepting, address, peer := !cfg.sendsFirst[p], cfg.address[p], cfg.address[H.Peer(p)];
    var root, o := HandshakeBody(accepting, address, limit), Returned(Bytes(peer));
    assert Framing.Frame(peer) + [] == Framing.Frame(peer);
    HandshakeEvaluates(orc, accepting, address, Framing.Frame(peer), limit);
    HandshakeOutcomeIs(orc, accepting, address, peer, [], limit);
    HandshakeIsSequential(accepting, address, limit);
    SequentialRuns(orc, root, o, []);
    InitKeeps(orc, root, o);
    g := InitialSpec(orc, root, o);
    WholeHandshake(orc, accepting, address, peer, limit);
    BeginRest(orc, root, g);
  }

  lemma {:induction false} BeginRest(orc: Oracle, root: Body, g: seq<Spec>)
    requires |g| == 1 && Sequential(root, 0)
    ensures Rest(orc, Init(root), g, 1) == Program(orc, root)
  {
    assert Rest(orc, Init(root), g, 0) == [];
  }

  ghost predicate BothFit(cfg: H.Config, limit: nat, orcs: seq<Oracle>) {
    cfg.Valid() && |orcs| == 2 && Fitting(cfg, limit, orcs[0], 0) && Fitting(cfg, limit, orcs[1], 1)
  }

  lemma {:induction false} BeginOk(cfg: H.Config, limit: nat, orcs: seq<Oracle>) returns (gs: seq<seq<Spec>>)
    requires BothFit(cfg, limit, orcs)
    ensures PairOk(cfg, limit, orcs, Begin(cfg, limit), gs)
    ensures Effort(orcs, Begin(cfg, limit), gs)
         == Cost(orcs[0], HandshakeBody(!cfg.sendsFirst[0], cfg.address[0], limit), [])
            + Cost(orcs[1], HandshakeBody(!cfg.sendsFirst[1], cfg.address[1], limit), [])
  {
    var g0 := BeginSide(cfg, limit, orcs[0], 0);
    var g1 := BeginSide(cfg, limit, orcs[1], 1);
    gs := [g0, g1];
  }

  lemma {:induction false} Reached(cfg: H.Config, limit: nat, orcs: seq<Oracle>,
                                   turns: seq<Turn>) returns (gs: seq<seq<Spec>>)
    requires BothFit(cfg, limit, orcs)
    requires IsSession(cfg, Begin(cfg, limit), turns) && Foreseen(cfg, orcs, Begin(cfg, limit), turns)
    ensures PairOk(cfg, limit, orcs, After(cfg, Begin(cfg, limit), turns), gs)
    ensures |turns| <= Cost(orcs[0], HandshakeBody(!cfg.sendsFirst[0], cfg.address[0], limit), [])
                       + Cost(orcs[1], HandshakeBody(!cfg.sendsFirst[1], cfg.address[1], limit), [])
  {
    gs := BeginOk(cfg, limit, orcs);
    gs := SessionKeeps(cfg, limit, orcs, Begin(cfg, limit), gs, turns);
  }

  /** Some oracles within the contract have foreseen the session. */
  lemma {:induction false} SomeForesee(cfg: H.Config, limit: nat, turns: seq<Turn>) returns (orcs: seq<Oracle>)
    requires cfg.Valid() && |cfg.address[0]| <= limit && |cfg.address[1]| <= limit
    requires IsSession(cfg, Begin(cfg, limit), turns)
    ensures BothFit(cfg, limit, orcs) && Foreseen(cfg, orcs, Begin(cfg, limit), turns)
    decreases |turns|
  {
    if turns == [] {
      orcs := [DefaultOracle(PeerFrame(cfg, 0)), DefaultOracle(PeerFrame(cfg, 1))];
      DefaultFits(PeerFrame(cfg, 0));
      DefaultFits(PeerFrame(cfg, 1));
    } else {
      var n := |turns| - 1;
      SessionSplits(cfg, Begin(cfg, limit), turns, n);
      orcs := SomeForesee(cfg, limit, turns[..n]);
      orcs := LastForeseen(cfg, limit, orcs, turns, n);
    }
  }

  lemma {:induction false} NextFits(cfg: H.Config, limit: nat, orc: Oracle, p: Role, got: seq<byte>, sent: nat, op: Op,
                                    c: Completion)
    requires cfg.Valid() && Fitting(cfg, limit, orc, p) && Next(cfg, limit, p, got, sent, op) && c.error.None?
    requires if IsRead(op) then |got| <= |PeerFrame(cfg, p)| && ReadsFrom(c, PeerFrame(cfg, p), |got|, op.length) else Writes(c, op.length)
    ensures Fitting(cfg, limit, Updated(orc, op, c), p)
  {
    assert IsRead(op) ==> op.id / 2 == |got|;
    UpdatedFits(cfg, limit, orc, p, op, c);
  }

  lemma {:induction false} FittingOf(cfg: H.Config, limit: nat, orcs: seq<Oracle>, s: Pair, gs: seq<seq<Spec>>, p: Role)
    requires PairOk(cfg, limit, orcs, s, gs)
    ensures Fitting(cfg, limit, orcs[p], p)
  {
    PartsOf(cfg, limit, orcs, s, gs, p);
  }

  /** Oracles that have foreseen one more turn. */
  lemma {:induction false} TurnForeseen(cfg: H.Config, limit: nat, orcs: seq<Oracle>, s: Pair, gs: seq<seq<Spec>>,
                                        turn: Turn)
    returns (orcs': seq<Oracle>)
    requires PairOk(cfg, limit, orcs, s, gs) && BothFit(cfg, limit, orcs)
    requires Possible(cfg, s, turn) && Does(s.tasks[turn.p], turn.e) != []
    ensures var p, op := turn.p, Does(s.tasks[turn.p], turn.e)[0];
            && !Past(op, |s.got[p]|, s.sent[p])
            && orcs' == orcs[p := Updated(orcs[p], op, turn.c)]
            && BothFit(cfg, limit, orcs') && Expected(orcs', s, turn)
  {
    var p, op := turn.p, Does(s.tasks[turn.p], turn.e)[0];
    ResultFits(cfg, limit, orcs, s, gs, turn);
    NextIsNotPast(cfg, limit, p, s.got[p], s.sent[p], op);
    FittingOf(cfg, limit, orcs, s, gs, p);
    NextFits(cfg, limit, orcs[p], p, s.got[p], s.sent[p], op, turn.c);
    orcs' := orcs[p := Updated(orcs[p], op, turn.c)];
    assert p == 0 || p == 1;
  }

  lemma {:induction false} LastForeseen(cfg: H.Config, limit: nat, orcs: seq<Oracle>, turns: seq<Turn>,
                                        n: nat) returns (orcs': seq<Oracle>)
    requires BothFit(cfg, limit, orcs)
    requires IsSession(cfg, Begin(cfg, limit), turns) && |turns| == n + 1
    requires IsSession(cfg, Begin(cfg, limit), turns[..n]) && Foreseen(cfg, orcs, Begin(cfg, limit), turns[..n])
    ensures BothFit(cfg, limit, orcs') && Foreseen(cfg, orcs', Begin(cfg, limit), turns)
  {
    var start := Begin(cfg, limit);
    var s, turn := After(cfg, start, turns[..n]), turns[n];
    SessionSplits(cfg, start, turns, n);
    orcs' := orcs;
    if Does(s.tasks[turn.p], turn.e) != [] {
      var gs0 := BeginOk(cfg, limit, orcs);
      var gs := Reached(cfg, limit, orcs, turns[..n]);
      orcs' := TurnForeseen(cfg, limit, orcs, s, gs, turn);
      StaysForeseen(cfg, limit, orcs, start, gs0, turns[..n], turn.p, Does(s.tasks[turn.p], turn.e)[0], turn.c);
    }
    ForeseenExtends(cfg, orcs', start, turns, n);
  }

  // --- Neither side waits for ever ----------------------------------------------------------------

  /** The operation that a coroutine is at is the next one of its side. */
  lemma {:induction false} CurrentIsNext(cfg: H.Config, limit: nat, orc: Oracle, p: Role, t: State, g: seq<Spec>,
                                         got: seq<byte>, sent: nat, f: Id)
    requires cfg.Valid() && SideOk(cfg, limit, orc, p, t, g, got, sent)
    requires Unfinished(t, f) && t.heap[f].frame.pc.AwaitOp? && (t.heap[f].frame.phase.Running? || t.heap[f].frame.phase.WaitingOp?)
    ensures Next(cfg, limit, p, got, sent, t.heap[f].frame.pc.op) && t.heap[f].frame.pc.op.length >= 1
  {
    var op, rest := t.heap[f].frame.pc.op, Rest(orc, t, g, |g|);
    OperationIsNext(orc, t, g, f);
    assert rest == [op] + rest[1..];
    LeftSplits(cfg, limit, orc, p, got, sent, op, rest[1..]);
    WantedOfFrame(orc, cfg.address[H.Peer(p)], |got|, limit);
  }

  /** A ready socket has an answer. */
  lemma {:induction false} ReadyAnswers(cfg: H.Config, s: Pair, p: Role, op: Op) returns (c: Completion)
    requires Shape(cfg, s) && Ready(cfg, s, p, op) && op.length >= 1
    ensures Answers(cfg, s, p, op, c)
  {
    var data := s.pipe[H.Peer(p)];
    if IsRead(op) {
      c := if data == [] then Completion(None, 0, 0, []) else Completion(None, 1, 0, data[..1]);
    } else {
      c := if Ended(s.tasks[H.Peer(p)]) then Completion(Some(0), 0, 0, []) else Completion(None, 1, 0, []);
    }
  }

  /** A running coroutine goes on: its operation completes if the socket is ready, and suspends it if not. */
  lemma {:induction false} RunningMoves(cfg: H.Config, limit: nat, orcs: seq<Oracle>, s: Pair, gs: seq<seq<Spec>>, p: Role)
    requires Shape(cfg, s) && |orcs| == |gs| == 2 && PartOk(cfg, limit, orcs, s, gs, p) && s.tasks[p].stack != []
    ensures exists turn :: Possible(cfg, s, turn)
  {
    var t, c0 := s.tasks[p], Completion(None, 0, 0, []);
    var f := t.stack[0];
    TopIsOnTop(orcs[p], t, gs[p]);
    if t.heap[f].frame.phase.Running? && t.heap[f].frame.pc.AwaitOp? {
      var op := t.heap[f].frame.pc.op;
      CurrentIsNext(cfg, limit, orcs[p], p, t, gs[p], s.got[p], s.sent[p], f);
      if Ready(cfg, s, p, op) {
        var c := ReadyAnswers(cfg, s, p, op);
        assert Possible(cfg, s, Turn(p, Run(Immediate), c));
      } else {
        forall r | r in t.requests
          ensures false
        {
          OneAtATime(orcs[p], t, gs[p], r, f);
        }
        assert Possible(cfg, s, Turn(p, Run(Deferred(0)), c0));
      }
    } else {
      assert Possible(cfg, s, Turn(p, Run(Immediate), c0));
    }
  }

  /** A waiting coroutine goes on when its socket is ready. */
  lemma {:induction false} RequestMoves(cfg: H.Config, s: Pair, p: Role, r: nat)
    requires Shape(cfg, s) && s.tasks[p].fault.None? && s.tasks[p].stack == [] && r in s.tasks[p].requests
    requires Ready(cfg, s, p, s.tasks[p].requests[r].op) && s.tasks[p].requests[r].op.length >= 1
    ensures exists turn :: Possible(cfg, s, turn)
  {
    var c := ReadyAnswers(cfg, s, p, s.tasks[p].requests[r].op);
    assert Possible(cfg, s, Turn(p, Progress(r), c));
  }

  /** A side has finished with everything read and written, or waits for a socket that is not ready. */
  ghost predicate Waits(cfg: H.Config, limit: nat, s: Pair, p: Role)
    requires Shape(cfg, s)
  {
    if Ended(s.tasks[p]) then |s.got[p]| == |PeerFrame(cfg, p)| && s.sent[p] == |OwnFrame(cfg, p)|
    else exists op :: Next(cfg, limit, p, s.got[p], s.sent[p], op) && !Ready(cfg, s, p, op)
  }

  lemma {:induction false} SideWaits(cfg: H.Config, limit: nat, orcs: seq<Oracle>, s: Pair, gs: seq<seq<Spec>>, p: Role)
    requires Shape(cfg, s) && |orcs| == |gs| == 2 && PartOk(cfg, limit, orcs, s, gs, p) && Stuck(cfg, s)
    ensures Waits(cfg, limit, s, p)
  {
    var t, orc, g := s.tasks[p], orcs[p], gs[p];
    if t.stack != [] {
      RunningMoves(cfg, limit, orcs, s, gs, p);
    }
    if r :| r in t.requests {
      var f := t.requests[r].userData;
      assert FrameOk(orc, t, g, f);
      CurrentIsNext(cfg, limit, orc, p, t, g, s.got[p], s.sent[p], f);
      var op := t.heap[f].frame.pc.op;
      if Ready(cfg, s, p, op) {
        RequestMoves(cfg, s, p, r);
      }
      assert Unfinished(t, f);
    } else {
      forall f: Id
        ensures !Unfinished(t, f)
      {
        if IsLive(t, f) {
          IdleMeansDone(orc, t, g, f);
        }
      }
      FinishedRest(orc, t, g, |g|);
      EndedMeansAll(cfg, limit, orc, p, t, g, s.got[p], s.sent[p]);
    }
  }

  /** With opposite orders, two sides do not wait for each other. */
  lemma {:induction false} NoDeadlock(cfg: H.Config, limit: nat, s: Pair)
    requires Shape(cfg, s) && cfg.sendsFirst == [true, false] && StreamOk(cfg, s, 0) && StreamOk(cfg, s, 1)
    requires Waits(cfg, limit, s, 0) && Waits(cfg, limit, s, 1)
    ensures Ended(s.tasks[0]) && Ended(s.tasks[1]) && s.pipe[0] == [] && s.pipe[1] == []
  {
    assert |s.got[1] + s.pipe[0]| == s.sent[0] && |s.got[0] + s.pipe[1]| == s.sent[1];
  }

  /** What one side holds at any point. */
  lemma {:induction false} SideResult(cfg: H.Config, limit: nat, orc: Oracle, p: Role, t: State, g: seq<Spec>,
                                      got: seq<byte>, sent: nat)
    requires cfg.Valid() && SideOk(cfg, limit, orc, p, t, g, got, sent)
    ensures t.fault.None? && IsLive(t, 0)
    ensures t.heap[0].frame.promise
         == if Unfinished(t, 0) then None else Some(Returned(Bytes(cfg.address[H.Peer(p)])))
  {
    assert FrameOk(orc, t, g, 0);
  }

  lemma {:induction false} SessionIsShort(cfg: H.Config, limit: nat, orcs: seq<Oracle>,
                                          turns: seq<Turn>) returns (gs: seq<seq<Spec>>)
    requires BothFit(cfg, limit, orcs)
    requires IsSession(cfg, Begin(cfg, limit), turns) && Foreseen(cfg, orcs, Begin(cfg, limit), turns)
    ensures PairOk(cfg, limit, orcs, After(cfg, Begin(cfg, limit), turns), gs)
    ensures |turns| <= 6 * (|OwnFrame(cfg, 0)| + |OwnFrame(cfg, 1)|) + 26
  {
    gs := Reached(cfg, limit, orcs, turns);
    HandshakeCost(orcs[0], !cfg.sendsFirst[0], cfg.address[0], cfg.address[1], limit);
    HandshakeCost(orcs[1], !cfg.sendsFirst[1], cfg.address[1], cfg.address[0], limit);
  }

  /**
    The connector's and the acceptor's coroutines against each other. Whatever the addresses, the
    buffers, the sizes of the reads and writes, and which operations complete at once: neither machine
    faults, every session is bounded, no promise ever holds anything but the other side's address, and
    a session that cannot go on has put it into both and left nothing unread.
   */
  lemma {:induction false} PairCompletes(cfg: H.Config, limit: nat, turns: seq<Turn>, p: Role)
    requires cfg.Valid() && cfg.sendsFirst == [true, false] && |cfg.address[0]| <= limit && |cfg.address[1]| <= limit
    requires IsSession(cfg, Begin(cfg, limit), turns)
    ensures |turns| <= 6 * (|OwnFrame(cfg, 0)| + |OwnFrame(cfg, 1)|) + 26
    ensures var s := After(cfg, Begin(cfg, limit), turns);
            var promised := Some(Returned(Bytes(cfg.address[H.Peer(p)])));
            && s.tasks[p].fault.None? && IsLive(s.tasks[p], 0)
            && (s.tasks[p].heap[0].frame.promise.Some? ==> s.tasks[p].heap[0].frame.promise == promised)
            && (Stuck(cfg, s) ==> s.tasks[p].heap[0].frame.promise == promised && s.pipe[0] == [] && s.pipe[1] == [])
  {
    var orcs := SomeForesee(cfg, limit, turns);
    var gs := SessionIsShort(cfg, limit, orcs, turns);
    var s := After(cfg, Begin(cfg, limit), turns);
    PartsOf(cfg, limit, orcs, s, gs, p);
    SideResult(cfg, limit, orcs[p], p, s.tasks[p], gs[p], s.got[p], s.sent[p]);
    if Stuck(cfg, s) {
      StuckMeansOver(cfg, limit, orcs, s, gs);
      assert p == 0 || p == 1;
    }
  }

  lemma {:induction false} StuckMeansOver(cfg: H.Config, limit: nat, orcs: seq<Oracle>, s: Pair, gs: seq<seq<Spec>>)
    requires PairOk(cfg, limit, orcs, s, gs) && Stuck(cfg, s) && cfg.sendsFirst == [true, false]
    ensures Ended(s.tasks[0]) && Ended(s.tasks[1]) && s.pipe[0] == [] && s.pipe[1] == []
  {
    SideWaits(cfg, limit, orcs, s, gs, 0);
    SideWaits(cfg, limit, orcs, s, gs, 1);
    NoDeadlock(cfg, limit, s);
  }
}
