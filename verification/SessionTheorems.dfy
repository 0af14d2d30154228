/**
  A session of two programs that are the two sides of one protocol never gets stuck, ends, and treats
  the shared word as if the protocol's actions had been performed one after the other.
 */
module SessionTheorems {
  import opened Prelude
  import Framing
  import opened Atomics
  import opened Session

  /** Sending appends to the backlog. */
  lemma {:induction false} BacklogExtends(g: Protocol, c: Channel, lo: nat, hi: nat)
    requires lo <= hi < |g|
    ensures Backlog(g, c, lo, hi + 1) == Backlog(g, c, lo, hi) + UnitsOn(g[hi], c)
    decreases hi - lo
  {
    if lo < hi {
      BacklogExtends(g, c, lo + 1, hi);
    }
  }

  /** The next operation of a party that stands at an event it takes part in. */
  lemma {:induction false} NextOperation(g: Protocol, i: nat, p: Party)
    requires i < |g|
    ensures Project(g[i..], p) == Share(g[i], p) + Project(g[i + 1..], p)
    ensures Share(g[i], p) != [] ==>
              Project(g[i..], p) != [] && Project(g[i..], p)[0] == Share(g[i], p)[0] && Project(g[i..], p)[1..] == Project(g[i + 1..], p)
  {
    assert g[i..][1..] == g[i + 1..];
  }

  lemma EitherView(g: Protocol, m0: Memory, s: State, at: Place, p: Party)
    ensures Inv(g, m0, s, at) <==> InvOf(g, m0, s, at, p)
  {
  }

  // --- What a party sends -------------------------------------------------------------------------

  /** A sender that has passed over an event, or has sent the message of its event. */
  lemma SentOne(g: Protocol, c: Channel, sender: Process, i: nat, sender': Process, i': nat, receiver: Process, j: nat,
                queue: seq<Unit>)
    requires Carried(g, c, sender, i, receiver, j, queue)
    requires SentUpTo(sender', i') == SentUpTo(sender, i) + 1 <= |g|
    requires Causal(g, c.from, SentUpTo(sender, i), j)
    ensures Carried(g, c, sender', i', receiver, j, queue + UnitsOn(g[SentUpTo(sender, i)], c))
  {
    var hi := SentUpTo(sender, i);
    if j <= hi {
      BacklogExtends(g, c, j, hi);
    } else {
      assert !Notice(g[hi], c.from);
    }
    assert queue + [] == queue;
    assert GotOn(receiver, c.kind) + queue + UnitsOn(g[hi], c) == GotOn(receiver, c.kind) + (queue + UnitsOn(g[hi], c));
  }

  // --- What a party receives ----------------------------------------------------------------------

  /** A receiver that has passed over an event that sends it nothing. */
  lemma PassedOne(g: Protocol, c: Channel, sender: Process, i: nat, receiver: Process, j: nat, receiver': Process,
                  queue: seq<Unit>)
    requires Carried(g, c, sender, i, receiver, j, queue)
    requires GotOn(receiver', c.kind) == GotOn(receiver, c.kind) && j < |g| && UnitsOn(g[j], c) == []
    ensures Carried(g, c, sender, i, receiver', j + 1, queue)
  {
  }

  // --- A party passes over an action of its peer --------------------------------------------------

  lemma {:induction false} HeardAppend(a: Protocol, b: Protocol, p: Party)
    ensures Heard(a + b, p) == Heard(a, p) + Heard(b, p)
  {
    if a == [] {
      assert a + b == b;
    } else {
      assert (a + b)[1..] == a[1..] + b;
      HeardAppend(a[1..], b, p);
      assert News(a[0], p) + (Heard(a[1..], p) + Heard(b, p)) == (News(a[0], p) + Heard(a[1..], p)) + Heard(b, p);
    }
  }

  lemma {:induction false} HeardNext(g: Protocol, p: Party, i: nat)
    requires i < |g|
    ensures Heard(g[..i + 1], p) == Heard(g[..i], p) + News(g[i], p)
  {
    assert g[..i + 1] == g[..i] + [g[i]];
    HeardAppend(g[..i], [g[i]], p);
    assert [g[i]][1..] == [] && Heard([g[i]], p) == News(g[i], p) + [];
  }

  lemma SkipPlaced(g: Protocol, p: Party, process: Process, i: nat)
    requires Placed(g, p, process, i) && i < |g| && Share(g[i], p) == []
    ensures Placed(g, p, process, i + 1) && !process.posted
  {
    NextOperation(g, i, p);
    HeardNext(g, p, i);
  }

  /** The sending party goes past an event at which it sends nothing. */
  lemma PassSends(g: Protocol, p: Party, sender: Process, i: nat, sender': Process, receiver: Process, j: nat, s: State)
    requires Flows(g, p, sender, i, receiver, j, s) && i < |g| && !(g[i].Message? && g[i].from == p)
    requires !sender.posted && !sender'.posted
    ensures Flows(g, p, sender', i + 1, receiver, j, s)
  {
    forall kind
      ensures Carried(g, Channel(p, kind), sender', i + 1, receiver, j, s.Queue(Channel(p, kind)))
    {
      var c := Channel(p, kind);
      SentOne(g, c, sender, i, sender', i + 1, receiver, j, s.Queue(c));
      assert s.Queue(c) + [] == s.Queue(c);
    }
  }

  /** The receiving party goes past an event at which it receives nothing. */
  lemma PassReceives(g: Protocol, q: Party, sender: Process, i: nat, receiver: Process, j: nat, receiver': Process, s: State)
    requires Flows(g, q, sender, i, receiver, j, s) && j < |g| && !(g[j].Message? && g[j].from == q)
    requires receiver.got == receiver'.got && (receiver == receiver' || receiver.got == [])
    ensures Flows(g, q, sender, i, receiver', j + 1, s)
  {
    forall kind
      ensures Carried(g, Channel(q, kind), sender, i, receiver', j + 1, s.Queue(Channel(q, kind)))
    {
      PassedOne(g, Channel(q, kind), sender, i, receiver, j, receiver', s.Queue(Channel(q, kind)));
    }
  }

  lemma PassKeepsOrder(g: Protocol, m0: Memory, memory: Memory, at: Place, p: Party)
    requires InOrder(g, m0, memory, at) && at.Of(p) < |g|
    requires g[at.Of(p)].Local? ==> g[at.Of(p)].party != p
    ensures InOrder(g, m0, memory, at.With(p, at.Of(p) + 1))
  {
  }

  lemma SkipKeeps(g: Protocol, m0: Memory, s: State, at: Place, p: Party)
    requires InvOf(g, m0, s, at, p) && at.Of(p) < |g| && Share(g[at.Of(p)], p) == []
    ensures InvOf(g, m0, s, at.With(p, at.Of(p) + 1), p)
  {
    var q := p.Peer();
    SkipPlaced(g, p, s.Of(p), at.Of(p));
    PassSends(g, p, s.Of(p), at.Of(p), s.Of(p), s.Of(q), at.Of(q), s);
    PassReceives(g, q, s.Of(q), at.Of(q), s.Of(p), at.Of(p), s.Of(p), s);
    PassKeepsOrder(g, m0, s.memory, at, p);
  }

  // --- A party sends ------------------------------------------------------------------------------

  lemma PostFlows(g: Protocol, p: Party, sender: Process, i: nat, receiver: Process, j: nat, s: State, s': State)
    requires Flows(g, p, sender, i, receiver, j, s) && i < |g| && g[i].Message? && g[i].from == p && !sender.posted
    requires var c := Channel(p, g[i].kind); s'.queues == s.queues[c := s.Queue(c) + g[i].units]
    ensures Flows(g, p, sender.(posted := true), i, receiver, j, s')
  {
    forall kind
      ensures Carried(g, Channel(p, kind), sender.(posted := true), i, receiver, j, s'.Queue(Channel(p, kind)))
    {
      var c := Channel(p, kind);
      SentOne(g, c, sender, i, sender.(posted := true), i, receiver, j, s.Queue(c));
      assert s.Queue(c) + [] == s.Queue(c);
    }
  }

  ghost predicate SameQueues(s: State, s': State, from: Party) {
    forall kind :: s'.Queue(Channel(from, kind)) == s.Queue(Channel(from, kind))
  }

  lemma OtherQueues(s: State, s': State, c: Channel, queue: seq<Unit>)
    requires s'.queues == s.queues[c := queue]
    ensures SameQueues(s, s', c.from.Peer())
  {
  }

  /** A party that has completed its operation. */
  lemma {:induction false} PlacedNext(g: Protocol, p: Party, process: Process, i: nat)
    requires i < |g| && process.rest == Project(g[i + 1..], p) && !process.posted && process.got == []
    requires process.heard == Heard(g[..i], p) + News(g[i], p)
    ensures Placed(g, p, process, i + 1)
  {
    HeardNext(g, p, i);
  }

  /** A direction on which nothing is sent or received. */
  lemma SameFlows(g: Protocol, from: Party, sender: Process, i: nat, sender': Process, i': nat,
                  receiver: Process, j: nat, receiver': Process, s: State, s': State)
    requires Flows(g, from, sender, i, receiver, j, s) && SentUpTo(sender', i') == SentUpTo(sender, i)
    requires receiver'.rest == receiver.rest && receiver'.got == receiver.got
    requires SameQueues(s, s', from)
    ensures Flows(g, from, sender', i', receiver', j, s')
  {
    forall kind
      ensures Carried(g, Channel(from, kind), sender', i', receiver', j, s'.Queue(Channel(from, kind)))
    {
      assert Carried(g, Channel(from, kind), sender, i, receiver, j, s.Queue(Channel(from, kind)));
    }
  }

  lemma PostKeeps(g: Protocol, m0: Memory, s: State, at: Place, m: Move)
    requires InvOf(g, m0, s, at, m.party) && Enabled(s, m) && at.Of(m.party) < |g|
    requires g[at.Of(m.party)].Message? && g[at.Of(m.party)].from == m.party && !s.Of(m.party).posted
    ensures InvOf(g, m0, Step(s, m), at, m.party)
  {
    var p, q, s' := m.party, m.party.Peer(), Step(s, m);
    var i := at.Of(p);
    NextOperation(g, i, p);
    assert s'.Of(p) == s.Of(p).(posted := true) && s'.Of(q) == s.Of(q);
    OtherQueues(s, s', Channel(p, g[i].kind), s.Queue(Channel(p, g[i].kind)) + g[i].units);
    PostFlows(g, p, s.Of(p), i, s.Of(q), at.Of(q), s, s');
    SameFlows(g, q, s.Of(q), at.Of(q), s.Of(q), at.Of(q), s.Of(p), i, s'.Of(p), s, s');
  }

  lemma FinishKeeps(g: Protocol, m0: Memory, s: State, at: Place, m: Move)
    requires InvOf(g, m0, s, at, m.party) && Enabled(s, m) && at.Of(m.party) < |g|
    requires g[at.Of(m.party)].Message? && g[at.Of(m.party)].from == m.party && s.Of(m.party).posted
    ensures InvOf(g, m0, Step(s, m), at.With(m.party, at.Of(m.party) + 1), m.party)
  {
    NextOperation(g, at.Of(m.party), m.party);
    FinishMoves(g, m0, s, at, m.party, Step(s, m));
  }

  /** The receiving end of a direction goes past an event at which it receives nothing. */
  lemma {:induction false} PassReceivesTo(g: Protocol, p: Party, i: nat, j: nat, s: State, s': State)
    requires Flows(g, p.Peer(), s.Of(p.Peer()), j, s.Of(p), i, s) && i < |g| && s.Of(p).got == []
    requires !(g[i].Message? && g[i].from == p.Peer())
    requires s'.queues == s.queues && s'.Of(p).got == []
    ensures Flows(g, p.Peer(), s.Of(p.Peer()), j, s'.Of(p), i + 1, s')
  {
    var q := p.Peer();
    assert SameQueues(s, s', q);
    PassReceives(g, q, s.Of(q), j, s.Of(p), i, s'.Of(p), s);
    SameFlows(g, q, s.Of(q), j, s.Of(q), j, s'.Of(p), i + 1, s'.Of(p), s, s');
  }

  lemma {:induction false} FinishMoves(g: Protocol, m0: Memory, s: State, at: Place, p: Party, s': State)
    requires InvOf(g, m0, s, at, p) && at.Of(p) < |g| && s.Of(p).posted && s.Of(p).got == []
    requires s'.queues == s.queues && s'.Of(p.Peer()) == s.Of(p.Peer()) && s'.memory == s.memory
    requires s'.Of(p) == Process(Project(g[at.Of(p) + 1..], p), false, [], s.Of(p).heard)
    ensures InvOf(g, m0, s', at.With(p, at.Of(p) + 1), p)
  {
    var q, i := p.Peer(), at.Of(p);
    PlacedNext(g, p, s'.Of(p), i);
    assert SameQueues(s, s', p);
    SameFlows(g, p, s.Of(p), i, s'.Of(p), i + 1, s.Of(q), at.Of(q), s.Of(q), s, s');
    PassReceivesTo(g, p, i, at.Of(q), s, s');
    PassKeepsOrder(g, m0, s.memory, at, p);
  }

  // --- A party receives ---------------------------------------------------------------------------

  /** What is taken to complete a message is the message, and what stays are the later ones. */
  lemma {:induction false} TakenWhole(g: Protocol, c: Channel, sender: Process, i: nat, receiver: Process, j: nat,
                                      queue: seq<Unit>, n: nat)
    requires Carried(g, c, sender, i, receiver, j, queue)
    requires j < |g| && g[j].Message? && g[j].from == c.from && g[j].kind == c.kind
    requires n <= |queue| && |GotOn(receiver, c.kind)| + n == |g[j].units|
    ensures GotOn(receiver, c.kind) + queue[..n] == g[j].units
    ensures queue[n..] == Backlog(g, c, j + 1, SentUpTo(sender, i))
    ensures SentUpTo(sender, i) <= j ==> g[j].units == []
  {
    var got, later := GotOn(receiver, c.kind), Backlog(g, c, j + 1, SentUpTo(sender, i));
    if j < SentUpTo(sender, i) {
      assert got + queue == g[j].units + later;
      assert (got + queue)[..|got| + n] == got + queue[..n];
      assert (got + queue)[|got| + n..] == queue[n..];
    }
  }

  /** The operation with which a party receives from its peer. */
  predicate Takes(process: Process, kind: Kind) {
    process.rest != [] && (process.rest[0] == ReceiveRest(kind) || (process.rest[0].Receive? && process.got == []))
  }

  lemma ReceivedFlows(g: Protocol, q: Party, sender: Process, i: nat, receiver: Process, j: nat, receiver': Process,
                      s: State, s': State, n: nat)
    requires Flows(g, q, sender, i, receiver, j, s)
    requires j < |g| && g[j].Message? && g[j].from == q && Takes(receiver, g[j].kind) && receiver'.got == []
    requires var c := Channel(q, g[j].kind);
             && n <= |s.Queue(c)| && |receiver.got| + n == |g[j].units| && s'.queues == s.queues[c := s.Queue(c)[n..]]
    ensures Flows(g, q, sender, i, receiver', j + 1, s')
    ensures receiver.got + s.Queue(Channel(q, g[j].kind))[..n] == g[j].units
  {
    TakenWhole(g, Channel(q, g[j].kind), sender, i, receiver, j, s.Queue(Channel(q, g[j].kind)), n);
    forall kind
      ensures Carried(g, Channel(q, kind), sender, i, receiver', j + 1, s'.Queue(Channel(q, kind)))
    {
      if kind != g[j].kind {
        PassedOne(g, Channel(q, kind), sender, i, receiver, j, receiver', s.Queue(Channel(q, kind)));
      }
    }
  }

  lemma PartFlows(g: Protocol, q: Party, sender: Process, i: nat, receiver: Process, j: nat, kind: Kind,
                  s: State, s': State, n: nat)
    requires Flows(g, q, sender, i, receiver, j, s) && receiver.rest != [] && receiver.rest[0] == ReceiveRest(kind)
    requires var c := Channel(q, kind); n <= |s.Queue(c)| && s'.queues == s.queues[c := s.Queue(c)[n..]]
    ensures Flows(g, q, sender, i, receiver.(got := receiver.got + s.Queue(Channel(q, kind))[..n]), j, s')
  {
    var queue := s.Queue(Channel(q, kind));
    var receiver' := receiver.(got := receiver.got + queue[..n]);
    forall k
      ensures Carried(g, Channel(q, k), sender, i, receiver', j, s'.Queue(Channel(q, k)))
    {
      assert Carried(g, Channel(q, k), sender, i, receiver, j, s.Queue(Channel(q, k)));
      assert receiver.got + queue[..n] + queue[n..] == receiver.got + queue;
    }
  }

  /** A loop knows how much it is to read. */
  lemma LoopKnowsSize(g: Protocol, p: Party, process: Process, j: nat)
    requires Announced(g) && Placed(g, p, process, j) && j < |g| && g[j].Message? && g[j].from != p && g[j].loop
    ensures LoopSize(process) == |g[j].units|
  {
    HeardNext(g, p, j - 1);
  }

  /** A move that does not complete what a loop reads. */
  predicate IsPart(s: State, m: Move) {
    var self := s.Of(m.party);
    self.rest != [] && self.rest[0].ReceiveRest? && |self.got| + m.n < LoopSize(self)
  }

  lemma PartKeeps(g: Protocol, m0: Memory, s: State, at: Place, m: Move)
    requires InvOf(g, m0, s, at, m.party) && Enabled(s, m) && IsPart(s, m)
    ensures InvOf(g, m0, Step(s, m), at, m.party)
  {
    var p, q, s' := m.party, m.party.Peer(), Step(s, m);
    var kind := s.Of(p).rest[0].kind;
    assert s'.Of(p) == s.Of(p).(got := s.Of(p).got + s.Queue(Channel(q, kind))[..m.n]) && s'.Of(q) == s.Of(q);
    PartFlows(g, q, s.Of(q), at.Of(q), s.Of(p), at.Of(p), kind, s, s', m.n);
    OtherQueues(s, s', Channel(q, kind), s.Queue(Channel(q, kind))[m.n..]);
    SameFlows(g, p, s.Of(p), at.Of(p), s'.Of(p), at.Of(p), s.Of(q), at.Of(q), s.Of(q), s, s');
  }

  /** The move that completes a receive takes the right number of units off the right queue. */
  lemma ReceiveTakes(g: Protocol, s: State, i: nat, m: Move)
    requires Announced(g) && Placed(g, m.party, s.Of(m.party), i) && Enabled(s, m) && i < |g|
    requires g[i].Message? && g[i].from != m.party && !IsPart(s, m)
    ensures var p, q, c, s' := m.party, m.party.Peer(), Channel(m.party.Peer(), g[i].kind), Step(s, m);
            && m.n <= |s.Queue(c)| && Takes(s.Of(p), c.kind) && |s.Of(p).got| + m.n == |g[i].units|
            && s'.queues == s.queues[c := s.Queue(c)[m.n..]] && s'.Of(q) == s.Of(q) && s'.memory == s.memory
            && s'.Of(p) == Process(Project(g[i + 1..], p), false, [], s.Of(p).heard + [s.Of(p).got + s.Queue(c)[..m.n]])
  {
    NextOperation(g, i, m.party);
    var p, c := m.party, Channel(m.party.Peer(), g[i].kind);
    if g[i].loop {
      LoopKnowsSize(g, p, s.Of(p), i);
    } else {
      assert s.Of(p).got + s.Queue(c)[..m.n] == s.Queue(c)[..m.n];
    }
  }

  lemma ReceiveKeeps(g: Protocol, m0: Memory, s: State, at: Place, m: Move)
    requires Announced(g) && InvOf(g, m0, s, at, m.party) && Enabled(s, m) && at.Of(m.party) < |g|
    requires g[at.Of(m.party)].Message? && g[at.Of(m.party)].from != m.party && !IsPart(s, m)
    ensures InvOf(g, m0, Step(s, m), at.With(m.party, at.Of(m.party) + 1), m.party)
  {
    var p, q, s' := m.party, m.party.Peer(), Step(s, m);
    var i := at.Of(p);
    ReceiveTakes(g, s, i, m);
    ReceiveMoves(g, m0, s, at, p, s', m.n);
  }

  /** The rest of the argument needs only that effect. */
  lemma {:induction false} ReceiveMoves(g: Protocol, m0: Memory, s: State, at: Place, p: Party, s': State, n: nat)
    requires InvOf(g, m0, s, at, p) && at.Of(p) < |g| && g[at.Of(p)].Message? && g[at.Of(p)].from == p.Peer()
    requires var q, i := p.Peer(), at.Of(p);
             var c := Channel(q, g[i].kind);
             && n <= |s.Queue(c)| && Takes(s.Of(p), c.kind) && |s.Of(p).got| + n == |g[i].units|
             && s'.queues == s.queues[c := s.Queue(c)[n..]] && s'.Of(q) == s.Of(q) && s'.memory == s.memory
             && s'.Of(p) == Process(Project(g[i + 1..], p), false, [], s.Of(p).heard + [s.Of(p).got + s.Queue(c)[..n]])
    ensures InvOf(g, m0, s', at.With(p, at.Of(p) + 1), p)
  {
    var q, i := p.Peer(), at.Of(p);
    var c := Channel(q, g[i].kind);
    OtherQueues(s, s', c, s.Queue(c)[n..]);
    ReceivedFlows(g, q, s.Of(q), at.Of(q), s.Of(p), i, s'.Of(p), s, s', n);
    PlacedNext(g, p, s'.Of(p), i);
    PassSends(g, p, s.Of(p), i, s'.Of(p), s.Of(q), at.Of(q), s);
    SameFlows(g, p, s'.Of(p), i + 1, s'.Of(p), i + 1, s.Of(q), at.Of(q), s.Of(q), s, s');
    PassKeepsOrder(g, m0, s.memory, at, p);
  }

  // --- A party acts on the word -------------------------------------------------------------------

  /** Performing one more event. */
  lemma {:induction false} SerialExtends(g: Protocol, k: nat, m: Memory)
    requires k < |g|
    ensures Serial(g[..k + 1], m) == (if g[k].Local? then Perform(g[k].action, Serial(g[..k], m)) else Serial(g[..k], m))
    decreases k
  {
    if k == 0 {
      assert g[..1][1..] == [];
    } else {
      var m' := if g[0].Local? then Perform(g[0].action, m) else m;
      assert g[..k + 1][1..] == g[1..][..k] && g[..k][1..] == g[1..][..k - 1];
      SerialExtends(g[1..], k - 1, m');
    }
  }

  /** Messages alone do not change the word. */
  lemma {:induction false} SerialStays(g: Protocol, lo: nat, hi: nat, m: Memory)
    requires lo <= hi <= |g| && forall k :: lo <= k < hi ==> !g[k].Local?
    ensures Serial(g[..hi], m) == Serial(g[..lo], m)
    decreases hi - lo
  {
    if lo < hi {
      SerialStays(g, lo, hi - 1, m);
      SerialExtends(g, hi - 1, m);
    }
  }

  /** When a party is about to act, the actions before its own have been performed, and no later one. */
  lemma TurnOf(g: Protocol, m0: Memory, s: State, at: Place, p: Party, k: nat)
    requires HandedOver(g) && InvOf(g, m0, s, at, p) && k < |g| && g[k].Local?
    requires at.Of(p) < |g| && g[at.Of(p)].Local? && g[at.Of(p)].party == p
    ensures k < at.Of(p) <==> k < at.acted
    ensures k != at.Of(p) ==> (k < at.Of(p) <==> k < at.Of(g[k].party))
  {
    var i, q := at.Of(p), p.Peer();
    if g[k].party == q {
      if k < i {
        var r :| k < r < i && Notice(g[r], q);
        assert r < SentUpTo(s.Of(q), at.Of(q));
      }
    }
  }

  lemma ActOrder(g: Protocol, m0: Memory, s: State, at: Place, p: Party)
    requires HandedOver(g) && InvOf(g, m0, s, at, p)
    requires at.Of(p) < |g| && g[at.Of(p)].Local? && g[at.Of(p)].party == p
    ensures InOrder(g, m0, Perform(g[at.Of(p)].action, s.memory), at.With(p, at.Of(p) + 1).(acted := at.Of(p) + 1))
  {
    forall k: nat | k < |g| && g[k].Local?
      ensures k < at.Of(p) <==> k < at.acted
      ensures k != at.Of(p) ==> (k < at.Of(p) <==> k < at.Of(g[k].party))
    {
      TurnOf(g, m0, s, at, p, k);
    }
    OrderNext(g, m0, s.memory, at, p);
  }

  lemma OrderNext(g: Protocol, m0: Memory, memory: Memory, at: Place, p: Party)
    requires InOrder(g, m0, memory, at) && at.Of(p) < |g| && g[at.Of(p)].Local? && g[at.Of(p)].party == p
    requires forall k: nat :: k < |g| && g[k].Local? ==> (k < at.Of(p) <==> k < at.acted)
    requires forall k: nat :: k < |g| && g[k].Local? && k != at.Of(p) ==> (k < at.Of(p) <==> k < at.Of(g[k].party))
    ensures InOrder(g, m0, Perform(g[at.Of(p)].action, memory), at.With(p, at.Of(p) + 1).(acted := at.Of(p) + 1))
  {
    var i := at.Of(p);
    assert at.acted <= i;
    SerialStays(g, at.acted, i, m0);
    SerialExtends(g, i, m0);
  }

  lemma ActKeeps(g: Protocol, m0: Memory, s: State, at: Place, m: Move)
    requires HandedOver(g) && InvOf(g, m0, s, at, m.party) && Enabled(s, m)
    requires at.Of(m.party) < |g| && g[at.Of(m.party)].Local? && g[at.Of(m.party)].party == m.party
    ensures var i := at.Of(m.party); InvOf(g, m0, Step(s, m), at.With(m.party, i + 1).(acted := i + 1), m.party)
  {
    NextOperation(g, at.Of(m.party), m.party);
    ActOrder(g, m0, s, at, m.party);
    ActMoves(g, m0, s, at, m.party, Step(s, m));
  }

  lemma {:induction false} ActSends(g: Protocol, p: Party, i: nat, j: nat, s: State, s': State)
    requires Flows(g, p, s.Of(p), i, s.Of(p.Peer()), j, s) && i < |g| && g[i].Local? && !s.Of(p).posted
    requires s'.queues == s.queues && !s'.Of(p).posted
    ensures Flows(g, p, s'.Of(p), i + 1, s.Of(p.Peer()), j, s')
  {
    var q := p.Peer();
    assert SameQueues(s, s', p);
    PassSends(g, p, s.Of(p), i, s'.Of(p), s.Of(q), j, s);
    SameFlows(g, p, s'.Of(p), i + 1, s'.Of(p), i + 1, s.Of(q), j, s.Of(q), s, s');
  }

  lemma {:induction false} ActMoves(g: Protocol, m0: Memory, s: State, at: Place, p: Party, s': State)
    requires InvOf(g, m0, s, at, p) && at.Of(p) < |g| && g[at.Of(p)].Local? && !s.Of(p).posted && s.Of(p).got == []
    requires s'.queues == s.queues && s'.Of(p.Peer()) == s.Of(p.Peer())
    requires s'.Of(p) == Process(Project(g[at.Of(p) + 1..], p), false, [], s.Of(p).heard)
    requires var i := at.Of(p); InOrder(g, m0, s'.memory, at.With(p, i + 1).(acted := i + 1))
    ensures var i := at.Of(p); InvOf(g, m0, s', at.With(p, i + 1).(acted := i + 1), p)
  {
    var q, i := p.Peer(), at.Of(p);
    var at' := at.With(p, i + 1).(acted := i + 1);
    assert at'.Of(p) == i + 1 && at'.Of(q) == at.Of(q);
    PlacedNext(g, p, s'.Of(p), i);
    ActSends(g, p, i, at.Of(q), s, s');
    PassReceivesTo(g, p, i, at.Of(q), s, s');
  }

  // --- Any move -----------------------------------------------------------------------------------

  lemma {:induction false} SkipToNext(g: Protocol, m0: Memory, s: State, at: Place, p: Party) returns (at': Place)
    requires InvOf(g, m0, s, at, p)
    ensures InvOf(g, m0, s, at', p) && at'.Of(p.Peer()) == at.Of(p.Peer())
    ensures at.Of(p) <= at'.Of(p) && (at'.Of(p) < |g| ==> Share(g[at'.Of(p)], p) != [])
    decreases |g| - at.Of(p)
  {
    at' := at;
    if at.Of(p) < |g| && Share(g[at.Of(p)], p) == [] {
      SkipKeeps(g, m0, s, at, p);
      at' := SkipToNext(g, m0, s, at.With(p, at.Of(p) + 1), p);
    }
  }

  lemma MoveKeeps(g: Protocol, m0: Memory, s: State, at: Place, m: Move) returns (at': Place)
    requires Announced(g) && HandedOver(g) && InvOf(g, m0, s, at, m.party) && Enabled(s, m)
    requires at.Of(m.party) < |g| && Share(g[at.Of(m.party)], m.party) != []
    ensures InvOf(g, m0, Step(s, m), at', m.party)
  {
    var p, i := m.party, at.Of(m.party);
    NextOperation(g, i, p);
    if g[i].Local? {
      ActKeeps(g, m0, s, at, m);
      at' := at.With(p, i + 1).(acted := i + 1);
    } else if g[i].from == p {
      if s.Of(p).posted {
        FinishKeeps(g, m0, s, at, m);
        at' := at.With(p, i + 1);
      } else {
        PostKeeps(g, m0, s, at, m);
        at' := at;
      }
    } else if IsPart(s, m) {
      PartKeeps(g, m0, s, at, m);
      at' := at;
    } else {
      ReceiveKeeps(g, m0, s, at, m);
      at' := at.With(p, i + 1);
    }
  }

  /** The invariant is kept by every move of either party. */
  lemma StepKeeps(g: Protocol, m0: Memory, s: State, at: Place, m: Move) returns (at': Place)
    requires Announced(g) && HandedOver(g) && Inv(g, m0, s, at) && Enabled(s, m)
    ensures Inv(g, m0, Step(s, m), at')
  {
    EitherView(g, m0, s, at, m.party);
    var here := SkipToNext(g, m0, s, at, m.party);
    assert here.Of(m.party) == |g| ==> s.Of(m.party).rest == [];
    at' := MoveKeeps(g, m0, s, here, m);
    EitherView(g, m0, Step(s, m), at', m.party);
  }

  // --- Every run ends -----------------------------------------------------------------------------

  function OutgoingOf(op: Op): nat {
    if op.Send? then |op.units| else 0
  }

  function Outgoing(ops: seq<Op>): nat {
    if ops == [] then 0 else OutgoingOf(ops[0]) + Outgoing(ops[1..])
  }

  /** Two steps for each operation, one of them done for a posted send, and what is still to be sent. */
  function EffortOf(process: Process): nat {
    2 * |process.rest| + Outgoing(process.rest)
    - (if process.posted && process.rest != [] && process.rest[0].Send? then 1 + OutgoingOf(process.rest[0]) else 0)
  }

  function InFlight(s: State, from: Party): nat {
    |s.Queue(Channel(from, TestTag))| + |s.Queue(Channel(from, BellTag))| + |s.Queue(Channel(from, Stream))|
  }

  /** A bound on the moves left. */
  function Effort(s: State): nat {
    EffortOf(s.client) + EffortOf(s.server) + InFlight(s, Client) + InFlight(s, Server)
  }

  lemma QueueChanges(s: State, s': State, c: Channel, queue: seq<Unit>)
    requires s'.queues == s.queues[c := queue]
    ensures InFlight(s', c.from) == InFlight(s, c.from) - |s.Queue(c)| + |queue|
    ensures InFlight(s', c.from.Peer()) == InFlight(s, c.from.Peer())
  {
    OtherQueues(s, s', c, queue);
    match c.kind case TestTag => case BellTag => case Stream =>
  }

  lemma EffortFrom(s: State, p: Party)
    ensures Effort(s) == EffortOf(s.Of(p)) + EffortOf(s.Of(p.Peer())) + InFlight(s, p) + InFlight(s, p.Peer())
  {
  }

  lemma OperationDone(process: Process, process': Process)
    requires process.rest != [] && process'.rest == process.rest[1..]
    ensures EffortOf(process') < EffortOf(process)
  {
  }

  lemma SendPays(s: State, m: Move)
    requires Enabled(s, m) && s.Of(m.party).rest[0].Send?
    ensures Effort(Step(s, m)) < Effort(s)
  {
    var p, s' := m.party, Step(s, m);
    var op := s.Of(p).rest[0];
    if s.Of(p).posted {
      OperationDone(s.Of(p), s'.Of(p));
    } else {
      var c := Channel(p, op.kind);
      QueueChanges(s, s', c, s.Queue(c) + op.units);
    }
    EffortFrom(s, p);
    EffortFrom(s', p);
  }

  /** A move that leaves its party no worse, and takes off a queue what it reads. */
  lemma ReadingPays(s: State, s': State, p: Party, c: Channel, n: nat)
    requires c.from == p.Peer() && n <= |s.Queue(c)| && s'.queues == s.queues[c := s.Queue(c)[n..]]
    requires s'.Of(c.from) == s.Of(c.from) && EffortOf(s'.Of(p)) <= EffortOf(s.Of(p)) + (if n == 0 then -1 else 0)
    ensures Effort(s') < Effort(s)
  {
    QueueChanges(s, s', c, s.Queue(c)[n..]);
    EffortFrom(s, p);
    EffortFrom(s', p);
  }

  lemma ReceivePays(s: State, m: Move)
    requires Enabled(s, m) && s.Of(m.party).rest[0].Receive?
    ensures Effort(Step(s, m)) < Effort(s)
  {
    OperationDone(s.Of(m.party), Step(s, m).Of(m.party));
    ReadingPays(s, Step(s, m), m.party, Channel(m.party.Peer(), s.Of(m.party).rest[0].kind), m.n);
  }

  lemma LoopPays(s: State, m: Move)
    requires Enabled(s, m) && s.Of(m.party).rest[0].ReceiveRest?
    ensures Effort(Step(s, m)) < Effort(s)
  {
    if !IsPart(s, m) {
      OperationDone(s.Of(m.party), Step(s, m).Of(m.party));
    }
    ReadingPays(s, Step(s, m), m.party, Channel(m.party.Peer(), s.Of(m.party).rest[0].kind), m.n);
  }

  lemma ActPays(s: State, m: Move)
    requires Enabled(s, m) && s.Of(m.party).rest[0].Act?
    ensures Effort(Step(s, m)) < Effort(s)
  {
    OperationDone(s.Of(m.party), Step(s, m).Of(m.party));
    EffortFrom(s, m.party);
    EffortFrom(Step(s, m), m.party);
  }

  lemma StepPays(s: State, m: Move)
    requires Enabled(s, m)
    ensures Effort(Step(s, m)) < Effort(s)
  {
    match s.Of(m.party).rest[0]
    case Send(_, _) => SendPays(s, m);
    case Receive(_, _) => ReceivePays(s, m);
    case ReceiveRest(_) => LoopPays(s, m);
    case Act(_) => ActPays(s, m);
  }

  // --- No run gets stuck --------------------------------------------------------------------------

  /** What a party is to receive, and does not have yet, is in the queue once it has been sent. */
  lemma Available(g: Protocol, c: Channel, sender: Process, i: nat, receiver: Process, j: nat, queue: seq<Unit>)
    requires Carried(g, c, sender, i, receiver, j, queue) && j < |g| && j < SentUpTo(sender, i)
    requires g[j].Message? && g[j].from == c.from && g[j].kind == c.kind
    ensures |GotOn(receiver, c.kind)| + |queue| >= |g[j].units|
  {
    assert |Backlog(g, c, j, SentUpTo(sender, i))| == |g[j].units| + |Backlog(g, c, j + 1, SentUpTo(sender, i))|;
  }

  /** A party can receive a message that has been sent. */
  lemma ReceiverMoves(g: Protocol, s: State, i: nat, p: Party, j: nat) returns (m: Move)
    requires Announced(g) && Placed(g, p, s.Of(p), i) && i < |g| && g[i].Message? && g[i].from == p.Peer()
    requires Flows(g, p.Peer(), s.Of(p.Peer()), j, s.Of(p), i, s) && i < SentUpTo(s.Of(p.Peer()), j)
    ensures Enabled(s, m) && !m.atOnce
  {
    NextOperation(g, i, p);
    var c := Channel(p.Peer(), g[i].kind);
    Available(g, c, s.Of(p.Peer()), j, s.Of(p), i, s.Queue(c));
    if g[i].loop {
      LoopKnowsSize(g, p, s.Of(p), i);
    }
    m := Move(p, |g[i].units| - |s.Of(p).got|, false);
  }

  /** A party whose message has been received can go on. */
  lemma SenderMoves(g: Protocol, s: State, i: nat, p: Party, j: nat) returns (m: Move)
    requires Placed(g, p, s.Of(p), i) && i < |g| && g[i].Message? && g[i].from == p
    requires Flows(g, p, s.Of(p), i, s.Of(p.Peer()), j, s) && (s.Of(p).posted ==> i < j)
    ensures Enabled(s, m) && !m.atOnce
  {
    NextOperation(g, i, p);
    assert Carried(g, Channel(p, g[i].kind), s.Of(p), i, s.Of(p.Peer()), j, s.Queue(Channel(p, g[i].kind)));
    m := Move(p, 0, false);
  }

  /** The party that is behind can go on, or the other one can. */
  lemma SomeoneMoves(g: Protocol, m0: Memory, s: State, at: Place, p: Party) returns (m: Move)
    requires Announced(g) && InvOf(g, m0, s, at, p) && at.Of(p) <= at.Of(p.Peer()) && at.Of(p) < |g|
    requires Share(g[at.Of(p)], p) != []
    ensures Enabled(s, m) && !m.atOnce
  {
    var q, i, j := p.Peer(), at.Of(p), at.Of(p.Peer());
    if g[i].Local? {
      NextOperation(g, i, p);
      m := Move(p, 0, false);
    } else if g[i].from == p {
      if s.Of(p).posted && i == j {
        m := ReceiverMoves(g, s, j, q, i);
      } else {
        m := SenderMoves(g, s, i, p, j);
      }
    } else if i < SentUpTo(s.Of(q), j) {
      m := ReceiverMoves(g, s, i, p, j);
    } else {
      m := SenderMoves(g, s, j, q, i);
    }
  }

  predicate AtNext(g: Protocol, p: Party, i: nat) {
    i < |g| ==> Share(g[i], p) != []
  }

  /** Both parties can be taken to stand at events of their own. */
  lemma BothAtNext(g: Protocol, m0: Memory, s: State, at: Place, p: Party) returns (at': Place)
    requires Inv(g, m0, s, at)
    ensures InvOf(g, m0, s, at', p) && AtNext(g, p, at'.Of(p)) && AtNext(g, p.Peer(), at'.Of(p.Peer()))
  {
    EitherView(g, m0, s, at, p);
    at' := SkipToNext(g, m0, s, at, p);
    EitherView(g, m0, s, at', p);
    EitherView(g, m0, s, at', p.Peer());
    at' := SkipToNext(g, m0, s, at', p.Peer());
    EitherView(g, m0, s, at', p.Peer());
    EitherView(g, m0, s, at', p);
  }

  lemma NotStuck(g: Protocol, m0: Memory, s: State, at: Place) returns (m: Move)
    requires Announced(g) && Inv(g, m0, s, at) && !s.Done()
    ensures Enabled(s, m) && !m.atOnce
  {
    var here := BothAtNext(g, m0, s, at, Client);
    EitherView(g, m0, s, here, Client);
    EitherView(g, m0, s, here, Server);
    m := SomeoneMoves(g, m0, s, here, if here.client <= here.server then Client else Server);
  }

  // --- Whole runs ---------------------------------------------------------------------------------

  lemma StartHolds(g: Protocol, m0: Memory)
    ensures Inv(g, m0, Start(g, m0), Place(0, 0, 0))
  {
    assert g[0..] == g;
  }

  lemma {:induction false} RunKeeps(g: Protocol, m0: Memory, s: State, at: Place, ms: seq<Move>) returns (at': Place)
    requires Announced(g) && HandedOver(g) && Inv(g, m0, s, at) && IsRun(s, ms)
    ensures Inv(g, m0, Exec(s, ms), at') && |ms| + Effort(Exec(s, ms)) <= Effort(s)
    decreases |ms|
  {
    at' := at;
    if ms != [] {
      at' := StepKeeps(g, m0, s, at, ms[0]);
      StepPays(s, ms[0]);
      at' := RunKeeps(g, m0, Step(s, ms[0]), at', ms[1..]);
    }
  }

  /**
    After any run, both parties are through or one of them can go on, even if no send completes before
    its message is received; and no run is longer than the effort the programs take.
   */
  lemma {:induction false} NeverStuck(g: Protocol, m0: Memory, ms: seq<Move>)
    requires Announced(g) && HandedOver(g) && IsRun(Start(g, m0), ms)
    ensures var s := Exec(Start(g, m0), ms); s.Done() || exists m :: Enabled(s, m) && !m.atOnce
    ensures |ms| <= Effort(Start(g, m0))
  {
    StartHolds(g, m0);
    var at := RunKeeps(g, m0, Start(g, m0), Place(0, 0, 0), ms);
    var s := Exec(Start(g, m0), ms);
    if !s.Done() {
      var m := NotStuck(g, m0, s, at);
    }
  }

  /** A party about to act finds the word as the actions before its own have made it. */
  lemma {:induction false} TurnIsSerial(g: Protocol, m0: Memory, s: State, at: Place, p: Party)
    requires HandedOver(g) && InvOf(g, m0, s, at, p)
    requires at.Of(p) < |g| && g[at.Of(p)].Local? && g[at.Of(p)].party == p
    ensures s.memory == Serial(g[..at.Of(p)], m0)
  {
    forall j: nat | j < |g| && g[j].Local?
      ensures j < at.Of(p) <==> j < at.acted
    {
      TurnOf(g, m0, s, at, p, j);
    }
    assert at.acted <= at.Of(p);
    SerialStays(g, at.acted, at.Of(p), m0);
  }

  /** The parties are not both about to act. */
  lemma OneTurn(g: Protocol, m0: Memory, s: State, at: Place, p: Party)
    requires HandedOver(g) && InvOf(g, m0, s, at, p)
    requires at.Of(p) < |g| && g[at.Of(p)].Local? && g[at.Of(p)].party == p
    requires at.Of(p.Peer()) < |g| && Share(g[at.Of(p.Peer())], p.Peer()) != []
    ensures g[at.Of(p.Peer())].Message?
  {
    var q := p.Peer();
    if g[at.Of(q)].Local? {
      EitherView(g, m0, s, at, p);
      EitherView(g, m0, s, at, q);
      TurnOf(g, m0, s, at, p, at.Of(q));
      TurnOf(g, m0, s, at, q, at.Of(p));
    }
  }

  /** What a party stands at when its next operation is an action, or is none. */
  lemma OperationAt(g: Protocol, p: Party, process: Process, i: nat)
    requires Placed(g, p, process, i) && AtNext(g, p, i)
    ensures process.rest == [] <==> i == |g|
    ensures process.rest != [] ==> (process.rest[0].Act? <==> g[i].Local?)
    ensures process.rest != [] && process.rest[0].Act? ==> g[i] == Local(p, process.rest[0].action)
  {
    if i < |g| {
      NextOperation(g, i, p);
    }
  }

  /**
    Data races are impossible and the word is serial: after any run, a party about to act is the only
    one, it stands at some event of the protocol, the word is what the actions before that event,
    performed in the order of the protocol, have made of it, and it has received exactly the messages
    that the protocol sends it before.
   */
  lemma ActionsAreSerial(g: Protocol, m0: Memory, ms: seq<Move>, p: Party) returns (k: nat)
    requires Announced(g) && HandedOver(g) && IsRun(Start(g, m0), ms)
    requires var s := Exec(Start(g, m0), ms); s.Of(p).rest != [] && s.Of(p).rest[0].Act?
    ensures var s := Exec(Start(g, m0), ms);
            && (s.Of(p.Peer()).rest != [] ==> !s.Of(p.Peer()).rest[0].Act?)
            && k < |g| && g[k] == Local(p, s.Of(p).rest[0].action) && s.Of(p).rest == Project(g[k..], p)
            && s.memory == Serial(g[..k], m0) && s.Of(p).heard == Heard(g[..k], p)
  {
    StartHolds(g, m0);
    var at := RunKeeps(g, m0, Start(g, m0), Place(0, 0, 0), ms);
    var s := Exec(Start(g, m0), ms);
    var here := BothAtNext(g, m0, s, at, p);
    k := here.Of(p);
    OperationAt(g, p, s.Of(p), k);
    OperationAt(g, p.Peer(), s.Of(p.Peer()), here.Of(p.Peer()));
    TurnIsSerial(g, m0, s, here, p);
    if s.Of(p.Peer()).rest != [] {
      OneTurn(g, m0, s, here, p);
    }
  }

  lemma {:induction false} EndIsSerial(g: Protocol, m0: Memory, memory: Memory, at: Place)
    requires InOrder(g, m0, memory, at) && at.client == |g| && at.server == |g|
    ensures memory == Serial(g, m0)
  {
    SerialStays(g, at.acted, |g|, m0);
    assert g[..|g|] == g;
  }

  lemma {:induction false} DoneAt(g: Protocol, m0: Memory, s: State, at: Place)
    requires InvOf(g, m0, s, at, Client) && AtNext(g, Client, at.client) && AtNext(g, Client.Peer(), at.Of(Client.Peer()))
    requires s.Done()
    ensures s.memory == Serial(g, m0)
  {
    OperationAt(g, Client, s.client, at.client);
    OperationAt(g, Server, s.server, at.server);
    EndIsSerial(g, m0, s.memory, at);
  }

  lemma {:induction false} DoneIsSerial(g: Protocol, m0: Memory, s: State, at: Place)
    requires Inv(g, m0, s, at) && s.Done()
    ensures s.memory == Serial(g, m0)
  {
    var here := BothAtNext(g, m0, s, at, Client);
    DoneAt(g, m0, s, here);
  }

  /** When both parties are through, all actions of the protocol have been performed, in its order. */
  lemma {:induction false} OutcomeIsSerial(g: Protocol, m0: Memory, ms: seq<Move>)
    requires Announced(g) && HandedOver(g) && IsRun(Start(g, m0), ms) && Exec(Start(g, m0), ms).Done()
    ensures Exec(Start(g, m0), ms).memory == Serial(g, m0)
  {
    StartHolds(g, m0);
    var at := RunKeeps(g, m0, Start(g, m0), Place(0, 0, 0), ms);
    DoneIsSerial(g, m0, Exec(Start(g, m0), ms), at);
  }

  lemma {:induction false} NothingLeftToHear(g: Protocol, p: Party)
    requires Project(g, p) == []
    ensures Heard(g, p) == []
  {
    if g != [] {
      assert Share(g[0], p) == [] && Project(g[1..], p) == [];
      NothingLeftToHear(g[1..], p);
    }
  }

  lemma {:induction false} PlacedHasHeard(g: Protocol, p: Party, process: Process, i: nat)
    requires Placed(g, p, process, i)
    ensures process.heard <= Heard(g, p) && (process.rest == [] ==> process.heard == Heard(g, p))
  {
    assert g == g[..i] + g[i..];
    HeardAppend(g[..i], g[i..], p);
    if process.rest == [] {
      NothingLeftToHear(g[i..], p);
    }
  }

  /**
    A party has received the first of the messages that the protocol sends it, each of them whole and
    in order, and once it is through, all of them.
   */
  lemma {:induction false} MessagesArrive(g: Protocol, m0: Memory, ms: seq<Move>, p: Party)
    requires Announced(g) && HandedOver(g) && IsRun(Start(g, m0), ms)
    ensures var s := Exec(Start(g, m0), ms);
            s.Of(p).heard <= Heard(g, p) && (s.Of(p).rest == [] ==> s.Of(p).heard == Heard(g, p))
  {
    StartHolds(g, m0);
    var at := RunKeeps(g, m0, Start(g, m0), Place(0, 0, 0), ms);
    PlacedHasHeard(g, p, Exec(Start(g, m0), ms).Of(p), at.Of(p));
  }
}
