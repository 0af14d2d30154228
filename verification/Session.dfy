/**
  Two parties that exchange tagged messages and stream bytes, each running its own fixed program, and
  that act on one shared word. A send may complete at once, or only when its message has been
  received; a loop may take a message off the stream in pieces.

  The pair of programs is judged against a protocol: one list of the messages and actions of both,
  in an order that fits each of them.
 */
module Session {
  import opened Prelude
  import Framing
  import opened Atomics

  datatype Party = Client | Server {
    function Peer(): Party {
      if Client? then Server else Client
    }
  }

  datatype Kind = TestTag | BellTag | Stream

  datatype Channel = Channel(from: Party, kind: Kind)

  /** What a queue holds: whole tagged messages, or the octets of a stream. */
  datatype Unit = Packet(bytes: seq<byte>) | Octet(octet: byte)

  /** `ReceiveRest` is a loop over partial reads; the eight octets received before it say how many. */
  datatype Op =
    | Send(kind: Kind, units: seq<Unit>)
    | Receive(kind: Kind, size: nat)
    | ReceiveRest(kind: Kind)
    | Act(action: Action)

  /**
    A party: the rest of its program, whether the message of its current send is on its way, what its
    current loop has read so far, and all the messages it has received.
   */
  datatype Process = Process(rest: seq<Op>, posted: bool, got: seq<Unit>, heard: seq<seq<Unit>>)

  datatype State = State(client: Process, server: Process, queues: map<Channel, seq<Unit>>, memory: Memory) {
    function Of(p: Party): Process {
      if p.Client? then client else server
    }

    function With(p: Party, process: Process): State {
      if p.Client? then this.(client := process) else this.(server := process)
    }

    function Queue(c: Channel): seq<Unit> {
      if c in queues then queues[c] else []
    }

    /** No party has anything left to do. */
    predicate Done() {
      client.rest == [] && server.rest == []
    }
  }

  /** One party goes on; `n` units are read, and `atOnce` says that a send need not be received first. */
  datatype Move = Move(party: Party, n: nat, atOnce: bool)

  function Octets(units: seq<Unit>): seq<byte> {
    seq(|units|, (k: nat) requires k < |units| => if units[k].Octet? then units[k].octet else 0)
  }

  function Units(bytes: seq<byte>): seq<Unit> {
    seq(|bytes|, (k: nat) requires k < |bytes| => Octet(bytes[k]))
  }

  /** How much the loop is to read: the integer in the octets of the message received last. */
  function LoopSize(process: Process): nat {
    Framing.HeaderValue(Octets(if process.heard == [] then [] else process.heard[|process.heard| - 1]))
  }

  predicate Enabled(s: State, m: Move) {
    var self := s.Of(m.party);
    self.rest != [] &&
    match self.rest[0]
    case Send(kind, _) => self.posted ==> m.atOnce || s.Queue(Channel(m.party, kind)) == []
    case Receive(kind, size) => m.n == size && size <= |s.Queue(Channel(m.party.Peer(), kind))|
    case ReceiveRest(kind) =>
      && m.n <= |s.Queue(Channel(m.party.Peer(), kind))|
      && |self.got| + m.n <= LoopSize(self)
      && (m.n > 0 || |self.got| == LoopSize(self))
    case Act(_) => true
  }

  function Step(s: State, m: Move): State
    requires Enabled(s, m)
  {
    var self := s.Of(m.party);
    match self.rest[0]
    case Send(kind, units) =>
      var c := Channel(m.party, kind);
      if self.posted then s.With(m.party, self.(rest := self.rest[1..], posted := false))
      else s.(queues := s.queues[c := s.Queue(c) + units]).With(m.party, self.(posted := true))
    case Receive(kind, _) =>
      var c := Channel(m.party.Peer(), kind);
      s.(queues := s.queues[c := s.Queue(c)[m.n..]])
       .With(m.party, self.(rest := self.rest[1..], heard := self.heard + [s.Queue(c)[..m.n]]))
    case ReceiveRest(kind) =>
      var c := Channel(m.party.Peer(), kind);
      var got := self.got + s.Queue(c)[..m.n];
      s.(queues := s.queues[c := s.Queue(c)[m.n..]])
       .With(m.party, if |got| == LoopSize(self) then self.(rest := self.rest[1..], got := [], heard := self.heard + [got])
                      else self.(got := got))
    case Act(action) =>
      s.(memory := Perform(action, s.memory)).With(m.party, self.(rest := self.rest[1..]))
  }

  predicate IsRun(s: State, ms: seq<Move>)
    decreases |ms|
  {
    ms == [] || (Enabled(s, ms[0]) && IsRun(Step(s, ms[0]), ms[1..]))
  }

  function Exec(s: State, ms: seq<Move>): State
    requires IsRun(s, ms)
    decreases |ms|
  {
    if ms == [] then s else Exec(Step(s, ms[0]), ms[1..])
  }

  // ------------------------------------------------------------------------------------------------

  /** A protocol is a list of events; `loop` says that the message is received by a loop. */
  datatype Event =
    | Message(from: Party, kind: Kind, units: seq<Unit>, loop: bool)
    | Local(party: Party, action: Action)

  type Protocol = seq<Event>

  /** The part of an event that one party plays. */
  function Share(e: Event, p: Party): seq<Op> {
    match e
    case Message(from, kind, units, loop) =>
      if from == p then [Send(kind, units)] else if loop then [ReceiveRest(kind)] else [Receive(kind, |units|)]
    case Local(party, action) =>
      if party == p then [Act(action)] else []
  }

  function Project(g: Protocol, p: Party): seq<Op> {
    if g == [] then [] else Share(g[0], p) + Project(g[1..], p)
  }

  /** The events of the protocol acting on the word, one after the other. */
  function Serial(g: Protocol, m: Memory): Memory {
    if g == [] then m else Serial(g[1..], if g[0].Local? then Perform(g[0].action, m) else m)
  }

  function Start(g: Protocol, m: Memory): State {
    State(Process(Project(g, Client), false, [], []), Process(Project(g, Server), false, [], []), map[], m)
  }

  /** A message read by a loop follows the one that says how long it is. */
  ghost predicate Announced(g: Protocol) {
    forall r :: 0 <= r < |g| && g[r].Message? && g[r].loop ==>
      && r > 0 && g[r - 1].Message? && g[r - 1].from == g[r].from
      && Framing.HeaderValue(Octets(g[r - 1].units)) == |g[r].units|
  }

  /** Between actions of two parties, the first has sent the second a message. */
  ghost predicate HandedOver(g: Protocol) {
    forall j, k :: 0 <= j < k < |g| && g[j].Local? && g[k].Local? && g[j].party != g[k].party ==>
      exists r :: j < r < k && Notice(g[r], g[j].party)
  }

  predicate Notice(e: Event, from: Party) {
    e.Message? && e.from == from && e.units != []
  }

  // ------------------------------------------------------------------------------------------------

  /** Where in the protocol a state is: each party's place, and how many events have acted. */
  datatype Place = Place(client: nat, server: nat, acted: nat) {
    function Of(p: Party): nat {
      if p.Client? then client else server
    }

    function With(p: Party, at: nat): Place {
      if p.Client? then this.(client := at) else this.(server := at)
    }
  }

  /** The events up to here whose messages a party at place `i` has sent. */
  function SentUpTo(process: Process, i: nat): nat {
    i + (if process.posted then 1 else 0)
  }

  function UnitsOn(e: Event, c: Channel): seq<Unit> {
    if e.Message? && e.from == c.from && e.kind == c.kind then e.units else []
  }

  /** The units of a channel's messages from place `lo` up to place `hi`. */
  function Backlog(g: Protocol, c: Channel, lo: nat, hi: nat): seq<Unit>
    requires hi <= |g|
    decreases hi - lo
  {
    if lo >= hi then [] else UnitsOn(g[lo], c) + Backlog(g, c, lo + 1, hi)
  }

  /** What a receiver's current loop has read from a queue of the given kind. */
  function GotOn(process: Process, kind: Kind): seq<Unit> {
    if process.rest != [] && process.rest[0] == ReceiveRest(kind) then process.got else []
  }

  /** What an event sends to a party. */
  function News(e: Event, p: Party): seq<seq<Unit>> {
    if e.Message? && e.from != p then [e.units] else []
  }

  /** The messages to a party. */
  function Heard(g: Protocol, p: Party): seq<seq<Unit>> {
    if g == [] then [] else News(g[0], p) + Heard(g[1..], p)
  }

  /** A party at place `i` has the rest of its side to do, and knows what it has received. */
  ghost predicate Placed(g: Protocol, p: Party, process: Process, i: nat) {
    && i <= |g|
    && process.rest == Project(g[i..], p)
    && (process.posted ==> i < |g| && g[i].Message? && g[i].from == p)
    && (process.got != [] ==> process.rest != [] && process.rest[0].ReceiveRest? && |process.got| <= LoopSize(process))
    && process.heard == Heard(g[..i], p)
  }

  /** A channel holds what was sent and not received. */
  ghost predicate Carried(g: Protocol, c: Channel, sender: Process, i: nat, receiver: Process, j: nat, queue: seq<Unit>) {
    SentUpTo(sender, i) <= |g| && GotOn(receiver, c.kind) + queue == Backlog(g, c, j, SentUpTo(sender, i))
  }

  /** No message is received before it is sent. */
  ghost predicate Causal(g: Protocol, from: Party, sent: nat, received: nat) {
    received <= |g| && forall r :: sent <= r < received ==> !Notice(g[r], from)
  }

  /** The first `acted` events have acted, in order, and no others. */
  ghost predicate InOrder(g: Protocol, m0: Memory, memory: Memory, at: Place) {
    && at.acted <= |g| && memory == Serial(g[..at.acted], m0)
    && forall k :: 0 <= k < |g| && g[k].Local? ==> (k < at.acted <==> k < at.Of(g[k].party))
  }

  /** What is sent in one direction. */
  ghost predicate Flows(g: Protocol, from: Party, sender: Process, i: nat, receiver: Process, j: nat, s: State) {
    && (forall kind :: Carried(g, Channel(from, kind), sender, i, receiver, j, s.Queue(Channel(from, kind))))
    && Causal(g, from, SentUpTo(sender, i), j)
  }

  ghost predicate Inv(g: Protocol, m0: Memory, s: State, at: Place) {
    && Placed(g, Client, s.client, at.client) && Placed(g, Server, s.server, at.server)
    && Flows(g, Client, s.client, at.client, s.server, at.server, s)
    && Flows(g, Server, s.server, at.server, s.client, at.client, s)
    && InOrder(g, m0, s.memory, at)
  }

  /** The same, seen from one party. */
  ghost predicate InvOf(g: Protocol, m0: Memory, s: State, at: Place, p: Party) {
    var q := p.Peer();
    && Placed(g, p, s.Of(p), at.Of(p)) && Placed(g, q, s.Of(q), at.Of(q))
    && Flows(g, p, s.Of(p), at.Of(p), s.Of(q), at.Of(q), s)
    && Flows(g, q, s.Of(q), at.Of(q), s.Of(p), at.Of(p), s)
    && InOrder(g, m0, s.memory, at)
  }
}
