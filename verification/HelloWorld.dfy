/**
  The session of the helloworld example: its two programs, and the protocol they are the sides of.
  The client greets, learns where the server's buffer and its word are, and runs six atomic
  operations on the word. After each it rings a bell and waits for the server's, which prints the
  word before it rings back.
 */
module HelloWorld {
  import opened Prelude
  import opened Codec
  import Framing
  import opened Atomics
  import opened Session
  import opened SessionTheorems

  /** What one run of the example depends on. `bell` is the content of an uninitialized variable. */
  datatype Setup = Setup(
    hello: seq<byte>,
    world: seq<byte>,
    bufferAddress: nat,
    bufferKey: seq<byte>,
    wordAddress: nat,
    wordKey: seq<byte>,
    bell: seq<byte>,
    word: bv64,
    addend: bv64)

  /** The client's operations in their order. The source has 42 as the word and 1 as the addend. */
  function Operations(c: Setup): seq<Action> {
    [FetchAdd(c.addend), CompareSwap, Swap, FetchAnd, FetchOr, FetchXor]
  }

  // --- The two programs ---------------------------------------------------------------------------

  /** `receive_mr`: the remote address, the length of the key, the key. */
  const RECEIVE_MR: seq<Op> := [Receive(Stream, 8), Receive(Stream, 8), ReceiveRest(Stream)]

  function SendMr(address: nat, key: seq<byte>): seq<Op> {
    [Send(Stream, Units(NetworkOrder(address, 8))),
     Send(Stream, Units(NetworkOrder(|key|, 8))),
     Send(Stream, Units(key))]
  }

  function Ring(c: Setup): Op {
    Send(BellTag, [Packet(c.bell)])
  }

  function ClientRound(c: Setup, a: Action): seq<Op> {
    [Act(a), Ring(c), Receive(BellTag, 1)]
  }

  function ClientRounds(c: Setup, actions: seq<Action>): seq<Op> {
    if actions == [] then [] else ClientRound(c, actions[0]) + ClientRounds(c, actions[1..])
  }

  function ClientProgram(c: Setup): seq<Op> {
    [Receive(TestTag, 1), Send(TestTag, [Packet(c.world)])]
    + [Receive(Stream, |c.hello|), Send(Stream, Units(c.world))]
    + RECEIVE_MR + [Ring(c)] + RECEIVE_MR
    + ClientRounds(c, Operations(c))
  }

  function ServerRound(c: Setup): seq<Op> {
    [Receive(BellTag, 1), Act(Show), Ring(c)]
  }

  function ServerRounds(c: Setup, n: nat): seq<Op> {
    if n == 0 then [] else ServerRound(c) + ServerRounds(c, n - 1)
  }

  function ServerProgram(c: Setup): seq<Op> {
    [Send(TestTag, [Packet(c.hello)]), Receive(TestTag, 1)]
    + [Send(Stream, Units(c.hello)), Receive(Stream, |c.world|)]
    + SendMr(c.bufferAddress, c.bufferKey) + [Receive(BellTag, 1)]
    + [Act(Publish(c.word))] + SendMr(c.wordAddress, c.wordKey)
    + ServerRounds(c, 6)
  }

  /** Both parties at their beginnings, with nothing printed. */
  function Beginning(c: Setup, value: bv64): State {
    State(Process(ClientProgram(c), false, [], []), Process(ServerProgram(c), false, [], []), map[],
          Memory(value, 0, 0, [], []))
  }

  // --- Their protocol -----------------------------------------------------------------------------

  function Greeting(c: Setup): Protocol {
    [Message(Server, TestTag, [Packet(c.hello)], false), Message(Client, TestTag, [Packet(c.world)], false),
     Message(Server, Stream, Units(c.hello), false), Message(Client, Stream, Units(c.world), false)]
  }

  function Transfer(address: nat, key: seq<byte>): Protocol {
    [Message(Server, Stream, Units(NetworkOrder(address, 8)), false),
     Message(Server, Stream, Units(NetworkOrder(|key|, 8)), false),
     Message(Server, Stream, Units(key), true)]
  }

  function Bell(c: Setup, from: Party): Event {
    Message(from, BellTag, [Packet(c.bell)], false)
  }

  function Round(c: Setup, a: Action): Protocol {
    [Local(Client, a), Bell(c, Client), Local(Server, Show), Bell(c, Server)]
  }

  function Rounds(c: Setup, actions: seq<Action>): Protocol {
    if actions == [] then [] else Round(c, actions[0]) + Rounds(c, actions[1..])
  }

  function Opening(c: Setup): Protocol {
    Greeting(c) + Transfer(c.bufferAddress, c.bufferKey) + [Bell(c, Client)]
    + ([Local(Server, Publish(c.word))] + Transfer(c.wordAddress, c.wordKey))
  }

  function Whole(c: Setup): Protocol {
    Opening(c) + Rounds(c, Operations(c))
  }

  /** The lengths of the keys fit the eight bytes that announce them. */
  predicate Fits(c: Setup) {
    Framing.Encodable(c.bufferKey) && Framing.Encodable(c.wordKey)
  }

  // --- The programs are the sides of the protocol -------------------------------------------------

  lemma {:induction false} ProjectAppend(a: Protocol, b: Protocol, p: Party)
    ensures Project(a + b, p) == Project(a, p) + Project(b, p)
  {
    if a == [] {
      assert a + b == b;
    } else {
      assert (a + b)[1..] == a[1..] + b;
      ProjectAppend(a[1..], b, p);
    }
  }

  lemma {:induction false} ProjectOne(e: Event, p: Party)
    ensures Project([e], p) == Share(e, p)
  {
    assert [e][1..] == [];
  }

  lemma {:induction false} ProjectThree(e: Event, f: Event, h: Event, p: Party)
    ensures Project([e, f, h], p) == Share(e, p) + Share(f, p) + Share(h, p)
  {
    assert [e, f, h][1..] == [f, h] && [f, h][1..] == [h];
    ProjectOne(h, p);
  }

  lemma {:induction false} ProjectFour(e: Event, f: Event, h: Event, k: Event, p: Party)
    ensures Project([e, f, h, k], p) == Share(e, p) + Share(f, p) + Share(h, p) + Share(k, p)
  {
    assert [e, f, h, k] == [e, f, h] + [k];
    ProjectAppend([e, f, h], [k], p);
    ProjectThree(e, f, h, p);
    ProjectOne(k, p);
  }

  lemma {:induction false} RoundsAreSides(c: Setup, actions: seq<Action>)
    ensures Project(Rounds(c, actions), Client) == ClientRounds(c, actions)
    ensures Project(Rounds(c, actions), Server) == ServerRounds(c, |actions|)
  {
    if actions != [] {
      var a := actions[0];
      RoundsAreSides(c, actions[1..]);
      ProjectAppend(Round(c, a), Rounds(c, actions[1..]), Client);
      ProjectAppend(Round(c, a), Rounds(c, actions[1..]), Server);
      ProjectFour(Local(Client, a), Bell(c, Client), Local(Server, Show), Bell(c, Server), Client);
      ProjectFour(Local(Client, a), Bell(c, Client), Local(Server, Show), Bell(c, Server), Server);
      assert Project(Round(c, a), Client) == ClientRound(c, a);
      assert Project(Round(c, a), Server) == ServerRound(c);
    }
  }

  lemma TransferSides(address: nat, key: seq<byte>)
    ensures Project(Transfer(address, key), Client) == RECEIVE_MR
    ensures Project(Transfer(address, key), Server) == SendMr(address, key)
  {
    var t := Transfer(address, key);
    ProjectThree(t[0], t[1], t[2], Client);
    ProjectThree(t[0], t[1], t[2], Server);
  }

  lemma GreetingSides(c: Setup)
    ensures Project(Greeting(c), Client) == ClientProgram(c)[..4]
    ensures Project(Greeting(c), Server) == ServerProgram(c)[..4]
  {
    var t := Greeting(c);
    ProjectFour(t[0], t[1], t[2], t[3], Client);
    ProjectFour(t[0], t[1], t[2], t[3], Server);
  }

  lemma {:induction false} OpeningSide(c: Setup, p: Party)
    ensures Project(Opening(c), p)
         == Project(Greeting(c), p) + Project(Transfer(c.bufferAddress, c.bufferKey), p) + Share(Bell(c, Client), p)
            + (Share(Local(Server, Publish(c.word)), p) + Project(Transfer(c.wordAddress, c.wordKey), p))
  {
    var t1, t2 := Transfer(c.bufferAddress, c.bufferKey), Transfer(c.wordAddress, c.wordKey);
    ProjectAppend(Greeting(c), t1, p);
    ProjectAppend(Greeting(c) + t1, [Bell(c, Client)], p);
    ProjectAppend([Local(Server, Publish(c.word))], t2, p);
    ProjectAppend(Greeting(c) + t1 + [Bell(c, Client)], [Local(Server, Publish(c.word))] + t2, p);
    ProjectOne(Bell(c, Client), p);
    ProjectOne(Local(Server, Publish(c.word)), p);
  }

  lemma ClientIsASide(c: Setup)
    ensures Project(Whole(c), Client) == ClientProgram(c)
  {
    GreetingSides(c);
    TransferSides(c.bufferAddress, c.bufferKey);
    TransferSides(c.wordAddress, c.wordKey);
    OpeningSide(c, Client);
    RoundsAreSides(c, Operations(c));
    ProjectAppend(Opening(c), Rounds(c, Operations(c)), Client);
  }

  lemma ServerIsASide(c: Setup)
    ensures Project(Whole(c), Server) == ServerProgram(c)
  {
    GreetingSides(c);
    TransferSides(c.bufferAddress, c.bufferKey);
    TransferSides(c.wordAddress, c.wordKey);
    OpeningSide(c, Server);
    RoundsAreSides(c, Operations(c));
    ProjectAppend(Opening(c), Rounds(c, Operations(c)), Server);
  }

  /** The two programs, written as the source has them, are the two sides of the protocol. */
  lemma ProgramsAreSides(c: Setup, value: bv64)
    ensures Beginning(c, value) == Start(Whole(c), Memory(value, 0, 0, [], []))
  {
    ClientIsASide(c);
    ServerIsASide(c);
  }

  // --- The protocol is well made ------------------------------------------------------------------

  /** Whoever acts tells the other party afterwards. */
  ghost predicate Released(g: Protocol) {
    forall j :: 0 <= j < |g| && g[j].Local? ==> exists r :: j < r < |g| && Notice(g[r], g[j].party)
  }

  ghost predicate Orderly(g: Protocol) {
    Announced(g) && HandedOver(g) && Released(g)
  }

  lemma AnnouncedAppend(a: Protocol, b: Protocol)
    requires Announced(a) && Announced(b)
    ensures Announced(a + b)
  {
    var g := a + b;
    forall r | 0 <= r < |g| && g[r].Message? && g[r].loop
      ensures r > 0 && g[r - 1].Message? && g[r - 1].from == g[r].from
      ensures Framing.HeaderValue(Octets(g[r - 1].units)) == |g[r].units|
    {
      assert r >= |a| ==> g[r] == b[r - |a|] && (r > |a| ==> g[r - 1] == b[r - |a| - 1]);
    }
  }

  lemma ReleasedAppend(a: Protocol, b: Protocol)
    requires Released(a) && Released(b)
    ensures Released(a + b)
  {
    var g := a + b;
    forall j | 0 <= j < |g| && g[j].Local?
      ensures exists r :: j < r < |g| && Notice(g[r], g[j].party)
    {
      if j < |a| {
        var r :| j < r < |a| && Notice(a[r], a[j].party);
        assert Notice(g[r], g[j].party);
      } else {
        var r :| j - |a| < r < |b| && Notice(b[r], b[j - |a|].party);
        assert Notice(g[|a| + r], g[j].party);
      }
    }
  }

  lemma HandedOverAppend(a: Protocol, b: Protocol)
    requires HandedOver(a) && Released(a) && HandedOver(b)
    ensures HandedOver(a + b)
  {
    var g := a + b;
    forall j, k | 0 <= j < k < |g| && g[j].Local? && g[k].Local? && g[j].party != g[k].party
      ensures exists r :: j < r < k && Notice(g[r], g[j].party)
    {
      if k < |a| {
        var r :| j < r < k && Notice(a[r], a[j].party);
        assert Notice(g[r], g[j].party);
      } else if j < |a| {
        var r :| j < r < |a| && Notice(a[r], a[j].party);
        assert Notice(g[r], g[j].party);
      } else {
        assert b[j - |a|] == g[j] && b[k - |a|] == g[k];
        var r :| j - |a| < r < k - |a| && Notice(b[r], b[j - |a|].party);
        assert Notice(g[|a| + r], g[j].party);
      }
    }
  }

  lemma OrderlyAppend(a: Protocol, b: Protocol)
    requires Orderly(a) && Orderly(b)
    ensures Orderly(a + b)
  {
    AnnouncedAppend(a, b);
    ReleasedAppend(a, b);
    HandedOverAppend(a, b);
  }

  lemma TransferIsOrderly(address: nat, key: seq<byte>)
    requires Framing.Encodable(key)
    ensures Orderly(Transfer(address, key))
  {
    Framing.HeaderOfFrame(key);
    var header := NetworkOrder(|key|, 8);
    assert Octets(Units(header)) == header;
  }

  /** What the server puts before it announces its word. */
  lemma PublishIsOrderly(c: Setup)
    requires Framing.Encodable(c.wordKey)
    ensures Orderly([Local(Server, Publish(c.word))] + Transfer(c.wordAddress, c.wordKey))
  {
    var t := Transfer(c.wordAddress, c.wordKey);
    var g := [Local(Server, Publish(c.word))] + t;
    TransferIsOrderly(c.wordAddress, c.wordKey);
    AnnouncedAppend([g[0]], t);
    assert |Units(NetworkOrder(c.wordAddress, 8))| == 8;
    assert g[1] == t[0] && Notice(g[1], Server);
  }

  lemma RoundIsOrderly(c: Setup, a: Action)
    ensures Orderly(Round(c, a))
  {
    var g := Round(c, a);
    assert Notice(g[1], Client) && Notice(g[3], Server);
  }

  lemma {:induction false} RoundsAreOrderly(c: Setup, actions: seq<Action>)
    ensures Orderly(Rounds(c, actions))
  {
    if actions != [] {
      RoundIsOrderly(c, actions[0]);
      RoundsAreOrderly(c, actions[1..]);
      OrderlyAppend(Round(c, actions[0]), Rounds(c, actions[1..]));
    }
  }

  lemma WholeIsOrderly(c: Setup)
    requires Fits(c)
    ensures Orderly(Whole(c))
  {
    TransferIsOrderly(c.bufferAddress, c.bufferKey);
    PublishIsOrderly(c);
    OrderlyAppend(Greeting(c), Transfer(c.bufferAddress, c.bufferKey));
    OrderlyAppend(Greeting(c) + Transfer(c.bufferAddress, c.bufferKey), [Bell(c, Client)]);
    OrderlyAppend(Greeting(c) + Transfer(c.bufferAddress, c.bufferKey) + [Bell(c, Client)],
                  [Local(Server, Publish(c.word))] + Transfer(c.wordAddress, c.wordKey));
    RoundsAreOrderly(c, Operations(c));
    OrderlyAppend(Opening(c), Rounds(c, Operations(c)));
  }

  // --- What the actions do, one after the other ---------------------------------------------------

  lemma {:induction false} SerialAppend(a: Protocol, b: Protocol, m: Memory)
    ensures Serial(a + b, m) == Serial(b, Serial(a, m))
  {
    if a == [] {
      assert a + b == b;
    } else {
      assert (a + b)[1..] == a[1..] + b;
      SerialAppend(a[1..], b, if a[0].Local? then Perform(a[0].action, m) else m);
    }
  }

  lemma {:induction false} MessagesDoNothing(g: Protocol, m: Memory)
    requires forall k :: 0 <= k < |g| ==> !g[k].Local?
    ensures Serial(g, m) == m
  {
    if g != [] {
      MessagesDoNothing(g[1..], m);
    }
  }

  lemma {:induction false} OpeningPublishes(c: Setup, m: Memory)
    ensures Serial(Opening(c), m) == Perform(Publish(c.word), m)
  {
    var t1, t2 := Greeting(c) + Transfer(c.bufferAddress, c.bufferKey) + [Bell(c, Client)], Transfer(c.wordAddress, c.wordKey);
    var publish := Local(Server, Publish(c.word));
    MessagesDoNothing(t1, m);
    SerialAppend(t1, [publish] + t2, m);
    assert ([publish] + t2)[1..] == t2;
    MessagesDoNothing(t2, Perform(Publish(c.word), m));
  }

  /** Operations of the client, each followed by the server's look at the word. */
  function RoundsDo(actions: seq<Action>, m: Memory): Memory {
    if actions == [] then m else RoundsDo(actions[1..], Perform(Show, Perform(actions[0], m)))
  }

  /** The word after the first `n` rounds. */
  function After(c: Setup, m: Memory, n: nat): Memory
    requires n <= 6
  {
    RoundsDo(Operations(c)[..n], Perform(Publish(c.word), m))
  }

  lemma {:induction false} RoundIsSerial(c: Setup, a: Action, m: Memory)
    ensures Serial(Round(c, a), m) == Perform(Show, Perform(a, m))
  {
    var g := Round(c, a);
    var m1 := Perform(a, m);
    assert g == [g[0]] + [g[1], g[2], g[3]] && [g[1], g[2], g[3]] == [g[1]] + [g[2], g[3]] && [g[2], g[3]] == [g[2]] + [g[3]];
    SerialAppend([g[0]], [g[1], g[2], g[3]], m);
    SerialAppend([g[1]], [g[2], g[3]], m1);
    SerialAppend([g[2]], [g[3]], m1);
  }

  lemma {:induction false} RoundsAreSerial(c: Setup, actions: seq<Action>, m: Memory)
    ensures Serial(Rounds(c, actions), m) == RoundsDo(actions, m)
  {
    if actions != [] {
      RoundIsSerial(c, actions[0], m);
      SerialAppend(Round(c, actions[0]), Rounds(c, actions[1..]), m);
      RoundsAreSerial(c, actions[1..], Perform(Show, Perform(actions[0], m)));
    }
  }

  /** Where the server looks at the word: after one of the client's operations and its bell. */
  lemma {:induction false} ShowFollows(c: Setup, actions: seq<Action>, k: nat) returns (n: nat)
    requires k < |Rounds(c, actions)| && Rounds(c, actions)[k] == Local(Server, Show)
    ensures n < |actions|
    ensures Rounds(c, actions)[..k] == Rounds(c, actions[..n]) + [Local(Client, actions[n]), Bell(c, Client)]
  {
    var first, rest := Round(c, actions[0]), Rounds(c, actions[1..]);
    if k < 4 {
      n := 0;
      assert (first + rest)[..k] == [Local(Client, actions[0]), Bell(c, Client)];
    } else {
      n := ShowFollows(c, actions[1..], k - 4);
      assert (first + rest)[..k] == first + rest[..k - 4];
      assert actions[..n + 1][0] == actions[0] && actions[..n + 1][1..] == actions[1..][..n];
      n := n + 1;
    }
  }

  lemma OpeningHasNoShow(c: Setup, k: nat)
    requires k < |Opening(c)|
    ensures Opening(c)[k] != Local(Server, Show)
  {
  }

  lemma {:induction false} SerialUpToShow(c: Setup, m: Memory, n: nat, last: Protocol, g: Protocol)
    requires n < 6 && last == [Local(Client, Operations(c)[n]), Bell(c, Client)]
    requires g == Opening(c) + (Rounds(c, Operations(c)[..n]) + last)
    ensures Serial(g, m) == Perform(Operations(c)[n], After(c, m, n))
  {
    var ops, m1 := Operations(c), Perform(Publish(c.word), m);
    OpeningPublishes(c, m);
    SerialAppend(Opening(c), Rounds(c, ops[..n]) + last, m);
    SerialAppend(Rounds(c, ops[..n]), last, m1);
    RoundsAreSerial(c, ops[..n], m1);
    assert last[1..] == [last[1]];
    MessagesDoNothing(last[1..], Perform(ops[n], After(c, m, n)));
  }

  lemma {:induction false} UpToShow(c: Setup, m: Memory, k: nat) returns (n: nat)
    requires k < |Whole(c)| && Whole(c)[k] == Local(Server, Show)
    ensures n < 6 && Serial(Whole(c)[..k], m) == Perform(Operations(c)[n], After(c, m, n))
  {
    var a, b, ops := Opening(c), Rounds(c, Operations(c)), Operations(c);
    if k < |a| {
      OpeningHasNoShow(c, k);
    }
    n := ShowFollows(c, ops, k - |a|);
    assert Whole(c)[..k] == a + b[..k - |a|];
    SerialUpToShow(c, m, n, [Local(Client, ops[n]), Bell(c, Client)], Whole(c)[..k]);
  }

  lemma {:induction false} PrintedSoFar(actions: seq<Action>, m: Memory)
    requires forall k :: 0 <= k < |actions| ==> !actions[k].Show?
    ensures |RoundsDo(actions, m).shown| == |m.shown| + |actions|
  {
    if actions != [] {
      PrintedSoFar(actions[1..], Perform(Show, Perform(actions[0], m)));
    }
  }

  lemma PrintedWhen(c: Setup, m: Memory, n: nat)
    requires n < 6
    ensures |Perform(Operations(c)[n], After(c, m, n)).shown| == |m.shown| + n
  {
    PrintedSoFar(Operations(c)[..n], Perform(Publish(c.word), m));
  }

  // --- The session --------------------------------------------------------------------------------

  /** Whatever completes when, the two programs end, and no run of them gets stuck before. */
  lemma {:induction false} SessionCompletes(c: Setup, value: bv64, ms: seq<Move>)
    requires Fits(c) && IsRun(Beginning(c, value), ms)
    ensures var s := Exec(Beginning(c, value), ms); s.Done() || exists m :: Enabled(s, m) && !m.atOnce
    ensures |ms| <= Effort(Beginning(c, value))
  {
    ProgramsAreSides(c, value);
    WholeIsOrderly(c);
    NeverStuck(Whole(c), Memory(value, 0, 0, [], []), ms);
  }

  lemma OnlyFetchAdd(c: Setup, k: nat)
    requires k < |Whole(c)| && Whole(c)[k] == Local(Client, FetchAdd(c.addend))
    ensures k == |Opening(c)|
  {
    var ops := Operations(c);
    if k > |Opening(c)| {
      var rest := Rounds(c, ops[1..]);
      assert Whole(c) == Opening(c) + Round(c, ops[0]) + rest;
      assert rest[k - |Opening(c)| - 4] == Whole(c)[k];
      RoundsActions(c, ops[1..], k - |Opening(c)| - 4);
    }
  }

  lemma {:induction false} RoundsActions(c: Setup, actions: seq<Action>, k: nat)
    requires k < |Rounds(c, actions)| && Rounds(c, actions)[k].Local? && Rounds(c, actions)[k].party.Client?
    ensures Rounds(c, actions)[k].action in actions
  {
    if k >= 4 {
      RoundsActions(c, actions[1..], k - 4);
    }
  }

  /** An address, the length of a key, and the key, as they arrive. */
  function Handle(address: nat, key: seq<byte>): seq<seq<Unit>> {
    [Units(NetworkOrder(address, 8)), Units(NetworkOrder(|key|, 8)), Units(key)]
  }

  function Bells(c: Setup, n: nat): seq<seq<Unit>> {
    if n == 0 then [] else [[Packet(c.bell)]] + Bells(c, n - 1)
  }

  /** All that the client is to receive, and all that the server is. */
  function ClientHears(c: Setup): seq<seq<Unit>> {
    [[Packet(c.hello)], Units(c.hello)] + Handle(c.bufferAddress, c.bufferKey) + Handle(c.wordAddress, c.wordKey) + Bells(c, 6)
  }

  function ServerHears(c: Setup): seq<seq<Unit>> {
    [[Packet(c.world)], Units(c.world)] + Bells(c, 7)
  }

  lemma {:induction false} HeardThree(e: Event, f: Event, h: Event, p: Party)
    ensures Heard([e, f, h], p) == News(e, p) + News(f, p) + News(h, p)
  {
    assert [e, f, h][1..] == [f, h] && [f, h][1..] == [h] && [h][1..] == [];
    assert Heard([h], p) == News(h, p) + [];
    assert News(e, p) + (News(f, p) + News(h, p)) == News(e, p) + News(f, p) + News(h, p);
  }

  lemma {:induction false} HeardOne(e: Event, p: Party)
    ensures Heard([e], p) == News(e, p)
  {
    assert [e][1..] == [] && Heard([e], p) == News(e, p) + [];
  }

  lemma {:induction false} RoundsAreHeard(c: Setup, actions: seq<Action>, p: Party)
    ensures Heard(Rounds(c, actions), p) == Bells(c, |actions|)
  {
    if actions != [] {
      var r := Round(c, actions[0]);
      RoundsAreHeard(c, actions[1..], p);
      HeardAppend(r, Rounds(c, actions[1..]), p);
      assert r == [r[0], r[1], r[2]] + [r[3]];
      HeardAppend([r[0], r[1], r[2]], [r[3]], p);
      HeardThree(r[0], r[1], r[2], p);
      HeardOne(r[3], p);
    }
  }

  lemma {:induction false} TransferIsHeard(address: nat, key: seq<byte>)
    ensures Heard(Transfer(address, key), Client) == Handle(address, key)
    ensures Heard(Transfer(address, key), Server) == []
  {
    var t := Transfer(address, key);
    HeardThree(t[0], t[1], t[2], Client);
    HeardThree(t[0], t[1], t[2], Server);
  }

  lemma {:induction false} GreetingIsHeard(c: Setup)
    ensures Heard(Greeting(c), Client) == [[Packet(c.hello)], Units(c.hello)]
    ensures Heard(Greeting(c), Server) == [[Packet(c.world)], Units(c.world)]
  {
    var t := Greeting(c);
    assert t == [t[0], t[1], t[2]] + [t[3]];
    forall p: Party
      ensures Heard(t, p) == News(t[0], p) + News(t[1], p) + News(t[2], p) + News(t[3], p)
    {
      HeardAppend([t[0], t[1], t[2]], [t[3]], p);
      HeardThree(t[0], t[1], t[2], p);
      HeardOne(t[3], p);
    }
  }

  lemma {:induction false} OpeningIsHeard(c: Setup, p: Party)
    ensures Heard(Opening(c), p)
         == Heard(Greeting(c), p) + Heard(Transfer(c.bufferAddress, c.bufferKey), p) + News(Bell(c, Client), p)
            + Heard(Transfer(c.wordAddress, c.wordKey), p)
  {
    var t1, t2, publish := Transfer(c.bufferAddress, c.bufferKey), Transfer(c.wordAddress, c.wordKey), Local(Server, Publish(c.word));
    HeardAppend(Greeting(c), t1, p);
    HeardAppend(Greeting(c) + t1, [Bell(c, Client)], p);
    HeardOne(Bell(c, Client), p);
    HeardAppend([publish], t2, p);
    HeardOne(publish, p);
    assert [] + Heard(t2, p) == Heard(t2, p);
    HeardAppend(Greeting(c) + t1 + [Bell(c, Client)], [publish] + t2, p);
  }

  lemma {:induction false} ClientsShare(c: Setup)
    ensures Heard(Opening(c), Client) == ClientHears(c)[..8] && Heard(Whole(c), Client) == ClientHears(c)
  {
    GreetingIsHeard(c);
    TransferIsHeard(c.bufferAddress, c.bufferKey);
    TransferIsHeard(c.wordAddress, c.wordKey);
    OpeningIsHeard(c, Client);
    RoundsAreHeard(c, Operations(c), Client);
    HeardAppend(Opening(c), Rounds(c, Operations(c)), Client);
  }

  lemma {:induction false} OneBellMore(greeting: seq<seq<Unit>>, bell: seq<seq<Unit>>, bells: seq<seq<Unit>>)
    ensures (greeting + [] + bell + []) + bells == greeting + (bell + bells)
  {
  }

  lemma {:induction false} ServersShare(c: Setup)
    ensures Heard(Whole(c), Server) == ServerHears(c)
  {
    GreetingIsHeard(c);
    TransferIsHeard(c.bufferAddress, c.bufferKey);
    TransferIsHeard(c.wordAddress, c.wordKey);
    OpeningIsHeard(c, Server);
    RoundsAreHeard(c, Operations(c), Server);
    HeardAppend(Opening(c), Rounds(c, Operations(c)), Server);
    OneBellMore(Heard(Greeting(c), Server), [[Packet(c.bell)]], Bells(c, 6));
  }

  /**
    At any point each party holds the first of what it is to receive, however the keys were cut into
    pieces: the greetings, the addresses in network order, the keys with their lengths, and the bells;
    and once a party is through, all of it.
   */
  lemma {:induction false} EverythingArrives(c: Setup, value: bv64, ms: seq<Move>)
    requires Fits(c) && IsRun(Beginning(c, value), ms)
    ensures var s := Exec(Beginning(c, value), ms);
            && s.client.heard <= ClientHears(c) && (s.client.rest == [] ==> s.client.heard == ClientHears(c))
            && s.server.heard <= ServerHears(c) && (s.server.rest == [] ==> s.server.heard == ServerHears(c))
  {
    ProgramsAreSides(c, value);
    WholeIsOrderly(c);
    ClientsShare(c);
    ServersShare(c);
    MessagesArrive(Whole(c), Memory(value, 0, 0, [], []), ms, Client);
    MessagesArrive(Whole(c), Memory(value, 0, 0, [], []), ms, Server);
  }

  /** The client has the word's address and its key exactly when it starts on the word. */
  lemma {:induction false} KeyIsExact(c: Setup, value: bv64, ms: seq<Move>)
    requires Fits(c) && IsRun(Beginning(c, value), ms)
    requires var s := Exec(Beginning(c, value), ms); s.client.rest != [] && s.client.rest[0] == Act(FetchAdd(c.addend))
    ensures var heard := Exec(Beginning(c, value), ms).client.heard;
            |heard| == 8 && heard[5] == Units(NetworkOrder(c.wordAddress, 8)) && heard[7] == Units(c.wordKey)
  {
    ProgramsAreSides(c, value);
    WholeIsOrderly(c);
    ClientsShare(c);
    var k := ActionsAreSerial(Whole(c), Memory(value, 0, 0, [], []), ms, Client);
    OnlyFetchAdd(c, k);
    assert Whole(c)[..k] == Opening(c);
  }

  /**
    Whenever the server is about to print the word, the client is not about to operate on it, and the
    word is what the client's last operation has made of it: the one after as many as were printed.
   */
  lemma {:induction false} ServerSeesLastOperation(c: Setup, value: bv64, ms: seq<Move>)
    requires Fits(c) && IsRun(Beginning(c, value), ms)
    requires var s := Exec(Beginning(c, value), ms); s.server.rest != [] && s.server.rest[0] == Act(Show)
    ensures var s := Exec(Beginning(c, value), ms);
            var n := |s.memory.shown|;
            && (s.client.rest != [] ==> !s.client.rest[0].Act?)
            && n < 6 && s.memory == Perform(Operations(c)[n], After(c, Memory(value, 0, 0, [], []), n))
  {
    ProgramsAreSides(c, value);
    WholeIsOrderly(c);
    var m0 := Memory(value, 0, 0, [], []);
    var k := ActionsAreSerial(Whole(c), m0, ms, Server);
    var n := UpToShow(c, m0, k);
    PrintedWhen(c, m0, n);
  }

  /**
    What a completed session leaves, for every word the server starts with and every addend: the
    compare-and-swap has succeeded, each reply was the value before its operation, the server has
    printed the value after each, and the last of them is 0.
   */
  lemma {:induction false} SessionOutcome(c: Setup, value: bv64, ms: seq<Move>)
    requires Fits(c) && IsRun(Beginning(c, value), ms) && Exec(Beginning(c, value), ms).Done()
    ensures var m := Exec(Beginning(c, value), ms).memory;
            var sum := Plus(c.word, c.addend);
            && m.value == 0
            && m.replies == [c.word, sum, 456, 123, 123 & 0xF, (123 & 0xF) | 0xF]
            && m.shown == [sum, 456, 123, 123 & 0xF, (123 & 0xF) | 0xF, 0]
  {
    ProgramsAreSides(c, value);
    WholeIsOrderly(c);
    var m0 := Memory(value, 0, 0, [], []);
    OutcomeIsSerial(Whole(c), m0, ms);
    SerialAppend(Opening(c), Rounds(c, Operations(c)), m0);
    OpeningPublishes(c, m0);
    RoundsAreSerial(c, Operations(c), Perform(Publish(c.word), m0));
    SixRounds(c, Perform(Publish(c.word), m0));
  }

  lemma {:induction false} SixRounds(c: Setup, m: Memory)
    requires m.value == c.word && m.replies == [] && m.shown == []
    ensures var m' := RoundsDo(Operations(c), m);
            var sum := Plus(c.word, c.addend);
            && m'.value == 0
            && m'.replies == [c.word, sum, 456, 123, 123 & 0xF, (123 & 0xF) | 0xF]
            && m'.shown == [sum, 456, 123, 123 & 0xF, (123 & 0xF) | 0xF, 0]
  {
    var ops, sum := Operations(c), Plus(c.word, c.addend);
    var m2 := Memory(456, sum, sum, [c.word, sum], [sum, 456]);
    var m4 := Memory(123 & 0xF, 0xF, 123, [c.word, sum, 456, 123], [sum, 456, 123, 123 & 0xF]);
    FirstRounds(c, m);
    MiddleRounds(m2, c.word, sum);
    LastRounds(m4, c.word, sum);
    assert ops == [ops[0], ops[1]] + [ops[2], ops[3]] + [ops[4], ops[5]];
    RoundsDoAppend([ops[0], ops[1]] + [ops[2], ops[3]], [ops[4], ops[5]], m);
    RoundsDoAppend([ops[0], ops[1]], [ops[2], ops[3]], m);
  }

  lemma {:induction false} RoundsDoAppend(a: seq<Action>, b: seq<Action>, m: Memory)
    ensures RoundsDo(a + b, m) == RoundsDo(b, RoundsDo(a, m))
  {
    if a == [] {
      assert a + b == b;
    } else {
      assert (a + b)[1..] == a[1..] + b;
      RoundsDoAppend(a[1..], b, Perform(Show, Perform(a[0], m)));
    }
  }

  /** Two rounds, one after the other. */
  lemma {:induction false} TwoRounds(a: Action, b: Action, m: Memory, m1: Memory)
    requires m1 == Perform(Show, Perform(a, m))
    ensures RoundsDo([a, b], m) == Perform(Show, Perform(b, m1))
  {
    assert [a, b][1..] == [b];
    assert RoundsDo([b], m1) == RoundsDo([], Perform(Show, Perform(b, m1))) by {
      assert [b][1..] == [];
    }
  }

  lemma {:induction false} FirstRounds(c: Setup, m: Memory)
    requires m.value == c.word && m.replies == [] && m.shown == []
    ensures var sum := Plus(c.word, c.addend);
            RoundsDo([FetchAdd(c.addend), CompareSwap], m) == Memory(456, sum, sum, [c.word, sum], [sum, 456])
  {
    TwoRounds(FetchAdd(c.addend), CompareSwap, m, Perform(Show, Perform(FetchAdd(c.addend), m)));
  }

  lemma {:induction false} MiddleRounds(m: Memory, word: bv64, sum: bv64)
    requires m == Memory(456, sum, sum, [word, sum], [sum, 456])
    ensures RoundsDo([Swap, FetchAnd], m)
         == Memory(123 & 0xF, 0xF, 123, [word, sum, 456, 123], [sum, 456, 123, 123 & 0xF])
  {
    TwoRounds(Swap, FetchAnd, m, Perform(Show, Perform(Swap, m)));
  }

  lemma {:induction false} LastRounds(m: Memory, word: bv64, sum: bv64)
    requires m == Memory(123 & 0xF, 0xF, 123, [word, sum, 456, 123], [sum, 456, 123, 123 & 0xF])
    ensures var m' := RoundsDo([FetchOr, FetchXor], m);
            && m'.value == 0
            && m'.replies == [word, sum, 456, 123, 123 & 0xF, (123 & 0xF) | 0xF]
            && m'.shown == [sum, 456, 123, 123 & 0xF, (123 & 0xF) | 0xF, 0]
  {
    TwoRounds(FetchOr, FetchXor, m, Perform(Show, Perform(FetchOr, m)));
    MaskedOut(123, 0xF);
  }

  // --- Reading a key ------------------------------------------------------------------------------

  /** The receiving end of a stream: what the peer has sent, and will have sent, and is not read yet. */
  class StreamEnd {
    var incoming: seq<byte>

    /** `stream_recv` of an integer, which comes whole, and `be64toh`. */
    method ReceiveInteger(ghost sent: nat, ghost later: seq<byte>) returns (value: nat)
      requires sent < Pow256(8) && incoming == NetworkOrder(sent, 8) + later
      modifies this
      ensures value == sent && incoming == later
    {
      var bytes := incoming[..8];
      incoming := incoming[8..];
      value := DeserializedValue(LittleEndian, bytes);
      assert bytes == NetworkOrder(sent, 8);
      SerializeIsNetworkOrder(LittleEndian, sent, 8);
      CodecRoundTrip(LittleEndian, LittleEndian, sent, 8);
    }

    /** `stream_recv` into a buffer of `n` bytes: some of them, but not none. */
    method ReceiveSome(n: nat) returns (bytes: seq<byte>)
      requires 0 < n <= |incoming|
      modifies this
      ensures 0 < |bytes| <= n && old(incoming) == bytes + incoming
    {
      var k: nat :| 0 < k <= n;
      bytes, incoming := incoming[..k], incoming[k..];
    }

    /** The loop of `receive_mr`. */
    method ReceiveKey(length: nat) returns (buffer: seq<byte>)
      requires length <= |incoming|
      modifies this
      ensures |buffer| == length && buffer + incoming == old(incoming)
    {
      buffer := [];
      while |buffer| < length
        invariant |buffer| <= length && old(incoming) == buffer + incoming
        decreases length - |buffer|
      {
        var bytes := ReceiveSome(length - |buffer|);
        buffer := buffer + bytes;
      }
    }

    /**
      `receive_mr`. In front of any later bytes it reads exactly what `send_mr` has sent, whatever the
      pieces the key comes in.
     */
    method ReceiveMr(ghost address: nat, ghost key: seq<byte>, ghost later: seq<byte>)
      returns (remoteAddress: nat, buffer: seq<byte>)
      requires address < Pow256(8) && Framing.Encodable(key)
      requires incoming == NetworkOrder(address, 8) + (Framing.Frame(key) + later)
      modifies this
      ensures remoteAddress == address && buffer == key && incoming == later
    {
      remoteAddress := ReceiveInteger(address, Framing.Frame(key) + later);
      assert Framing.Frame(key) + later == NetworkOrder(|key|, 8) + (key + later);
      var length := ReceiveInteger(|key|, key + later);
      buffer := ReceiveKey(length);
      assert buffer == (buffer + incoming)[..length] && incoming == (buffer + incoming)[length..];
    }
  }
}
