/**
  The tag benchmark with both sides running: a client that sends and a server that receives, with
  the same parameters. Messages match receives in order.
 */
module PerfMatching {
  import opened PerfTest

  /**
    How operations complete. An eager send completes as soon as it likes, any other one only when its
    message has been received. What completes at once may complete while its side is still starting
    the coroutines of a phase, and anything else only when all of them have been started.
   */
  datatype Mode = Mode(eager: bool, sendsAtOnce: bool, receivesAtOnce: bool)

  /** Both sides, and the messages sent and received so far. */
  datatype State = State(client: Side, server: Side, sent: nat, received: nat)

  datatype Action = Client(e: Event) | Server(e: Event)

  function Begin(cfg: Config): State {
    State(Init(cfg), Init(cfg), 0, 0)
  }

  predicate Possible(cfg: Config, mode: Mode, s: State, a: Action) {
    match a
    case Client(e) =>
      PerfTest.Enabled(cfg, s.client, e)
      && (e.Complete? ==> (mode.eager || s.sent - s.client.inFlight < s.received)
                          && (mode.sendsAtOnce || s.client.unstarted == 0))
    case Server(e) =>
      PerfTest.Enabled(cfg, s.server, e)
      && (e.Complete? ==> s.received < s.sent && (mode.receivesAtOnce || s.server.unstarted == 0))
  }

  /** A client coroutine that goes on sends a message; a server coroutine that completes has received one. */
  function Take(cfg: Config, mode: Mode, s: State, a: Action): State
    requires Possible(cfg, mode, s, a)
  {
    match a
    case Client(e) =>
      var client := PerfTest.Step(cfg, s.client, e);
      var left := if e.Complete? then s.client.inFlight - 1 else if e.NextPhase? then 0 else s.client.inFlight;
      s.(client := client, sent := s.sent + if client.inFlight > left then 1 else 0)
    case Server(e) =>
      s.(server := PerfTest.Step(cfg, s.server, e), received := s.received + if e.Complete? then 1 else 0)
  }

  predicate IsSession(cfg: Config, mode: Mode, s: State, acts: seq<Action>)
    decreases |acts|
  {
    acts == [] || (Possible(cfg, mode, s, acts[0]) && IsSession(cfg, mode, Take(cfg, mode, s, acts[0]), acts[1..]))
  }

  function After(cfg: Config, mode: Mode, s: State, acts: seq<Action>): State
    requires IsSession(cfg, mode, s, acts)
    decreases |acts|
  {
    if acts == [] then s else After(cfg, mode, Take(cfg, mode, s, acts[0]), acts[1..])
  }

  predicate Over(s: State) {
    s.client.phase == 2 && s.server.phase == 2
  }

  ghost predicate Stuck(cfg: Config, mode: Mode, s: State) {
    forall a :: !Possible(cfg, mode, s, a)
  }

  /** Some session cannot go on although not both sides are through. */
  ghost predicate CanHang(cfg: Config, mode: Mode) {
    exists acts :: IsSession(cfg, mode, Begin(cfg), acts)
                   && Stuck(cfg, mode, After(cfg, mode, Begin(cfg), acts))
                   && !Over(After(cfg, mode, Begin(cfg), acts))
  }

  // ------------------------------------------------------------------------------------------------
  // Sessions are finite, and stop where a side waits

  /** The bounds on a side's counter that do not need `unit`, which is one. */
  lemma Bounds(cfg: Config, v: Side)
    requires PerfTest.Inv(cfg, v) && cfg.unit == 1
    ensures var target, ceiling := cfg.Target(CurrentPhase(v)), cfg.Ceiling(CurrentPhase(v));
            && ceiling == (if target == 0 then 0 else target - 1 + cfg.concurrency)
            && v.counter + (if target == 0 then 0 else v.inFlight + v.unstarted) <= ceiling
            && (target == 0 ==> v.inFlight == 0)
    ensures v.phase == 0 || v.phase == 1 || v.phase == 2
  {
    CounterBelowCeiling(cfg, v);
  }

  /** An upper bound on the events left to one side. */
  ghost function Left(cfg: Config, v: Side): int {
    if v.phase == 2 then 0
    else v.unstarted + cfg.Target(v.phase) + cfg.concurrency - v.counter
         + if v.phase == 0 then cfg.iterations + 2 * cfg.concurrency else 0
  }

  lemma SidePays(cfg: Config, v: Side, e: Event)
    requires PerfTest.Inv(cfg, v) && PerfTest.Enabled(cfg, v, e) && cfg.unit == 1
    ensures var v' := PerfTest.Step(cfg, v, e);
            PerfTest.Inv(cfg, v') && 0 <= Left(cfg, v') < Left(cfg, v)
  {
    PerfTest.StepKeeps(cfg, v, e);
    Bounds(cfg, v);
    Bounds(cfg, PerfTest.Step(cfg, v, e));
  }

  ghost predicate Inv(cfg: Config, s: State) {
    cfg.unit == 1 && PerfTest.Inv(cfg, s.client) && PerfTest.Inv(cfg, s.server)
  }

  ghost function Effort(cfg: Config, s: State): int {
    Left(cfg, s.client) + Left(cfg, s.server)
  }

  lemma ActionPays(cfg: Config, mode: Mode, s: State, a: Action)
    requires Inv(cfg, s) && Possible(cfg, mode, s, a)
    ensures Inv(cfg, Take(cfg, mode, s, a)) && Effort(cfg, Take(cfg, mode, s, a)) < Effort(cfg, s)
  {
    match a
    case Client(e) => SidePays(cfg, s.client, e);
    case Server(e) => SidePays(cfg, s.server, e);
  }

  lemma EffortIsNat(cfg: Config, s: State)
    requires Inv(cfg, s)
    ensures Effort(cfg, s) >= 0
  {
    Bounds(cfg, s.client);
    Bounds(cfg, s.server);
  }

  lemma {:induction false} SessionPays(cfg: Config, mode: Mode, s: State, acts: seq<Action>)
    requires Inv(cfg, s) && IsSession(cfg, mode, s, acts)
    ensures Inv(cfg, After(cfg, mode, s, acts)) && |acts| <= Effort(cfg, s)
    decreases |acts|
  {
    if acts == [] {
      EffortIsNat(cfg, s);
    } else {
      ActionPays(cfg, mode, s, acts[0]);
      SessionPays(cfg, mode, Take(cfg, mode, s, acts[0]), acts[1..]);
    }
  }

  /** A session stops only where each side is through or all its coroutines that are not wait. */
  lemma {:induction false} WhereItStops(cfg: Config, mode: Mode, s: State)
    requires Inv(cfg, s)
    ensures Stuck(cfg, mode, s) <==>
            && (s.client.phase == 2 || (s.client.unstarted == 0 < s.client.inFlight
                                        && !mode.eager && s.received <= s.sent - s.client.inFlight))
            && (s.server.phase == 2 || (s.server.unstarted == 0 < s.server.inFlight && s.received >= s.sent))
  {
    if Stuck(cfg, mode, s) {
      assert !Possible(cfg, mode, s, Client(Start)) && !Possible(cfg, mode, s, Client(NextPhase));
      assert !Possible(cfg, mode, s, Server(Start)) && !Possible(cfg, mode, s, Server(NextPhase));
      assert !Possible(cfg, mode, s, Client(Complete(1))) && !Possible(cfg, mode, s, Server(Complete(1)));
    }
  }

  /** Every client coroutine that goes on has sent a message. */
  lemma ClientTakes(cfg: Config, mode: Mode, s: State, e: Event)
    requires PerfTest.Inv(cfg, s.client) && Possible(cfg, mode, s, Client(e))
    ensures var s' := Take(cfg, mode, s, Client(e));
            s'.sent - s'.client.inFlight == s.sent - s.client.inFlight + if e.Complete? then 1 else 0
  {
    CounterBelowCeiling(cfg, s.client);
  }

  // ------------------------------------------------------------------------------------------------
  // A side that starts all coroutines of a phase before anything completes

  ghost predicate Greedy(cfg: Config, v: Side) {
    var target, ceiling := cfg.Target(CurrentPhase(v)), cfg.Ceiling(CurrentPhase(v));
    && (target == 0 ==> v.inFlight == 0 && v.counter == 0)
    && (target > 0 && v.unstarted > 0 ==> v.counter == 0 && v.finished == 0)
    && (target > 0 && v.unstarted == 0 && v.finished == 0 ==> v.counter < target)
    && (target > 0 && v.finished > 0 ==> v.unstarted == 0 && v.counter >= target && v.counter + v.inFlight == ceiling)
  }

  /** What such a side has completed. */
  ghost function Done(cfg: Config, v: Side): nat {
    v.counter + if v.phase == 0 then 0 else cfg.Ceiling(0)
  }

  /** Such a side completes exactly the ceiling of each phase. */
  lemma GreedySteps(cfg: Config, v: Side, e: Event)
    requires PerfTest.Inv(cfg, v) && cfg.unit == 1 && Greedy(cfg, v) && PerfTest.Enabled(cfg, v, e)
    requires e.Complete? ==> v.unstarted == 0
    ensures Greedy(cfg, PerfTest.Step(cfg, v, e))
    ensures Done(cfg, PerfTest.Step(cfg, v, e)) == Done(cfg, v) + if e.Complete? then 1 else 0
  {
  }

  lemma GreedyTotal(cfg: Config, v: Side)
    requires PerfTest.Inv(cfg, v) && cfg.unit == 1 && Greedy(cfg, v)
    ensures Done(cfg, v) + v.inFlight <= cfg.Ceiling(0) + cfg.Ceiling(1)
    ensures v.phase == 0 ==> Done(cfg, v) + v.inFlight <= cfg.Ceiling(0)
    ensures v.phase == 2 ==> Done(cfg, v) == cfg.Ceiling(0) + cfg.Ceiling(1)
  {
    Bounds(cfg, v);
  }

  /** The accounts of both sides, if both are greedy. */
  ghost predicate Matched(cfg: Config, s: State) {
    && Inv(cfg, s) && Greedy(cfg, s.client) && Greedy(cfg, s.server)
    && s.sent == Done(cfg, s.client) + s.client.inFlight
    && s.received == Done(cfg, s.server) <= s.sent
  }

  lemma MatchedClient(cfg: Config, mode: Mode, s: State, e: Event)
    requires Matched(cfg, s) && Possible(cfg, mode, s, Client(e))
    requires cfg.concurrency == 1 || (!mode.sendsAtOnce && !mode.receivesAtOnce)
    ensures Matched(cfg, Take(cfg, mode, s, Client(e)))
  {
    ActionPays(cfg, mode, s, Client(e));
    ClientTakes(cfg, mode, s, e);
    GreedySteps(cfg, s.client, e);
  }

  lemma MatchedServer(cfg: Config, mode: Mode, s: State, e: Event)
    requires Matched(cfg, s) && Possible(cfg, mode, s, Server(e))
    requires cfg.concurrency == 1 || (!mode.sendsAtOnce && !mode.receivesAtOnce)
    ensures Matched(cfg, Take(cfg, mode, s, Server(e)))
  {
    ActionPays(cfg, mode, s, Server(e));
    GreedySteps(cfg, s.server, e);
  }

  lemma {:induction false} MatchedSession(cfg: Config, mode: Mode, s: State, acts: seq<Action>)
    requires Matched(cfg, s) && IsSession(cfg, mode, s, acts)
    requires cfg.concurrency == 1 || (!mode.sendsAtOnce && !mode.receivesAtOnce)
    ensures Matched(cfg, After(cfg, mode, s, acts))
    decreases |acts|
  {
    if acts != [] {
      match acts[0] {
        case Client(e) => MatchedClient(cfg, mode, s, e);
        case Server(e) => MatchedServer(cfg, mode, s, e);
      }
      MatchedSession(cfg, mode, Take(cfg, mode, s, acts[0]), acts[1..]);
    }
  }

  lemma BeginsMatched(cfg: Config)
    requires cfg.Valid() && cfg.unit == 1
    ensures Matched(cfg, Begin(cfg))
    ensures Effort(cfg, Begin(cfg)) == 2 * (cfg.warmup + cfg.iterations) + 8 * cfg.concurrency
  {
    InitKeeps(cfg);
  }

  /**
    With one coroutine on each side, or with operations that never complete at once, the two phases
    match, whatever the timing and however sends complete: every session is finite; the client's
    warm-up sends the very messages that the server's warm-up receives; and a session that cannot go
    on is over on both sides, which have sent and received exactly the ceilings of both phases.
   */
  lemma {:induction false} PhasesMatch(cfg: Config, mode: Mode, acts: seq<Action>)
    requires cfg.Valid() && cfg.unit == 1 && IsSession(cfg, mode, Begin(cfg), acts)
    requires cfg.concurrency == 1 || (!mode.sendsAtOnce && !mode.receivesAtOnce)
    ensures var s := After(cfg, mode, Begin(cfg), acts);
            && |acts| <= 2 * (cfg.warmup + cfg.iterations) + 8 * cfg.concurrency
            && (s.client.phase == 0 ==> s.sent <= cfg.Ceiling(0))
            && (s.client.phase >= 1 ==> s.sent == cfg.Ceiling(0) + s.client.counter + s.client.inFlight)
            && (s.server.phase == 0 ==> s.received <= cfg.Ceiling(0))
            && (s.server.phase >= 1 ==> s.received == cfg.Ceiling(0) + s.server.counter)
            && (Stuck(cfg, mode, s) ==>
                  Over(s) && s.sent == s.received == cfg.Ceiling(0) + cfg.Ceiling(1)
                  && s.client.counter == s.server.counter == cfg.Ceiling(1))
    ensures cfg.concurrency == 1 ==> cfg.Ceiling(0) == cfg.warmup && cfg.Ceiling(1) == cfg.iterations
  {
    BeginsMatched(cfg);
    SessionPays(cfg, mode, Begin(cfg), acts);
    MatchedSession(cfg, mode, Begin(cfg), acts);
    var s := After(cfg, mode, Begin(cfg), acts);
    WhereItStops(cfg, mode, s);
    GreedyTotal(cfg, s.client);
    GreedyTotal(cfg, s.server);
  }

  // ------------------------------------------------------------------------------------------------
  // A greedy client that does not wait for the server

  /** The client will have sent at least as much as the server can receive. */
  ghost predicate Ahead(cfg: Config, s: State) {
    && Inv(cfg, s) && Greedy(cfg, s.client)
    && s.sent == Done(cfg, s.client) + s.client.inFlight
    && s.received <= Done(cfg, s.server)
  }

  lemma AheadClient(cfg: Config, mode: Mode, s: State, e: Event)
    requires Ahead(cfg, s) && Possible(cfg, mode, s, Client(e))
    requires !mode.sendsAtOnce
    ensures Ahead(cfg, Take(cfg, mode, s, Client(e)))
  {
    ActionPays(cfg, mode, s, Client(e));
    ClientTakes(cfg, mode, s, e);
    GreedySteps(cfg, s.client, e);
  }

  lemma AheadServer(cfg: Config, mode: Mode, s: State, e: Event)
    requires Ahead(cfg, s) && Possible(cfg, mode, s, Server(e))
    requires !mode.sendsAtOnce
    ensures Ahead(cfg, Take(cfg, mode, s, Server(e)))
  {
    ActionPays(cfg, mode, s, Server(e));
    Bounds(cfg, s.server);
  }

  lemma {:induction false} AheadSession(cfg: Config, mode: Mode, s: State, acts: seq<Action>)
    requires Ahead(cfg, s) && IsSession(cfg, mode, s, acts) && !mode.sendsAtOnce
    ensures Ahead(cfg, After(cfg, mode, s, acts))
    decreases |acts|
  {
    if acts != [] {
      match acts[0] {
        case Client(e) => AheadClient(cfg, mode, s, e);
        case Server(e) => AheadServer(cfg, mode, s, e);
      }
      AheadSession(cfg, mode, Take(cfg, mode, s, acts[0]), acts[1..]);
    }
  }

  lemma {:induction false} AheadEnds(cfg: Config, mode: Mode, s: State)
    requires Ahead(cfg, s) && mode.eager && Stuck(cfg, mode, s)
    ensures Over(s)
  {
    WhereItStops(cfg, mode, s);
    GreedyTotal(cfg, s.client);
    Bounds(cfg, s.server);
  }

  // ------------------------------------------------------------------------------------------------
  // A side whose coroutines take turns, each starting only when no other one waits

  ghost predicate Lazy(cfg: Config, v: Side) {
    var target := cfg.Target(CurrentPhase(v));
    && v.inFlight <= 1 && v.counter <= target
    && (v.inFlight == 1 ==> v.counter < target)
    && (v.finished > 0 ==> v.counter == target)
  }

  ghost function LazyDone(cfg: Config, v: Side): nat {
    v.counter + if v.phase == 0 then 0 else cfg.warmup
  }

  function LazyEvent(v: Side): Event {
    if v.inFlight == 1 then Complete(1) else if v.unstarted > 0 then Start else NextPhase
  }

  /** Such a side completes exactly the target of each phase. */
  lemma LazySteps(cfg: Config, v: Side)
    requires PerfTest.Inv(cfg, v) && cfg.unit == 1 && Lazy(cfg, v) && v.phase < 2
    ensures PerfTest.Enabled(cfg, v, LazyEvent(v))
    ensures var v' := PerfTest.Step(cfg, v, LazyEvent(v));
            Lazy(cfg, v') && LazyDone(cfg, v') == LazyDone(cfg, v) + v.inFlight
  {
  }

  function GreedyEvent(v: Side): Event {
    if v.unstarted > 0 then Start else if v.inFlight > 0 then Complete(1) else NextPhase
  }

  lemma CeilingsExceedTargets(cfg: Config)
    requires cfg.concurrency >= 2 && cfg.unit == 1 && cfg.warmup + cfg.iterations >= 1
    ensures cfg.Ceiling(0) + cfg.Ceiling(1) > cfg.warmup + cfg.iterations
  {
  }

  lemma LazyTotal(cfg: Config, v: Side)
    requires PerfTest.Inv(cfg, v) && Lazy(cfg, v)
    ensures LazyDone(cfg, v) + v.inFlight <= cfg.warmup + cfg.iterations
  {
  }

  /** A lazy client and a greedy server. */
  ghost predicate Starving(cfg: Config, s: State) {
    && Inv(cfg, s) && Lazy(cfg, s.client) && Greedy(cfg, s.server)
    && s.sent == LazyDone(cfg, s.client) + s.client.inFlight
    && s.received == Done(cfg, s.server) <= s.sent
  }

  lemma StarvingMoves(cfg: Config, mode: Mode, s: State, a: Action)
    requires Starving(cfg, s) && Possible(cfg, mode, s, a)
    requires a == Client(LazyEvent(s.client)) || a == Server(GreedyEvent(s.server))
    ensures Starving(cfg, Take(cfg, mode, s, a))
  {
    ActionPays(cfg, mode, s, a);
    match a
    case Client(e) =>
      ClientTakes(cfg, mode, s, e);
      LazySteps(cfg, s.client);
    case Server(e) =>
      GreedySteps(cfg, s.server, e);
  }

  lemma {:induction false} StarvingStops(cfg: Config, mode: Mode, s: State)
    requires Starving(cfg, s) && mode.sendsAtOnce
    requires cfg.concurrency >= 2 && cfg.warmup + cfg.iterations >= 1
    requires !Possible(cfg, mode, s, Client(LazyEvent(s.client))) && !Possible(cfg, mode, s, Server(GreedyEvent(s.server)))
    ensures Stuck(cfg, mode, s) && !Over(s)
  {
    WhereItStops(cfg, mode, s);
    CeilingsExceedTargets(cfg);
    LazyTotal(cfg, s.client);
    GreedyTotal(cfg, s.server);
  }

  /** Whatever the mode, if sends complete at once, the server is left waiting for messages. */
  lemma {:induction false} ServerStarves(cfg: Config, mode: Mode, s: State) returns (acts: seq<Action>)
    requires Starving(cfg, s) && mode.sendsAtOnce
    requires cfg.concurrency >= 2 && cfg.warmup + cfg.iterations >= 1
    ensures IsSession(cfg, mode, s, acts)
    ensures Stuck(cfg, mode, After(cfg, mode, s, acts)) && !Over(After(cfg, mode, s, acts))
    decreases Effort(cfg, s)
  {
    EffortIsNat(cfg, s);
    var a := Client(LazyEvent(s.client));
    if !Possible(cfg, mode, s, a) {
      a := Server(GreedyEvent(s.server));
    }
    if Possible(cfg, mode, s, a) {
      StarvingMoves(cfg, mode, s, a);
      ActionPays(cfg, mode, s, a);
      var rest := ServerStarves(cfg, mode, Take(cfg, mode, s, a));
      acts := [a] + rest;
      assert acts[1..] == rest;
    } else {
      StarvingStops(cfg, mode, s);
      acts := [];
    }
  }

  /** A greedy client and a lazy server. */
  ghost predicate Flooding(cfg: Config, s: State) {
    && Inv(cfg, s) && Greedy(cfg, s.client) && Lazy(cfg, s.server)
    && s.sent == Done(cfg, s.client) + s.client.inFlight
    && s.received == LazyDone(cfg, s.server) <= s.sent
    && Done(cfg, s.client) <= s.received
  }

  lemma FloodingMoves(cfg: Config, mode: Mode, s: State, a: Action)
    requires Flooding(cfg, s) && Possible(cfg, mode, s, a) && !mode.eager
    requires a == Client(GreedyEvent(s.client)) || a == Server(LazyEvent(s.server))
    ensures Flooding(cfg, Take(cfg, mode, s, a))
  {
    ActionPays(cfg, mode, s, a);
    match a
    case Client(e) =>
      ClientTakes(cfg, mode, s, e);
      GreedySteps(cfg, s.client, e);
    case Server(e) =>
      LazySteps(cfg, s.server);
  }

  lemma {:induction false} FloodingStops(cfg: Config, mode: Mode, s: State)
    requires Flooding(cfg, s) && mode.receivesAtOnce && !mode.eager
    requires cfg.concurrency >= 2 && cfg.warmup + cfg.iterations >= 1
    requires !Possible(cfg, mode, s, Client(GreedyEvent(s.client))) && !Possible(cfg, mode, s, Server(LazyEvent(s.server)))
    ensures Stuck(cfg, mode, s) && !Over(s)
  {
    WhereItStops(cfg, mode, s);
    CeilingsExceedTargets(cfg);
    LazyTotal(cfg, s.server);
    GreedyTotal(cfg, s.client);
  }

  /** If receives complete at once and sends are not eager, the client is left waiting for receives. */
  lemma {:induction false} ClientStarves(cfg: Config, mode: Mode, s: State) returns (acts: seq<Action>)
    requires Flooding(cfg, s) && mode.receivesAtOnce && !mode.eager
    requires cfg.concurrency >= 2 && cfg.warmup + cfg.iterations >= 1
    ensures IsSession(cfg, mode, s, acts)
    ensures Stuck(cfg, mode, After(cfg, mode, s, acts)) && !Over(After(cfg, mode, s, acts))
    decreases Effort(cfg, s)
  {
    EffortIsNat(cfg, s);
    var a := Client(GreedyEvent(s.client));
    if !Possible(cfg, mode, s, a) {
      a := Server(LazyEvent(s.server));
    }
    if Possible(cfg, mode, s, a) {
      FloodingMoves(cfg, mode, s, a);
      ActionPays(cfg, mode, s, a);
      var rest := ClientStarves(cfg, mode, Take(cfg, mode, s, a));
      acts := [a] + rest;
      assert acts[1..] == rest;
    } else {
      FloodingStops(cfg, mode, s);
      acts := [];
    }
  }

  // ------------------------------------------------------------------------------------------------

  lemma {:induction false} NothingToDo(cfg: Config, mode: Mode, acts: seq<Action>)
    requires cfg.Valid() && cfg.unit == 1 && cfg.warmup + cfg.iterations == 0 && IsSession(cfg, mode, Begin(cfg), acts)
    ensures var s := After(cfg, mode, Begin(cfg), acts); Stuck(cfg, mode, s) ==> Over(s)
  {
    BeginsMatched(cfg);
    SessionPays(cfg, mode, Begin(cfg), acts);
    var s := After(cfg, mode, Begin(cfg), acts);
    Bounds(cfg, s.client);
    Bounds(cfg, s.server);
    WhereItStops(cfg, mode, s);
  }

  /**
    With equal parameters on both ends, some session is left with a side that waits for ever exactly
    if there are several coroutines, there is anything to send, and either sends complete at once, or
    receives do while sends wait for them.
   */
  lemma {:induction false} HangsIff(cfg: Config, mode: Mode)
    requires cfg.Valid() && cfg.unit == 1
    ensures CanHang(cfg, mode) <==>
            && cfg.concurrency >= 2 && cfg.warmup + cfg.iterations >= 1
            && (mode.sendsAtOnce || (mode.receivesAtOnce && !mode.eager))
  {
    var s := Begin(cfg);
    BeginsMatched(cfg);
    if cfg.concurrency >= 2 && cfg.warmup + cfg.iterations >= 1 && mode.sendsAtOnce {
      var acts := ServerStarves(cfg, mode, s);
    } else if cfg.concurrency >= 2 && cfg.warmup + cfg.iterations >= 1 && mode.receivesAtOnce && !mode.eager {
      var acts := ClientStarves(cfg, mode, s);
    } else {
      forall acts | IsSession(cfg, mode, s, acts) && Stuck(cfg, mode, After(cfg, mode, s, acts))
        ensures Over(After(cfg, mode, s, acts))
      {
        if cfg.warmup + cfg.iterations == 0 {
          NothingToDo(cfg, mode, acts);
        } else if cfg.concurrency == 1 || !mode.receivesAtOnce {
          PhasesMatch(cfg, mode, acts);
        } else {
          AheadSession(cfg, mode, s, acts);
          AheadEnds(cfg, mode, After(cfg, mode, s, acts));
        }
      }
    }
  }
}
