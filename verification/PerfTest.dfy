/**
  The benchmark: on each side `concurrency` coroutines share one counter by reference and go on
  while it is below the target of the phase, first a warm-up and then the measured phase. The
  coroutines of a phase are alike, so a side is described by how many of them are where.
 */
module PerfTest {

  /**
    One side's parameters. An operation adds at least one to the counter and at most `unit`: one for
    tag messages and for senders, the message size for stream receivers, which count bytes.
   */
  datatype Config = Config(concurrency: nat, warmup: nat, iterations: nat, unit: nat) {
    predicate Valid() {
      concurrency >= 1 && unit >= 1
    }

    /** The counter value at which the coroutines of a phase stop. */
    function Target(phase: nat): nat {
      if phase == 0 then warmup else iterations
    }

    /** The most a phase's counter can reach. */
    function Ceiling(phase: nat): nat {
      if Target(phase) == 0 then 0 else Target(phase) - 1 + concurrency * unit
    }
  }

  /** `phase` 2 means that both phases are over. */
  datatype Side = Side(phase: nat, unstarted: nat, inFlight: nat, finished: nat, counter: nat)

  datatype Event = Start | Complete(n: nat) | NextPhase

  function Init(cfg: Config): Side {
    Side(0, cfg.concurrency, 0, 0, 0)
  }

  /** A coroutine reaches its loop condition: it issues the next operation, or finishes. */
  function AtGuard(cfg: Config, s: Side): Side {
    if s.counter < cfg.Target(s.phase) then s.(inFlight := s.inFlight + 1) else s.(finished := s.finished + 1)
  }

  predicate Enabled(cfg: Config, s: Side, e: Event) {
    && s.phase < 2
    && match e
       case Start => s.unstarted > 0
       case Complete(n) => s.inFlight > 0 && 1 <= n <= cfg.unit
       case NextPhase => s.finished == cfg.concurrency
  }

  /** The counter is shared: every completion is seen by the next loop condition of every coroutine. */
  function Step(cfg: Config, s: Side, e: Event): Side
    requires Enabled(cfg, s, e)
  {
    match e
    case Start => AtGuard(cfg, s.(unstarted := s.unstarted - 1))
    case Complete(n) => AtGuard(cfg, s.(inFlight := s.inFlight - 1, counter := s.counter + n))
    case NextPhase => if s.phase == 0 then Side(1, cfg.concurrency, 0, 0, 0) else s.(phase := 2)
  }

  predicate IsRun(cfg: Config, s: Side, es: seq<Event>)
    decreases |es|
  {
    es == [] || (Enabled(cfg, s, es[0]) && IsRun(cfg, Step(cfg, s, es[0]), es[1..]))
  }

  function Exec(cfg: Config, s: Side, es: seq<Event>): Side
    requires IsRun(cfg, s, es)
    decreases |es|
  {
    if es == [] then s else Exec(cfg, Step(cfg, s, es[0]), es[1..])
  }

  /** The phase whose counter the side still shows. */
  function CurrentPhase(s: Side): nat {
    if s.phase == 0 then 0 else 1
  }

  ghost predicate Inv(cfg: Config, s: Side) {
    && cfg.Valid() && s.phase <= 2
    && s.unstarted + s.inFlight + s.finished == cfg.concurrency
    && s.counter + cfg.unit * (s.inFlight + s.unstarted)
       <= (if cfg.Target(CurrentPhase(s)) == 0 then cfg.unit * s.unstarted else cfg.Ceiling(CurrentPhase(s)))
    && (s.finished > 0 ==> s.counter >= cfg.Target(CurrentPhase(s)))
    && (s.phase == 2 ==> s.finished == cfg.concurrency)
  }

  lemma Scale(unit: nat, a: nat, b: nat)
    requires a <= b
    ensures unit * a <= unit * b
    ensures unit * (a + 1) == unit * a + unit
  {
  }

  lemma CounterBelowCeiling(cfg: Config, s: Side)
    requires Inv(cfg, s)
    ensures s.counter <= cfg.Ceiling(CurrentPhase(s))
    ensures cfg.Target(CurrentPhase(s)) == 0 ==> s.inFlight == 0
    ensures s.finished == cfg.concurrency <==> s.inFlight + s.unstarted == 0
  {
    if cfg.Target(CurrentPhase(s)) == 0 && s.inFlight > 0 {
      Scale(cfg.unit, s.unstarted + 1, s.inFlight + s.unstarted);
    }
    Scale(cfg.unit, s.unstarted, s.inFlight + s.unstarted);
  }

  lemma StepKeeps(cfg: Config, s: Side, e: Event)
    requires Inv(cfg, s) && Enabled(cfg, s, e)
    ensures Inv(cfg, Step(cfg, s, e))
  {
    var busy := s.inFlight + s.unstarted;
    Scale(cfg.unit, busy, cfg.concurrency);
    if busy > 0 {
      Scale(cfg.unit, busy - 1, busy);
    }
    if s.unstarted > 0 {
      Scale(cfg.unit, s.unstarted - 1, s.unstarted);
    }
    if s.inFlight > 0 {
      Scale(cfg.unit, s.unstarted, busy - 1);
    }
    assert cfg.concurrency * cfg.unit == cfg.unit * cfg.concurrency;
  }

  lemma {:induction false} RunKeeps(cfg: Config, s: Side, es: seq<Event>)
    requires Inv(cfg, s) && IsRun(cfg, s, es)
    ensures Inv(cfg, Exec(cfg, s, es))
    decreases |es|
  {
    if es != [] {
      StepKeeps(cfg, s, es[0]);
      RunKeeps(cfg, Step(cfg, s, es[0]), es[1..]);
    }
  }

  lemma {:induction false} RunAppends(cfg: Config, s: Side, es: seq<Event>, fs: seq<Event>)
    requires IsRun(cfg, s, es) && IsRun(cfg, Exec(cfg, s, es), fs)
    ensures IsRun(cfg, s, es + fs) && Exec(cfg, s, es + fs) == Exec(cfg, Exec(cfg, s, es), fs)
    decreases |es|
  {
    if es == [] {
      assert es + fs == fs;
    } else {
      assert (es + fs)[1..] == es[1..] + fs;
      RunAppends(cfg, Step(cfg, s, es[0]), es[1..], fs);
    }
  }

  lemma {:induction false} RunExtends(cfg: Config, s: Side, es: seq<Event>, e: Event)
    requires IsRun(cfg, s, es) && Enabled(cfg, Exec(cfg, s, es), e)
    ensures IsRun(cfg, s, es + [e]) && Exec(cfg, s, es + [e]) == Step(cfg, Exec(cfg, s, es), e)
  {
    assert [e][1..] == [];
    RunAppends(cfg, s, es, [e]);
  }

  lemma InitKeeps(cfg: Config)
    requires cfg.Valid()
    ensures Inv(cfg, Init(cfg))
  {
    assert cfg.concurrency * cfg.unit == cfg.unit * cfg.concurrency;
  }

  /**
    The overshoot of the shared counter, for every schedule and every sequence of partial reads: when
    all coroutines of a phase have finished, the counter has reached the target and exceeds it by
    less than one operation for each coroutine. (With a target of nothing, nothing is done.)
   */
  lemma {:induction false} OvershootIsBounded(cfg: Config, es: seq<Event>)
    requires cfg.Valid() && IsRun(cfg, Init(cfg), es)
    ensures var s := Exec(cfg, Init(cfg), es);
            s.finished == cfg.concurrency ==>
              cfg.Target(CurrentPhase(s)) <= s.counter <= cfg.Ceiling(CurrentPhase(s))
  {
    InitKeeps(cfg);
    RunKeeps(cfg, Init(cfg), es);
    CounterBelowCeiling(cfg, Exec(cfg, Init(cfg), es));
  }

  // ------------------------------------------------------------------------------------------------
  // Both phases

  /** What the operations of a run have added up to. */
  function Performed(es: seq<Event>): nat {
    if es == [] then 0 else (if es[0].Complete? then es[0].n else 0) + Performed(es[1..])
  }

  /** What a side has performed in the phases before the current one is within their bounds. */
  ghost predicate WithinBefore(cfg: Config, s: Side, before: int) {
    if s.phase == 0 then before == 0 else cfg.warmup <= before <= cfg.Ceiling(0)
  }

  lemma {:induction false} CountsBoth(cfg: Config, s: Side, es: seq<Event>, before: nat)
    requires Inv(cfg, s) && IsRun(cfg, s, es) && WithinBefore(cfg, s, before)
    ensures var s' := Exec(cfg, s, es);
            WithinBefore(cfg, s', before + s.counter + Performed(es) - s'.counter)
    decreases |es|
  {
    if es != [] {
      StepKeeps(cfg, s, es[0]);
      CounterBelowCeiling(cfg, s);
      var s1 := Step(cfg, s, es[0]);
      CountsBoth(cfg, s1, es[1..], if es[0].NextPhase? && s.phase == 0 then s.counter else before);
    }
  }

  /** A side that is through has performed the operations of both phases, each within its bounds. */
  lemma {:induction false} BothPhases(cfg: Config, es: seq<Event>)
    requires cfg.Valid() && IsRun(cfg, Init(cfg), es) && Exec(cfg, Init(cfg), es).phase == 2
    ensures cfg.warmup + cfg.iterations <= Performed(es) <= cfg.Ceiling(0) + cfg.Ceiling(1)
  {
    InitKeeps(cfg);
    RunKeeps(cfg, Init(cfg), es);
    CountsBoth(cfg, Init(cfg), es, 0);
    CounterBelowCeiling(cfg, Exec(cfg, Init(cfg), es));
  }

  // ------------------------------------------------------------------------------------------------
  // The bound is reached

  function Repeat(e: Event, n: nat): (es: seq<Event>)
    ensures |es| == n
  {
    if n == 0 then [] else [e] + Repeat(e, n - 1)
  }

  /** All coroutines start before anything completes. */
  lemma {:induction false} AllStart(cfg: Config, s: Side, n: nat)
    requires s.phase < 2 && n <= s.unstarted && s.counter < cfg.Target(s.phase)
    ensures IsRun(cfg, s, Repeat(Start, n))
    ensures Exec(cfg, s, Repeat(Start, n)) == s.(unstarted := s.unstarted - n, inFlight := s.inFlight + n)
    decreases n
  {
    if n > 0 {
      AllStart(cfg, Step(cfg, s, Start), n - 1);
    }
  }

  /** Operations of one unit each, up to one short of the target. */
  lemma {:induction false} SmallSteps(cfg: Config, s: Side, n: nat)
    requires cfg.Valid() && s.phase < 2 && s.inFlight > 0 && s.counter + n < cfg.Target(s.phase)
    ensures IsRun(cfg, s, Repeat(Complete(1), n))
    ensures Exec(cfg, s, Repeat(Complete(1), n)) == s.(counter := s.counter + n)
    decreases n
  {
    if n > 0 {
      SmallSteps(cfg, Step(cfg, s, Complete(1)), n - 1);
    }
  }

  /** Every operation in flight completes with a full unit, and its coroutine finishes. */
  lemma {:induction false} AllFinish(cfg: Config, s: Side, n: nat)
    requires cfg.Valid() && s.phase < 2 && n <= s.inFlight && s.counter + cfg.unit >= cfg.Target(s.phase)
    ensures IsRun(cfg, s, Repeat(Complete(cfg.unit), n))
    ensures Exec(cfg, s, Repeat(Complete(cfg.unit), n))
         == s.(inFlight := s.inFlight - n, finished := s.finished + n, counter := s.counter + n * cfg.unit)
    decreases n
  {
    if n > 0 {
      AllFinish(cfg, Step(cfg, s, Complete(cfg.unit)), n - 1);
      assert n * cfg.unit == (n - 1) * cfg.unit + cfg.unit;
    } else {
      assert n * cfg.unit == 0;
    }
  }

  /** With a target of nothing, every coroutine finishes as it starts. */
  lemma {:induction false} AllPass(cfg: Config, s: Side, n: nat)
    requires s.phase < 2 && n <= s.unstarted && s.counter >= cfg.Target(s.phase)
    ensures IsRun(cfg, s, Repeat(Start, n))
    ensures Exec(cfg, s, Repeat(Start, n)) == s.(unstarted := s.unstarted - n, finished := s.finished + n)
    decreases n
  {
    if n > 0 {
      AllPass(cfg, Step(cfg, s, Start), n - 1);
    }
  }

  /** A phase whose counter ends exactly at the ceiling. */
  lemma {:induction false} PhaseReaches(cfg: Config, phase: nat) returns (es: seq<Event>)
    requires cfg.Valid() && phase < 2
    ensures IsRun(cfg, Side(phase, cfg.concurrency, 0, 0, 0), es)
    ensures Exec(cfg, Side(phase, cfg.concurrency, 0, 0, 0), es) == Side(phase, 0, 0, cfg.concurrency, cfg.Ceiling(phase))
  {
    var s0, c, target := Side(phase, cfg.concurrency, 0, 0, 0), cfg.concurrency, cfg.Target(phase);
    if target == 0 {
      AllPass(cfg, s0, c);
      es := Repeat(Start, c);
    } else {
      AllStart(cfg, s0, c);
      var s1 := Exec(cfg, s0, Repeat(Start, c));
      SmallSteps(cfg, s1, target - 1);
      var s2 := Exec(cfg, s1, Repeat(Complete(1), target - 1));
      AllFinish(cfg, s2, c);
      es := Repeat(Complete(1), target - 1) + Repeat(Complete(cfg.unit), c);
      RunAppends(cfg, s1, Repeat(Complete(1), target - 1), Repeat(Complete(cfg.unit), c));
      RunAppends(cfg, s0, Repeat(Start, c), es);
      es := Repeat(Start, c) + es;
    }
  }

  /** No smaller bound holds: in each phase some schedule ends exactly at the ceiling. */
  lemma {:induction false} OvershootIsReached(cfg: Config, phase: nat)
    requires cfg.Valid() && phase < 2
    ensures exists es :: IsRun(cfg, Init(cfg), es)
                         && Exec(cfg, Init(cfg), es) == Side(phase, 0, 0, cfg.concurrency, cfg.Ceiling(phase))
  {
    var warmup := PhaseReaches(cfg, 0);
    var s := Exec(cfg, Init(cfg), warmup);
    if phase == 1 {
      var measured := PhaseReaches(cfg, 1);
      var es := [NextPhase] + measured;
      assert es[1..] == measured;
      assert Step(cfg, s, NextPhase) == Side(1, cfg.concurrency, 0, 0, 0);
      RunAppends(cfg, Init(cfg), warmup, es);
    }
  }

  // ------------------------------------------------------------------------------------------------

  /** The counter and the coroutines of one side, as the globals and loops of the program. */
  class Benchmark {
    const cfg: Config
    var phase: nat
    var unstarted: nat
    var inFlight: nat
    var finished: nat
    var counter: nat

    function Snapshot(): Side
      reads this
    {
      Side(phase, unstarted, inFlight, finished, counter)
    }

    constructor (cfg: Config)
      requires cfg.Valid()
      ensures this.cfg == cfg && Snapshot() == Init(cfg) && Inv(cfg, Snapshot())
    {
      this.cfg := cfg;
      phase, unstarted, inFlight, finished, counter := 0, cfg.concurrency, 0, 0, 0;
      new;
      InitKeeps(cfg);
    }

    method LoopCondition()
      modifies this`inFlight, this`finished
      ensures Snapshot() == AtGuard(cfg, old(Snapshot()))
    {
      if counter < cfg.Target(phase) {
        inFlight := inFlight + 1;
      } else {
        finished := finished + 1;
      }
    }

    /** One coroutine runs from its start to its first suspension or its end. */
    method StartOne()
      requires Inv(cfg, Snapshot()) && phase < 2 && unstarted > 0
      modifies this`unstarted, this`inFlight, this`finished
      ensures Inv(cfg, Snapshot()) && unstarted < old(unstarted) && Snapshot() == Step(cfg, old(Snapshot()), Start)
    {
      ghost var before := Snapshot();
      unstarted := unstarted - 1;
      LoopCondition();
      StepKeeps(cfg, before, Start);
    }

    /** One coroutine runs from a completion to its next suspension or its end. */
    method CompleteOne() returns (n: nat)
      requires Inv(cfg, Snapshot()) && phase < 2 && inFlight > 0
      modifies this`inFlight, this`finished, this`counter
      ensures Inv(cfg, Snapshot()) && old(counter) < counter <= cfg.Ceiling(phase)
      ensures 1 <= n <= cfg.unit && Snapshot() == Step(cfg, old(Snapshot()), Complete(n))
    {
      ghost var before := Snapshot();
      n :| 1 <= n <= cfg.unit;
      inFlight, counter := inFlight - 1, counter + n;
      LoopCondition();
      StepKeeps(cfg, before, Complete(n));
      CounterBelowCeiling(cfg, Snapshot());
    }

    /**
      Starts the coroutines of a phase and awaits them all, under any schedule. It extends the run
      recorded so far, within the phase.
     */
    method RunPhase(ghost start: Side, ghost before: seq<Event>) returns (ghost trace: seq<Event>)
      requires Inv(cfg, Snapshot()) && phase < 2
      requires IsRun(cfg, start, before) && Exec(cfg, start, before) == Snapshot()
      modifies this`unstarted, this`inFlight, this`finished, this`counter
      ensures Inv(cfg, Snapshot()) && finished == cfg.concurrency
      ensures cfg.Target(phase) <= counter <= cfg.Ceiling(phase)
      ensures IsRun(cfg, start, trace) && Exec(cfg, start, trace) == Snapshot() && before <= trace
    {
      trace := before;
      while unstarted + inFlight > 0
        invariant Inv(cfg, Snapshot())
        invariant IsRun(cfg, start, trace) && Exec(cfg, start, trace) == Snapshot() && before <= trace
        decreases cfg.Ceiling(phase) - counter, unstarted
      {
        var turn := unstarted > 0;
        if turn && inFlight > 0 {
          turn := *;
        }
        if turn {
          RunExtends(cfg, start, trace, Start);
          trace := trace + [Start];
          StartOne();
        } else {
          ghost var was := Snapshot();
          var n := CompleteOne();
          RunExtends(cfg, start, trace, Complete(n));
          trace := trace + [Complete(n)];
        }
      }
      CounterBelowCeiling(cfg, Snapshot());
    }

    /**
      Warm-up, reset, measured phase. It performs a run that takes the side through both phases: the
      warm-up has finished within its bounds when the counter is reset, and `done` is what the second
      phase counted.
     */
    method RunBoth() returns (done: nat, ghost warm: seq<Event>, ghost trace: seq<Event>)
      requires Snapshot() == Init(cfg) && Inv(cfg, Snapshot())
      modifies this
      ensures cfg.iterations <= done <= cfg.Ceiling(1)
      ensures IsRun(cfg, Init(cfg), trace) && Exec(cfg, Init(cfg), trace) == Snapshot() && phase == 2
      ensures cfg.warmup + cfg.iterations <= Performed(trace) <= cfg.Ceiling(0) + cfg.Ceiling(1)
      ensures warm + [NextPhase] <= trace && IsRun(cfg, Init(cfg), warm)
      ensures var w := Exec(cfg, Init(cfg), warm);
              w.phase == 0 && w.finished == cfg.concurrency && cfg.warmup <= w.counter <= cfg.Ceiling(0)
    {
      ghost var start := Snapshot();
      warm := RunPhase(start, []);
      RunExtends(cfg, start, warm, NextPhase);
      StepKeeps(cfg, Snapshot(), NextPhase);
      phase, unstarted, inFlight, finished, counter := 1, cfg.concurrency, 0, 0, 0;
      trace := RunPhase(start, warm + [NextPhase]);
      done := counter;
      RunExtends(cfg, start, trace, NextPhase);
      trace := trace + [NextPhase];
      phase := 2;
      BothPhases(cfg, trace);
    }
  }
}
