/**
  Driving a worker from the event loop: a callback that progresses the worker until it is drained and
  armed, and then waits for the worker's event descriptor again. Events may arrive between any two
  calls; the question is whether one can arrive and never wake the loop.
 */
module WorkerWakeup {

  /** Where the callback of `register_loop` is. */
  datatype Phase =
    | Sleeping   // waiting for the event descriptor
    | Draining   // about to call `progress`
    | Arming     // `progress` returned false: about to call `arm`
    | Armed      // `arm` returned true: about to wait again, or to stop
    | Stopped

  /**
    `arrivals` counts the events still to come; `armed` says that the next one signals the
    descriptor, and `signalled` that the descriptor is readable.
   */
  datatype State = State(phase: Phase, arrivals: nat, pending: nat, armed: bool, signalled: bool)

  datatype Event = Arrive | Wake | Progress(n: nat) | Arm | Continue(othersHoldWorker: bool)

  /** UCX promises a signal for an event only after a successful `arm`. */
  function Arrival(s: State): State
    requires s.arrivals > 0
  {
    s.(arrivals := s.arrivals - 1, pending := s.pending + 1, armed := false, signalled := s.signalled || s.armed)
  }

  /** `arm` is busy while there are events, pending or signalled; it clears the signal. */
  function ArmWorker(s: State): (State, bool) {
    if s.pending > 0 || s.signalled then (s.(signalled := false), false) else (s.(armed := true), true)
  }

  predicate Enabled(s: State, e: Event) {
    match e
    case Arrive => s.arrivals > 0
    case Wake => s.phase.Sleeping? && s.signalled
    case Progress(n) => s.phase.Draining? && n <= s.pending && (n == 0 <==> s.pending == 0)
    case Arm => s.phase.Arming?
    case Continue(_) => s.phase.Armed?
  }

  function Step(s: State, e: Event): State
    requires Enabled(s, e)
  {
    match e
    case Arrive => Arrival(s)
    case Wake => s.(phase := Draining)
    case Progress(n) => s.(pending := s.pending - n, phase := if n > 0 then Draining else Arming)
    case Arm => var (s', ok) := ArmWorker(s); s'.(phase := if ok then Armed else Draining)
    case Continue(others) => s.(phase := if others then Sleeping else Stopped)
  }

  predicate IsRun(s: State, es: seq<Event>)
    decreases |es|
  {
    es == [] || (Enabled(s, es[0]) && IsRun(Step(s, es[0]), es[1..]))
  }

  function Exec(s: State, es: seq<Event>): State
    requires IsRun(s, es)
    decreases |es|
  {
    if es == [] then s else Exec(Step(s, es[0]), es[1..])
  }

  // ------------------------------------------------------------------------------------------------

  /** A pending event has signalled the descriptor, and a future one will. */
  ghost predicate Watched(s: State) {
    (s.pending > 0 ==> s.signalled) && (s.armed || s.signalled)
  }

  /** The same, of a future event only if there is one to come. */
  ghost predicate Covered(s: State) {
    (s.pending > 0 ==> s.signalled) && (s.arrivals > 0 ==> s.armed || s.signalled)
  }

  /** The next thing to happen wakes the loop, if there is anything to happen or to handle. */
  ghost predicate WillWake(s: State) {
    s.signalled || (if s.arrivals > 0 then s.armed else s.pending == 0)
  }

  ghost predicate Inv(s: State) {
    s.phase.Sleeping? || s.phase.Armed? ==> Watched(s)
  }

  ghost predicate Stuck(s: State) {
    forall e :: !Enabled(s, e)
  }

  /** The loop waits, and nothing is left to happen or to handle. */
  ghost predicate Handled(s: State) {
    s.phase.Sleeping? && s.pending == 0 && s.arrivals == 0
  }

  /** The events that the progress calls of a run have handled. */
  function Progressed(es: seq<Event>): nat {
    if es == [] then 0 else (if es[0].Progress? then es[0].n else 0) + Progressed(es[1..])
  }

  ghost function Rank(s: State): nat {
    match s.phase
    case Stopped => 0
    case Sleeping => if s.signalled then 14 else 0
    case Armed => if s.signalled then 15 else 1
    case Arming => (if s.signalled then 10 else 0) + (if s.pending > 0 then 4 else 2)
    case Draining => if s.signalled then 13 else 3
  }

  /** An upper bound on the steps left, whatever happens. */
  ghost function Measure(s: State): nat {
    32 * s.arrivals + 4 * s.pending + Rank(s)
  }

  lemma StepKeeps(s: State, e: Event)
    requires Enabled(s, e)
    ensures Measure(Step(s, e)) < Measure(s)
    ensures Inv(s) ==> Inv(Step(s, e))
  {
  }

  lemma {:induction false} RunKeeps(s: State, es: seq<Event>)
    requires IsRun(s, es)
    ensures |es| + Measure(Exec(s, es)) <= Measure(s)
    ensures Inv(s) ==> Inv(Exec(s, es))
    decreases |es|
  {
    if es != [] {
      StepKeeps(s, es[0]);
      RunKeeps(Step(s, es[0]), es[1..]);
    }
  }

  /** The loop can only be stuck asleep and unsignalled, or stopped. */
  lemma {:induction false} StuckStates(s: State)
    ensures Stuck(s) <==> s.arrivals == 0 && (s.phase.Stopped? || (s.phase.Sleeping? && !s.signalled))
  {
    if Stuck(s) {
      assert !Enabled(s, Arrive) && !Enabled(s, Wake) && !Enabled(s, Arm) && !Enabled(s, Continue(true));
      assert !Enabled(s, Progress(s.pending));
    }
  }

  /** No event is lost or handled twice. */
  lemma {:induction false} EventsAreCounted(s: State, es: seq<Event>)
    requires IsRun(s, es)
    ensures var s' := Exec(s, es); s.arrivals + s.pending == s'.arrivals + s'.pending + Progressed(es)
    decreases |es|
  {
    if es != [] {
      EventsAreCounted(Step(s, es[0]), es[1..]);
    }
  }

  lemma {:induction false} StaysStopped(s: State, es: seq<Event>)
    requires s.phase.Stopped? && IsRun(s, es)
    ensures Exec(s, es).phase.Stopped?
    decreases |es|
  {
    if es != [] {
      StaysStopped(Step(s, es[0]), es[1..]);
    }
  }

  /** The loop gives up exactly when it finds that nobody else holds the worker. */
  lemma {:induction false} StopsIff(s: State, es: seq<Event>)
    requires !s.phase.Stopped? && IsRun(s, es)
    ensures Exec(s, es).phase.Stopped? <==> Continue(false) in es
    decreases |es|
  {
    if es != [] {
      var s1 := Step(s, es[0]);
      assert Continue(false) in es <==> es[0] == Continue(false) || Continue(false) in es[1..];
      if es[0] == Continue(false) {
        StaysStopped(s1, es[1..]);
      } else {
        StopsIff(s1, es[1..]);
      }
    }
  }

  /**
    From the first callback on, with `n` events to come at any time: whenever the loop sleeps, a
    pending event has made the descriptor readable and the next event will; every run is finite, so
    the drain loop ends; the loop stops exactly when it finds that nobody else holds the worker; and
    unless it does, once nothing is left to happen it waits with every event handled.
   */
  lemma {:induction false} NoLostWakeup(start: State, es: seq<Event>)
    requires start.phase.Draining? && IsRun(start, es)
    ensures var s := Exec(start, es);
            && (s.phase.Sleeping? ==> Watched(s))
            && |es| <= Measure(start)
            && (s.phase.Stopped? <==> Continue(false) in es)
            && (Stuck(s) ==> s.arrivals == 0)
            && (Stuck(s) && Continue(false) !in es ==> Handled(s) && Progressed(es) == start.pending + start.arrivals)
  {
    RunKeeps(start, es);
    StopsIff(start, es);
    EventsAreCounted(start, es);
    StuckStates(Exec(start, es));
  }

  /**
    The first wait, which no `arm` precedes, is different: an event that arrives then wakes nobody,
    now or later.
   */
  lemma {:induction false} FirstWaitMayMissEvents(s: State, es: seq<Event>)
    requires s.phase.Sleeping? && !s.armed && !s.signalled && IsRun(s, es)
    ensures var s' := Exec(s, es);
            && s'.phase.Sleeping? && !s'.armed && !s'.signalled
            && s'.pending == s.pending + |es| && s'.arrivals == s.arrivals - |es|
    decreases |es|
  {
    if es != [] {
      FirstWaitMayMissEvents(Step(s, es[0]), es[1..]);
    }
  }

  /** Events arrive, one after the other. */
  lemma {:induction false} SomeArrive(s: State, n: nat) returns (es: seq<Event>)
    requires n <= s.arrivals
    ensures IsRun(s, es) && |es| == n
    ensures Exec(s, es) == s.(arrivals := s.arrivals - n, pending := s.pending + n, armed := s.armed && n == 0,
                             signalled := s.signalled || (s.armed && n > 0))
    decreases n
  {
    if n == 0 {
      es := [];
    } else {
      var rest := SomeArrive(Step(s, Arrive), n - 1);
      es := [Arrive] + rest;
      assert es[1..] == rest;
    }
  }

  /** What every wait of a run has, if the first one has it. */
  lemma {:induction false} WaitsKeep(s: State, es: seq<Event>)
    requires IsRun(s, es)
    ensures var s' := Exec(s, es);
            && ((s.phase.Sleeping? || s.phase.Armed? ==> Covered(s)) ==>
                  (s'.phase.Sleeping? || s'.phase.Armed? ==> Covered(s')))
            && ((s.phase.Sleeping? || s.phase.Armed? ==> WillWake(s)) ==>
                  (s'.phase.Sleeping? || s'.phase.Armed? ==> WillWake(s')))
    decreases |es|
  {
    if es != [] {
      WaitsKeep(Step(s, es[0]), es[1..]);
    }
  }

  /**
    Through all runs from a wait on, the later waits included, the loop never sleeps over a pending
    event that has not signalled it: this holds exactly if a pending event has made the descriptor
    readable when the wait starts, and an event to come will.
   */
  lemma {:induction false} WaitIsSafeIff(s: State)
    requires s.phase.Sleeping?
    ensures (forall es :: IsRun(s, es) && Exec(s, es).phase.Sleeping? && Exec(s, es).pending > 0 ==>
                            Exec(s, es).signalled)
       <==> Covered(s)
  {
    if Covered(s) {
      forall es | IsRun(s, es) && Exec(s, es).phase.Sleeping? && Exec(s, es).pending > 0
        ensures Exec(s, es).signalled
      {
        WaitsKeep(s, es);
      }
    } else {
      var es := SomeArrive(s, if s.pending > 0 && !s.signalled then 0 else 1);
      assert Exec(s, es).pending > 0 && !Exec(s, es).signalled;
    }
  }

  /**
    Runs from a wait on are finite, and all those that cannot go on, and in which others always hold
    the worker, end in a wait with every event handled, exactly if the first wait starts signalled, or
    armed with events to come, or with nothing pending and nothing to come. So an event that nobody was
    woken for may still be handled, but only because a later one wakes the loop.
   */
  lemma {:induction false} WaitEndsWellIff(s: State)
    requires s.phase.Sleeping?
    ensures forall es :: IsRun(s, es) ==> |es| <= Measure(s)
    ensures (forall es :: IsRun(s, es) && Continue(false) !in es && Stuck(Exec(s, es)) ==> Handled(Exec(s, es))) <==> WillWake(s)
  {
    forall es | IsRun(s, es)
      ensures |es| <= Measure(s)
      ensures WillWake(s) && Continue(false) !in es && Stuck(Exec(s, es)) ==> Handled(Exec(s, es))
    {
      RunKeeps(s, es);
      WaitsKeep(s, es);
      StopsIff(s, es);
      StuckStates(Exec(s, es));
    }
    var es := SomeArrive(s, s.arrivals);
    StopsIff(s, es);
    StuckStates(Exec(s, es));
  }

  lemma {:induction false} RunAppends(s: State, es: seq<Event>, more: seq<Event>)
    requires IsRun(s, es) && IsRun(Exec(s, es), more)
    ensures IsRun(s, es + more) && Exec(s, es + more) == Exec(Exec(s, es), more)
    decreases |es|
  {
    if es == [] {
      assert es + more == more;
    } else {
      assert (es + more)[1..] == es[1..] + more;
      RunAppends(Step(s, es[0]), es[1..], more);
    }
  }

  lemma {:induction false} RunExtends(s: State, es: seq<Event>, e: Event)
    requires IsRun(s, es) && Enabled(Exec(s, es), e)
    ensures IsRun(s, es + [e]) && Exec(s, es + [e]) == Step(Exec(s, es), e)
  {
    assert [e][1..] == [];
    RunAppends(s, es, [e]);
  }

  // ------------------------------------------------------------------------------------------------

  /** A worker and the descriptor it signals, with events arriving in between the calls on it. */
  class Worker {
    var arrivals: nat
    var pending: nat
    var armed: bool
    var signalled: bool
    var waiting: bool

    function Snapshot(phase: Phase): State
      reads this
    {
      State(phase, arrivals, pending, armed, signalled)
    }

    /** Any number of the events to come arrive now, which extends the run recorded so far. */
    method EventsArrive(ghost phase: Phase, ghost start: State, ghost before: seq<Event>) returns (ghost trace: seq<Event>)
      requires IsRun(start, before) && Exec(start, before) == Snapshot(phase)
      modifies this
      ensures IsRun(start, trace) && Exec(start, trace) == Snapshot(phase)
      ensures arrivals <= old(arrivals) && pending + arrivals == old(pending + arrivals)
      ensures pending == old(pending) ==> armed == old(armed) && signalled == old(signalled)
      ensures pending > old(pending) ==> !armed && signalled == old(signalled || armed)
      ensures waiting == old(waiting)
    {
      var n: nat :| n <= arrivals;
      var i := 0;
      while i < n
        invariant i <= n && n - i <= arrivals <= old(arrivals)
        invariant pending == old(pending) + i && pending + arrivals == old(pending + arrivals)
        invariant if i == 0 then armed == old(armed) && signalled == old(signalled)
                  else !armed && signalled == old(signalled || armed)
        invariant waiting == old(waiting)
      {
        arrivals, pending, signalled, armed := arrivals - 1, pending + 1, signalled || armed, false;
        i := i + 1;
      }
      ghost var arrived := SomeArrive(old(Snapshot(phase)), n);
      RunAppends(start, before, arrived);
      trace := before + arrived;
    }

    /** `worker::progress`: handles some pending events, and says whether there were any. */
    method ProgressOnce() returns (made: bool)
      modifies this`pending
      ensures made <==> old(pending) > 0
      ensures if made then pending < old(pending) else pending == old(pending)
    {
      made := pending > 0;
      if made {
        var n: nat :| 0 < n <= pending;
        pending := pending - n;
      }
    }

    /** `worker::arm`. */
    method ArmOnce() returns (ok: bool)
      modifies this`armed, this`signalled
      ensures (Snapshot(Arming), ok) == ArmWorker(old(Snapshot(Arming)))
    {
      ok := pending == 0 && !signalled;
      if ok {
        armed := true;
      } else {
        signalled := false;
      }
    }

    /**
      The readable callback of `register_loop`. It performs a run of the machine, which ends, whatever
      arrives meanwhile, and leaves the worker watched; it waits again exactly if others hold the
      worker.
     */
    method ReadableCallback(othersHoldWorker: bool) returns (ghost trace: seq<Event>)
      requires !armed && !waiting
      modifies this
      ensures Watched(Snapshot(Sleeping)) && waiting == othersHoldWorker
      ensures IsRun(old(Snapshot(Draining)), trace)
      ensures Exec(old(Snapshot(Draining)), trace) == Snapshot(if waiting then Sleeping else Stopped)
    {
      ghost var start := Snapshot(Draining);
      trace := [];
      var ok := false;
      while !ok
        invariant !waiting && IsRun(start, trace) && Exec(start, trace) == Snapshot(if ok then Armed else Draining)
        invariant if ok then Watched(Snapshot(Armed)) else !armed
        decreases !ok, 2 * (arrivals + pending) + arrivals + (if signalled then 1 else 0)
      {
        ghost var before := 2 * (arrivals + pending) + arrivals + (if signalled then 1 else 0);
        trace := EventsArrive(Draining, start, trace);
        var made := true;
        while made
          invariant !waiting && !armed && (made || pending == 0)
          invariant IsRun(start, trace) && Exec(start, trace) == Snapshot(if made then Draining else Arming)
          invariant 2 * (arrivals + pending) + arrivals + (if signalled then 1 else 0) <= before
          decreases arrivals + pending, made
        {
          ghost var was := pending;
          made := ProgressOnce();
          RunExtends(start, trace, Progress(was - pending));
          trace := trace + [Progress(was - pending)];
          if made {
            trace := EventsArrive(Draining, start, trace);
          }
        }
        trace := EventsArrive(Arming, start, trace);
        RunExtends(start, trace, Arm);
        ok := ArmOnce();
        trace := trace + [Arm];
      }
      trace := EventsArrive(Armed, start, trace);
      RunExtends(start, trace, Continue(othersHoldWorker));
      trace := trace + [Continue(othersHoldWorker)];
      waiting := othersHoldWorker;
      trace := EventsArrive(if othersHoldWorker then Sleeping else Stopped, start, trace);
    }
  }
}
