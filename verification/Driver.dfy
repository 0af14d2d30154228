/**
  The event loop driving coroutines. An awaited operation that cannot complete at once registers its
  coroutine with the channel it needs; when `poll` handles an event of that channel, the channel's
  callback resumes the coroutine, which runs until nothing can run any more before the next event is
  handled. The two machines share nothing but these registrations and callbacks.
 */
module Driver {
  import opened Prelude
  import opened Coroutine
  import opened TaskMachine
  import opened TaskInvariant
  import opened TaskSteps
  import opened TaskTheorems
  import opened SequentialTasks
  import Loop = EventLoop

  /** The channel and the direction that each operation needs. */
  datatype Wiring = Wiring(channel: Op -> Loop.ChannelId, direction: Op -> Loop.Direction)

  /** The token that a channel's callback carries is the id of the request to complete. */
  datatype Joint = Joint(tasks: State, loop: Loop.State)

  datatype Turn = RunTask(timing: Timing) | Poll(events: seq<Loop.Ready>) | Dispatch

  /** The registration that such a step makes: `set_..._callback` and `wait_...`. */
  function Registration(w: Wiring, s: State, t: Timing): Loop.Event
    requires Suspends(s, t)
  {
    var op := s.heap[s.stack[0]].frame.pc.op;
    Loop.Wait(w.channel(op), w.direction(op), t.request)
  }

  /** The callback that the next event of the batch calls. */
  function Called(l: Loop.State): Option<Loop.Token> {
    if l.batch == [] || l.batch[0].fd == Loop.CLOSE_FD || l.batch[0].fd !in l.channels then None
    else
      var c := l.channels[l.batch[0].fd];
      if c in l.live then Some(l.live[c].Callback(l.batch[0].direction)) else None
  }

  /** No coroutine waits on a channel on which another one is waiting; `poll` goes on when nothing runs. */
  predicate Possible(w: Wiring, s: Joint, e: Turn) {
    match e
    case RunTask(t) =>
      Enabled(s.tasks, Run(t)) && (Suspends(s.tasks, t) ==> Loop.Enabled(s.loop, Registration(w, s.tasks, t)))
    case Poll(events) => s.tasks.fault.None? && s.tasks.stack == [] && Loop.Enabled(s.loop, Loop.Poll(events))
    case Dispatch => s.tasks.fault.None? && s.tasks.stack == [] && Loop.Enabled(s.loop, Loop.Dispatch)
  }

  /** What a turn is for the task machine, and for the event loop. */
  function TaskPart(s: Joint, e: Turn): seq<Event> {
    match e
    case RunTask(t) => [Run(t)]
    case Poll(_) => []
    case Dispatch => (match Called(s.loop) case Some(r) => [Progress(r)] case None => [])
  }

  function LoopPart(w: Wiring, s: Joint, e: Turn): seq<Loop.Event> {
    match e
    case RunTask(t) => if Suspends(s.tasks, t) then [Registration(w, s.tasks, t)] else []
    case Poll(events) => [Loop.Poll(events)]
    case Dispatch => [Loop.Dispatch]
  }

  function Take(w: Wiring, orc: Oracle, s: Joint, e: Turn): Joint {
    Joint(Exec(orc, s.tasks, TaskPart(s, e)), Loop.Exec(s.loop, LoopPart(w, s, e)))
  }

  predicate IsDriven(w: Wiring, orc: Oracle, s: Joint, es: seq<Turn>)
    decreases |es|
  {
    es == [] || (Possible(w, s, es[0]) && IsDriven(w, orc, Take(w, orc, s, es[0]), es[1..]))
  }

  function Drive(w: Wiring, orc: Oracle, s: Joint, es: seq<Turn>): Joint
    decreases |es|
  {
    if es == [] then s else Drive(w, orc, Take(w, orc, s, es[0]), es[1..])
  }

  /** A program just called, and a loop with open channels for all its operations and no waits. */
  ghost predicate Fresh(w: Wiring, root: Body, s: Joint) {
    && s.tasks == Init(root) && Loop.Inv(s.loop) && s.loop.interest.Keys == {Loop.CLOSE_FD}
    && forall op :: w.channel(op) in s.loop.live
  }

  // ------------------------------------------------------------------------------------------------

  /** Channel `c` is registered for direction `d` and will call the callback of request `r`. */
  predicate ArmedFor(l: Loop.State, c: Loop.ChannelId, d: Loop.Direction, r: nat) {
    Loop.Armed(l, c, r) && l.interest[l.live[c].fd] == d
  }

  /** Request `r` is in flight and needs channel `c` in direction `d`. */
  predicate NeededOn(w: Wiring, s: State, c: Loop.ChannelId, d: Loop.Direction, r: nat) {
    r in s.requests && w.channel(s.requests[r].op) == c && w.direction(s.requests[r].op) == d
  }

  /** Requests in flight and waits correspond one to one. */
  ghost predicate Wired(w: Wiring, s: Joint) {
    forall c: Loop.ChannelId, d: Loop.Direction, r: nat :: ArmedFor(s.loop, c, d, r) <==> NeededOn(w, s.tasks, c, d, r)
  }

  ghost predicate JointInv(w: Wiring, orc: Oracle, s: Joint, g: seq<Spec>) {
    && Inv(orc, s.tasks, g) && Loop.Inv(s.loop) && Wired(w, s)
    && forall op :: w.channel(op) in s.loop.live
  }

  lemma {:induction false} OneEvent(orc: Oracle, s: State, e: Event)
    ensures Exec(orc, s, [e]) == Step(orc, s, e) && Exec(orc, s, []) == s
  {
    assert [e][1..] == [];
  }

  lemma {:induction false} OneLoopEvent(s: Loop.State, e: Loop.Event)
    ensures Loop.Exec(s, [e]) == Loop.Step(s, e) && Loop.Exec(s, []) == s
  {
    assert [e][1..] == [];
  }

  /** Registering arms one channel with one request, which no channel was armed with. */
  lemma WaitArms(l: Loop.State, id: Loop.ChannelId, e: Loop.Direction, t: Loop.Token,
                 c: Loop.ChannelId, d: Loop.Direction, r: nat)
    requires Loop.Inv(l) && Loop.Enabled(l, Loop.Wait(id, e, t))
    ensures ArmedFor(Loop.Step(l, Loop.Wait(id, e, t)), c, d, r)
            <==> if c == id then r == t && d == e else ArmedFor(l, c, d, r)
    ensures !ArmedFor(l, id, d, r)
  {
  }

  /** Handling an event disarms its channel, whose callback it calls, and no other. */
  lemma DispatchDisarms(l: Loop.State, c: Loop.ChannelId, d: Loop.Direction, r: nat)
    requires Loop.Inv(l) && l.batch != []
    ensures Called(l).None? ==> (ArmedFor(Loop.HandleEvent(l), c, d, r) <==> ArmedFor(l, c, d, r))
    ensures Called(l).Some? ==>
              var id := l.channels[l.batch[0].fd];
              && ArmedFor(l, id, l.batch[0].direction, Called(l).value)
              && (ArmedFor(Loop.HandleEvent(l), c, d, r) <==> c != id && ArmedFor(l, c, d, r))
  {
    Loop.RegisteredHasChannel(l);
  }

  lemma RunKeepsWired(w: Wiring, orc: Oracle, s: Joint, t: Timing)
    requires Loop.Inv(s.loop) && Wired(w, s) && Possible(w, s, RunTask(t))
    ensures Wired(w, Take(w, orc, s, RunTask(t)))
  {
    var s' := Take(w, orc, s, RunTask(t));
    OneEvent(orc, s.tasks, Run(t));
    RunRequests(orc, s.tasks, t);
    if Suspends(s.tasks, t) {
      var op := s.tasks.heap[s.tasks.stack[0]].frame.pc.op;
      OneLoopEvent(s.loop, Registration(w, s.tasks, t));
      forall c: Loop.ChannelId, d: Loop.Direction, r: nat
        ensures ArmedFor(s'.loop, c, d, r) <==> NeededOn(w, s'.tasks, c, d, r)
      {
        WaitArms(s.loop, w.channel(op), w.direction(op), t.request, c, d, r);
        assert ArmedFor(s.loop, c, d, r) <==> NeededOn(w, s.tasks, c, d, r);
      }
    } else {
      assert Loop.Exec(s.loop, []) == s.loop;
      forall c: Loop.ChannelId, d: Loop.Direction, r: nat
        ensures ArmedFor(s'.loop, c, d, r) <==> NeededOn(w, s'.tasks, c, d, r)
      {
        assert ArmedFor(s.loop, c, d, r) <==> NeededOn(w, s.tasks, c, d, r);
      }
    }
  }

  /** The callback of an event belongs to a request in flight. */
  lemma CalledIsNeeded(w: Wiring, s: Joint)
    requires Loop.Inv(s.loop) && Wired(w, s) && Called(s.loop).Some?
    ensures var id := s.loop.channels[s.loop.batch[0].fd];
            NeededOn(w, s.tasks, id, s.loop.batch[0].direction, Called(s.loop).value)
  {
    var id := s.loop.channels[s.loop.batch[0].fd];
    DispatchDisarms(s.loop, id, s.loop.batch[0].direction, Called(s.loop).value);
    assert ArmedFor(s.loop, id, s.loop.batch[0].direction, Called(s.loop).value);
  }

  lemma DispatchKeepsWired(w: Wiring, orc: Oracle, s: Joint, g: seq<Spec>)
    requires JointInv(w, orc, s, g) && Possible(w, s, Dispatch)
    ensures Wired(w, Take(w, orc, s, Dispatch))
  {
    var s' := Take(w, orc, s, Dispatch);
    OneLoopEvent(s.loop, Loop.Dispatch);
    match Called(s.loop)
    case None =>
      forall c: Loop.ChannelId, d: Loop.Direction, r: nat
        ensures ArmedFor(s'.loop, c, d, r) <==> NeededOn(w, s'.tasks, c, d, r)
      {
        DispatchDisarms(s.loop, c, d, r);
        assert ArmedFor(s.loop, c, d, r) <==> NeededOn(w, s.tasks, c, d, r);
      }
    case Some(q) =>
      CalledIsNeeded(w, s);
      OneEvent(orc, s.tasks, Progress(q));
      CallbackRequests(orc, s.tasks, g, q);
      forall c: Loop.ChannelId, d: Loop.Direction, r: nat
        ensures ArmedFor(s'.loop, c, d, r) <==> NeededOn(w, s'.tasks, c, d, r)
      {
        DispatchDisarms(s.loop, c, d, r);
        assert ArmedFor(s.loop, c, d, r) <==> NeededOn(w, s.tasks, c, d, r);
        OneTokenEach(s.loop, c, d, r, q);
      }
  }

  /** A channel is armed with one request. */
  lemma OneTokenEach(l: Loop.State, c: Loop.ChannelId, d: Loop.Direction, r: nat, q: nat)
    ensures ArmedFor(l, c, d, r) && Loop.Armed(l, c, q) ==> r == q
  {
  }

  // --- Runs ---------------------------------------------------------------------------------------

  /** Every turn is a step, or no step, of each of the two machines, and keeps them wired. */
  lemma RunTurn(w: Wiring, orc: Oracle, s: Joint, g: seq<Spec>, t: Timing) returns (g': seq<Spec>)
    requires JointInv(w, orc, s, g) && Possible(w, s, RunTask(t))
    ensures IsRun(orc, s.tasks, TaskPart(s, RunTask(t))) && Loop.IsRun(s.loop, LoopPart(w, s, RunTask(t)))
    ensures Loop.Inv(Take(w, orc, s, RunTask(t)).loop)
    ensures Take(w, orc, s, RunTask(t)).tasks.fault.None? ==> JointInv(w, orc, Take(w, orc, s, RunTask(t)), g')
  {
    RunKeepsWired(w, orc, s, t);
    g' := StepOutcome(orc, s.tasks, g, Run(t));
    OneEvent(orc, s.tasks, Run(t));
    if Suspends(s.tasks, t) {
      OneLoopEvent(s.loop, Registration(w, s.tasks, t));
      Loop.StepKeeps(s.loop, Registration(w, s.tasks, t));
    }
  }

  lemma DispatchTurn(w: Wiring, orc: Oracle, s: Joint, g: seq<Spec>) returns (g': seq<Spec>)
    requires JointInv(w, orc, s, g) && Possible(w, s, Dispatch)
    ensures IsRun(orc, s.tasks, TaskPart(s, Dispatch)) && Loop.IsRun(s.loop, LoopPart(w, s, Dispatch))
    ensures JointInv(w, orc, Take(w, orc, s, Dispatch), g')
  {
    g' := g;
    DispatchKeepsWired(w, orc, s, g);
    OneLoopEvent(s.loop, Loop.Dispatch);
    Loop.StepKeeps(s.loop, Loop.Dispatch);
    if Called(s.loop).Some? {
      CalledIsNeeded(w, s);
      g' := StepAdvances(orc, s.tasks, g, Progress(Called(s.loop).value));
      OneEvent(orc, s.tasks, Progress(Called(s.loop).value));
    }
  }

  lemma PollTurn(w: Wiring, orc: Oracle, s: Joint, g: seq<Spec>, events: seq<Loop.Ready>)
    requires JointInv(w, orc, s, g) && Possible(w, s, Poll(events))
    ensures IsRun(orc, s.tasks, TaskPart(s, Poll(events))) && Loop.IsRun(s.loop, LoopPart(w, s, Poll(events)))
    ensures JointInv(w, orc, Take(w, orc, s, Poll(events)), g)
  {
    OneLoopEvent(s.loop, Loop.Poll(events));
    Loop.StepKeeps(s.loop, Loop.Poll(events));
  }

  lemma TurnKeeps(w: Wiring, orc: Oracle, s: Joint, g: seq<Spec>, e: Turn) returns (g': seq<Spec>)
    requires JointInv(w, orc, s, g) && Possible(w, s, e)
    ensures IsRun(orc, s.tasks, TaskPart(s, e)) && Loop.IsRun(s.loop, LoopPart(w, s, e))
    ensures Loop.Inv(Take(w, orc, s, e).loop)
    ensures Take(w, orc, s, e).tasks.fault.None? ==> JointInv(w, orc, Take(w, orc, s, e), g')
  {
    match e
    case RunTask(t) => g' := RunTurn(w, orc, s, g, t);
    case Poll(events) =>
      g' := g;
      PollTurn(w, orc, s, g, events);
    case Dispatch => g' := DispatchTurn(w, orc, s, g);
  }

  /** All that the turns of a run are for the task machine, and for the event loop. */
  function TaskParts(w: Wiring, orc: Oracle, s: Joint, es: seq<Turn>): seq<Event>
    decreases |es|
  {
    if es == [] then [] else TaskPart(s, es[0]) + TaskParts(w, orc, Take(w, orc, s, es[0]), es[1..])
  }

  function LoopParts(w: Wiring, orc: Oracle, s: Joint, es: seq<Turn>): seq<Loop.Event>
    decreases |es|
  {
    if es == [] then [] else LoopPart(w, s, es[0]) + LoopParts(w, orc, Take(w, orc, s, es[0]), es[1..])
  }

  lemma {:induction false} RunPrepends(orc: Oracle, s: State, a: seq<Event>, b: seq<Event>)
    requires |a| <= 1 && IsRun(orc, s, a) && IsRun(orc, Exec(orc, s, a), b)
    ensures IsRun(orc, s, a + b) && Exec(orc, s, a + b) == Exec(orc, Exec(orc, s, a), b)
  {
    if a == [] {
      assert a + b == b;
    } else {
      OneEvent(orc, s, a[0]);
      assert a == [a[0]] && (a + b)[1..] == b;
    }
  }

  lemma {:induction false} LoopRunPrepends(s: Loop.State, a: seq<Loop.Event>, b: seq<Loop.Event>)
    requires |a| <= 1 && Loop.IsRun(s, a) && Loop.IsRun(Loop.Exec(s, a), b)
    ensures Loop.IsRun(s, a + b) && Loop.Exec(s, a + b) == Loop.Exec(Loop.Exec(s, a), b)
  {
    if a == [] {
      assert a + b == b;
    } else {
      OneLoopEvent(s, a[0]);
      assert a == [a[0]] && (a + b)[1..] == b;
    }
  }

  /** A joint run is a run of each machine, and keeps them wired. */
  lemma {:induction false} DrivenKeeps(w: Wiring, orc: Oracle, s: Joint, g: seq<Spec>, es: seq<Turn>) returns (g': seq<Spec>)
    requires JointInv(w, orc, s, g) && IsDriven(w, orc, s, es)
    ensures Loop.Inv(Drive(w, orc, s, es).loop)
    ensures Drive(w, orc, s, es).tasks.fault.None? ==> JointInv(w, orc, Drive(w, orc, s, es), g')
    ensures IsRun(orc, s.tasks, TaskParts(w, orc, s, es))
    ensures Drive(w, orc, s, es).tasks == Exec(orc, s.tasks, TaskParts(w, orc, s, es))
    ensures Loop.IsRun(s.loop, LoopParts(w, orc, s, es))
    ensures Drive(w, orc, s, es).loop == Loop.Exec(s.loop, LoopParts(w, orc, s, es))
    decreases |es|
  {
    g' := g;
    if es != [] {
      var s1 := Take(w, orc, s, es[0]);
      g' := TurnKeeps(w, orc, s, g, es[0]);
      if s1.tasks.fault.None? {
        g' := DrivenKeeps(w, orc, s1, g', es[1..]);
      } else {
        assert es[1..] == [];
      }
      RunPrepends(orc, s.tasks, TaskPart(s, es[0]), TaskParts(w, orc, s1, es[1..]));
      LoopRunPrepends(s.loop, LoopPart(w, s, es[0]), LoopParts(w, orc, s1, es[1..]));
    }
  }

  lemma {:induction false} FreshHolds(w: Wiring, orc: Oracle, root: Body, o: Outcome, s: Joint)
    requires Fresh(w, root, s) && Eval(orc, root, []) == Some(o)
    ensures JointInv(w, orc, s, InitialSpec(orc, root, o))
  {
    InitKeeps(orc, root, o);
  }

  /** Any reachable joint state, with what is known of both machines there. */
  lemma DrivenReaches(w: Wiring, orc: Oracle, root: Body, o: Outcome, s: Joint, es: seq<Turn>)
      returns (g: seq<Spec>)
    requires Fresh(w, root, s) && Eval(orc, root, []) == Some(o) && IsDriven(w, orc, s, es)
    ensures Loop.Inv(Drive(w, orc, s, es).loop)
    ensures Drive(w, orc, s, es).tasks.fault.None? ==> JointInv(w, orc, Drive(w, orc, s, es), g)
    ensures IsRun(orc, Init(root), TaskParts(w, orc, s, es))
    ensures Drive(w, orc, s, es).tasks == Exec(orc, Init(root), TaskParts(w, orc, s, es))
  {
    FreshHolds(w, orc, root, o, s);
    g := DrivenKeeps(w, orc, s, InitialSpec(orc, root, o), es);
  }

  /**
    A program driven by the event loop. Apart from polls, the task machine takes no more steps than
    the direct-style evaluation accounts for. The loop never faults and its map agrees with the epoll
    set; the task machine faults exactly as it does alone. Otherwise the root's promise never holds
    anything but the direct-style outcome, and when nothing runs and no channel waits any more, it
    holds that outcome.
   */
  lemma {:induction false} DrivenProgramEnds(w: Wiring, orc: Oracle, root: Body, o: Outcome, s: Joint, es: seq<Turn>)
    requires Fresh(w, root, s) && Eval(orc, root, []) == Some(o) && IsDriven(w, orc, s, es)
    ensures |TaskParts(w, orc, s, es)| <= Cost(orc, root, [])
    ensures var s' := Drive(w, orc, s, es);
            && !s'.loop.fault && Loop.Agrees(s'.loop)
            && s'.tasks.fault
               == (if EndsInDestructor(orc, Init(root), TaskParts(w, orc, s, es)) then Some(BlockedForever) else None)
            && (s'.tasks.fault.None? ==>
                  && IsLive(s'.tasks, 0)
                  && (s'.tasks.heap[0].frame.promise.Some? ==> s'.tasks.heap[0].frame.promise == Some(o))
                  && (s'.tasks.stack == [] && s'.loop.interest.Keys == {Loop.CLOSE_FD} ==>
                        s'.tasks.heap[0].frame.phase.Final? && s'.tasks.heap[0].frame.promise == Some(o)))
  {
    var g := DrivenReaches(w, orc, root, o, s, es);
    var s' := Drive(w, orc, s, es);
    AwaitTransparency(orc, root, o, TaskParts(w, orc, s, es));
    if s'.tasks.fault.None? && s'.tasks.stack == [] && s'.loop.interest.Keys == {Loop.CLOSE_FD} {
      NothingNeeded(w, orc, s', g);
      assert Quiescent(s'.tasks);
    }
  }

  /** Without a registered channel there is no request in flight. */
  lemma NothingNeeded(w: Wiring, orc: Oracle, s: Joint, g: seq<Spec>)
    requires JointInv(w, orc, s, g) && s.loop.interest.Keys == {Loop.CLOSE_FD}
    ensures s.tasks.requests == map[]
  {
    forall r | r in s.tasks.requests
      ensures false
    {
      var op := s.tasks.requests[r].op;
      assert NeededOn(w, s.tasks, w.channel(op), w.direction(op), r);
    }
  }

  /**
    Suspended coroutines and registered channels correspond: each coroutine suspended on an operation
    has its channel registered, for the operation's direction and with its own callback; and each
    registered channel is waited on by exactly such a coroutine.
   */
  lemma {:induction false} WaitsMatchCoroutines(w: Wiring, orc: Oracle, root: Body, o: Outcome, s: Joint, es: seq<Turn>,
                                                c: Loop.ChannelId, d: Loop.Direction, r: nat)
    requires Fresh(w, root, s) && Eval(orc, root, []) == Some(o) && IsDriven(w, orc, s, es)
    ensures var s' := Drive(w, orc, s, es);
            s'.tasks.fault.None? ==>
              (ArmedFor(s'.loop, c, d, r)
               <==> exists f: Id :: WaitsFor(s'.tasks, f, r)
                                    && w.channel(s'.tasks.requests[r].op) == c && w.direction(s'.tasks.requests[r].op) == d)
  {
    var g := DrivenReaches(w, orc, root, o, s, es);
    var s' := Drive(w, orc, s, es);
    if s'.tasks.fault.None? {
      RequestBijection(orc, root, o, TaskParts(w, orc, s, es));
      assert ArmedFor(s'.loop, c, d, r) <==> NeededOn(w, s'.tasks, c, d, r);
      if r in s'.tasks.requests {
        assert WaitsFor(s'.tasks, s'.tasks.requests[r].userData, r);
      }
    }
  }

  /** All that `epoll_wait` has reported in a driven run. */
  function Polled(es: seq<Turn>): seq<Loop.Ready> {
    if es == [] then [] else (if es[0].Poll? then es[0].events else []) + Polled(es[1..])
  }

  lemma {:induction false} ReportedAppend(a: seq<Loop.Event>, b: seq<Loop.Event>)
    requires |a| <= 1
    ensures Loop.Reported(a + b) == Loop.Reported(a) + Loop.Reported(b)
  {
    if a == [] {
      assert a + b == b;
    } else {
      assert a == [a[0]] && (a + b)[1..] == b && a[1..] == [];
    }
  }

  lemma {:induction false} PolledIsReported(w: Wiring, orc: Oracle, s: Joint, es: seq<Turn>)
    ensures Loop.Reported(LoopParts(w, orc, s, es)) == Polled(es)
    decreases |es|
  {
    if es != [] {
      var s1 := Take(w, orc, s, es[0]);
      PolledIsReported(w, orc, s1, es[1..]);
      ReportedAppend(LoopPart(w, s, es[0]), LoopParts(w, orc, s1, es[1..]));
      if LoopPart(w, s, es[0]) != [] {
        assert LoopPart(w, s, es[0])[1..] == [];
      }
    }
  }

  /**
    A driven run handles what the kernel reports, each event once and in the order of the reports, by
    the callback stored for it at that point, after what was left of an earlier batch; only what is left
    of the current batch is not handled yet.
   */
  lemma {:induction false} ReportsAreDispatched(w: Wiring, orc: Oracle, root: Body, o: Outcome, s: Joint, es: seq<Turn>)
    requires Fresh(w, root, s) && Eval(orc, root, []) == Some(o) && IsDriven(w, orc, s, es)
    ensures exists reports ::
              && reports + Drive(w, orc, s, es).loop.batch == s.loop.batch + Polled(es)
              && Loop.Handles(s.loop, LoopParts(w, orc, s, es), reports)
  {
    FreshHolds(w, orc, root, o, s);
    var g := DrivenKeeps(w, orc, s, InitialSpec(orc, root, o), es);
    PolledIsReported(w, orc, s, es);
    var reports := Loop.RunHandles(s.loop, LoopParts(w, orc, s, es));
  }

  /** The coroutine that the turn of the event loop resumes. */
  ghost predicate Resumes(orc: Oracle, s: Joint, s': Joint, r: nat) {
    && r in s.tasks.requests
    && var f, op := s.tasks.requests[r].userData, s.tasks.requests[r].op;
       && WaitsFor(s.tasks, f, r)
       && s'.tasks.stack == [f] && s'.tasks.requests == s.tasks.requests - {r}
       && IsLive(s'.tasks, f) && s'.tasks.heap[f].frame.phase.ResumingOp?
       && AwaitResume(s'.tasks.heap[f].frame.awaitable) == Delivered(op.kind, orc(op))
  }

  lemma {:induction false} DispatchResumes(w: Wiring, orc: Oracle, s: Joint, g: seq<Spec>)
    requires JointInv(w, orc, s, g) && Possible(w, s, Dispatch) && Called(s.loop).Some?
    ensures Resumes(orc, s, Take(w, orc, s, Dispatch), Called(s.loop).value)
  {
    var r := Called(s.loop).value;
    CalledIsNeeded(w, s);
    RequestsMatch(orc, s.tasks, g);
    CallbackResumes(orc, s.tasks, g, r);
    OneEvent(orc, s.tasks, Progress(r));
  }

  /** An event resumes exactly the coroutine that waits on its channel, with the operation's result. */
  lemma {:induction false} EventResumesWaiter(w: Wiring, orc: Oracle, root: Body, o: Outcome, s: Joint, es: seq<Turn>)
    requires Fresh(w, root, s) && Eval(orc, root, []) == Some(o) && IsDriven(w, orc, s, es)
    requires Possible(w, Drive(w, orc, s, es), Dispatch) && Called(Drive(w, orc, s, es).loop).Some?
    ensures var s' := Drive(w, orc, s, es); Resumes(orc, s', Take(w, orc, s', Dispatch), Called(s'.loop).value)
  {
    var g := DrivenReaches(w, orc, root, o, s, es);
    DispatchResumes(w, orc, Drive(w, orc, s, es), g);
  }

  /** A sequential program never waits on a channel that is being waited on: registering never throws. */
  lemma {:induction false} NeverRegistersTwice(w: Wiring, orc: Oracle, root: Body, o: Outcome, s: Joint, es: seq<Turn>,
                                               t: Timing)
    requires Fresh(w, root, s) && Eval(orc, root, []) == Some(o) && Sequential(root, 0) && IsDriven(w, orc, s, es)
    requires Enabled(Drive(w, orc, s, es).tasks, Run(t))
    ensures Possible(w, Drive(w, orc, s, es), RunTask(t))
  {
    var g := DrivenReaches(w, orc, root, o, s, es);
    var s' := Drive(w, orc, s, es);
    if Suspends(s'.tasks, t) {
      IssuesAlone(orc, root, o, TaskParts(w, orc, s, es), s'.tasks.stack[0]);
      NothingArmed(w, orc, s', g, w.channel(s'.tasks.heap[s'.tasks.stack[0]].frame.pc.op));
    }
  }

  lemma RegisteredIsArmed(l: Loop.State, c: Loop.ChannelId)
    requires c in l.live && l.live[c].fd in l.interest
    ensures var d := l.interest[l.live[c].fd]; ArmedFor(l, c, d, l.live[c].Callback(d))
  {
  }

  lemma NothingArmed(w: Wiring, orc: Oracle, s: Joint, g: seq<Spec>, c: Loop.ChannelId)
    requires JointInv(w, orc, s, g) && s.tasks.requests == map[] && c in s.loop.live
    ensures s.loop.live[c].fd !in s.loop.interest
  {
    if s.loop.live[c].fd in s.loop.interest {
      RegisteredIsArmed(s.loop, c);
    }
  }
}
