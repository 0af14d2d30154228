/** What the task machine promises over whole runs. */
module TaskTheorems {
  import opened Prelude
  import opened Coroutine
  import opened TaskMachine
  import opened TaskInvariant
  import opened TaskSteps
  import opened TaskFinish
  import opened TaskBlocking

  lemma StepAdvances(orc: Oracle, s: State, g: seq<Spec>, e: Event) returns (g': seq<Spec>)
    requires Inv(orc, s, g) && Enabled(s, e) && !(e.Run? && DestroysUnfinished(s))
    ensures Advances(orc, s, g, Step(orc, s, e), g')
  {
    g' := g;
    match e
    case Progress(r) => CallbackAdvances(orc, s, g, r);
    case Run(t) =>
      TopIsOnTop(orc, s, g);
      var f := s.stack[0];
      var fr := s.heap[f].frame;
      match fr.phase {
        case ResumingOp => ResumeOpAdvances(orc, s, g, f);
        case ResumingTask(c) => g' := TakeAdvances(orc, s, g, f, c);
        case _ => g' := RunningAdvances(orc, s, g, f, t);
      }
  }

  lemma RunningAdvances(orc: Oracle, s: State, g: seq<Spec>, f: Id, t: Timing) returns (g': seq<Spec>)
    requires OnTop(orc, s, g, f) && s.heap[f].frame.phase.Running? && Enabled(s, Run(t)) && !DestroysUnfinished(s)
    ensures Advances(orc, s, g, RunTop(orc, s, t), g')
  {
    g' := g;
    match s.heap[f].frame.pc
    case Return(v) => ReturnAdvances(orc, s, g, f, v);
    case Throw(code) => ThrowAdvances(orc, s, g, f, code);
    case Start(child, next) => g' := StartAdvances(orc, s, g, f, child, next);
    case Move(i, next) => g' := MoveAdvances(orc, s, g, f, i, next);
    case Detach(i, next) => g' := DetachAdvances(orc, s, g, f, i, next);
    case Drop(i, next) => g' := DropAdvances(orc, s, g, f, i, next);
    case AwaitTask(i, k) =>
      assert SlotOk(s, g, f, i);
      var c := s.heap[f].frame.slots[i].task.h.value;
      if s.heap[c].frame.phase.Final? {
        g' := TakeAdvances(orc, s, g, f, c);
      } else {
        AwaitSuspends(orc, s, g, f, i, k);
      }
    case AwaitOp(op, k) =>
      match t {
        case Immediate => ImmediateAdvances(orc, s, g, f, op, k);
        case Deferred(r) => g' := DeferredAdvances(orc, s, g, f, op, k, r);
      }
  }

  /** One step, whatever it is: correct and one less to go, or the end of the run in a destructor. */
  lemma StepOutcome(orc: Oracle, s: State, g: seq<Spec>, e: Event) returns (g': seq<Spec>)
    requires Inv(orc, s, g) && Enabled(s, e)
    ensures Step(orc, s, e).fault == if e.Run? && DestroysUnfinished(s) then Some(BlockedForever) else None
    ensures Step(orc, s, e).fault.None? ==> Advances(orc, s, g, Step(orc, s, e), g')
    ensures Measure(orc, s, g) >= 1
  {
    if e.Run? && DestroysUnfinished(s) {
      g' := g;
      var k := StepBlocks(orc, s, g, e.timing);
      BlockingWeighs(orc, s, g);
    } else {
      g' := StepAdvances(orc, s, g, e);
    }
  }

  /** The last step of the run destroys a task object that owns an unfinished coroutine. */
  predicate EndsInDestructor(orc: Oracle, s: State, es: seq<Event>) {
    es != [] && es[|es| - 1].Run? && DestroysUnfinished(Exec(orc, s, es[..|es| - 1]))
  }

  /** A run of several steps does not end with its first. */
  lemma {:induction false} EndsLater(orc: Oracle, s: State, es: seq<Event>)
    requires |es| > 1
    ensures EndsInDestructor(orc, s, es) <==> EndsInDestructor(orc, Step(orc, s, es[0]), es[1..])
  {
    assert es[..|es| - 1][1..] == es[1..][..|es| - 2];
  }

  lemma {:induction false} OneStep(orc: Oracle, s: State, e: Event)
    ensures Exec(orc, s, [e]) == Step(orc, s, e)
    ensures EndsInDestructor(orc, s, [e]) <==> e.Run? && DestroysUnfinished(s)
  {
    assert [e][1..] == [] && [e][..0] == [];
  }

  lemma {:induction false} RunKeeps(orc: Oracle, s: State, g: seq<Spec>, es: seq<Event>) returns (g': seq<Spec>)
    requires Inv(orc, s, g) && IsRun(orc, s, es)
    ensures |es| <= Measure(orc, s, g)
    ensures Exec(orc, s, es).fault == if EndsInDestructor(orc, s, es) then Some(BlockedForever) else None
    ensures Exec(orc, s, es).fault.None? ==>
              && Inv(orc, Exec(orc, s, es), g') && g'[0].outcome == g[0].outcome && (AllTidy(g) ==> AllTidy(g'))
    decreases |es|
  {
    g' := g;
    if es != [] {
      g' := StepOutcome(orc, s, g, es[0]);
      if |es| == 1 {
        assert es == [es[0]];
        OneStep(orc, s, es[0]);
      } else {
        EndsLater(orc, s, es);
        assert Enabled(Step(orc, s, es[0]), es[1..][0]);
        g' := RunKeeps(orc, Step(orc, s, es[0]), g', es[1..]);
      }
    }
  }

  ghost function InitialSpec(orc: Oracle, root: Body, o: Outcome): seq<Spec> {
    [Spec([], o, Outside, 0, Tidy(orc, root, []))]
  }

  lemma {:induction false} InitKeeps(orc: Oracle, root: Body, o: Outcome)
    requires Eval(orc, root, []) == Some(o)
    ensures Inv(orc, Init(root), InitialSpec(orc, root, o))
    ensures Measure(orc, Init(root), InitialSpec(orc, root, o)) == Cost(orc, root, [])
  {
    var s, g := Init(root), InitialSpec(orc, root, o);
    assert FrameOk(orc, s, g, 0);
    assert s.heap[..0] == [] && g[..0] == [] && Total(orc, s.heap[..0], g[..0]) == 0;
  }

  /** The states that a program within the client discipline can reach, with a witness for the invariant. */
  lemma Reachable(orc: Oracle, root: Body, o: Outcome, es: seq<Event>) returns (g: seq<Spec>)
    requires Eval(orc, root, []) == Some(o) && IsRun(orc, Init(root), es)
    ensures |es| <= Cost(orc, root, [])
    ensures Exec(orc, Init(root), es).fault == if EndsInDestructor(orc, Init(root), es) then Some(BlockedForever) else None
    ensures Exec(orc, Init(root), es).fault.None? ==>
              && Inv(orc, Exec(orc, Init(root), es), g) && g[0].owner == Outside && g[0].outcome == o
              && (Tidy(orc, root, []) ==> AllTidy(g))
  {
    InitKeeps(orc, root, o);
    g := RunKeeps(orc, Init(root), InitialSpec(orc, root, o), es);
    if Exec(orc, Init(root), es).fault.None? {
      assert FrameOk(orc, Exec(orc, Init(root), es), g, 0);
    }
  }

  // ------------------------------------------------------------------------------------------------
  // Await transparency

  /** No step is left to take: nothing runs and no request is in flight. */
  ghost predicate Quiescent(s: State) {
    forall e :: !Enabled(s, e)
  }

  lemma QuiescentIsIdle(orc: Oracle, s: State, g: seq<Spec>)
    requires Inv(orc, s, g) && Quiescent(s)
    ensures s.stack == [] && s.requests == map[]
  {
    if s.stack != [] {
      assert Enabled(s, Run(Immediate));
    } else if s.requests != map[] {
      var r :| r in s.requests;
      assert Enabled(s, Progress(r));
    }
  }

  /** With nothing running and nothing in flight, a waiting coroutine would wait for a younger one, and so on. */
  lemma {:induction false} IdleMeansDone(orc: Oracle, s: State, g: seq<Spec>, f: Id)
    requires Inv(orc, s, g) && s.stack == [] && s.requests == map[] && IsLive(s, f)
    ensures s.heap[f].frame.phase.Final?
    decreases |s.heap| - f
  {
    assert FrameOk(orc, s, g, f);
    if s.heap[f].frame.phase.WaitingTask? {
      assert SlotOk(s, g, f, s.heap[f].frame.pc.slot);
      IdleMeansDone(orc, s, g, s.heap[f].frame.phase.child);
    }
  }

  /**
    Whatever mix of immediate and deferred completions the environment chooses, and in whatever order
    it fires the callbacks: every run is finite, and nothing undefined happens. The thread is blocked
    for ever exactly if the last step destroys a task object that owns an unfinished coroutine.
    Otherwise the root's promise holds nothing but the outcome of direct-style evaluation, and a run
    that cannot go on has put that outcome there.
   */
  lemma {:induction false} AwaitTransparency(orc: Oracle, root: Body, o: Outcome, es: seq<Event>)
    requires Eval(orc, root, []) == Some(o) && IsRun(orc, Init(root), es)
    ensures var s := Exec(orc, Init(root), es);
            && |es| <= Cost(orc, root, [])
            && s.fault == (if EndsInDestructor(orc, Init(root), es) then Some(BlockedForever) else None)
            && (s.fault.None? ==>
                  && IsLive(s, 0)
                  && (s.heap[0].frame.promise.Some? ==> s.heap[0].frame.promise == Some(o))
                  && (Quiescent(s) ==> s.heap[0].frame.phase.Final? && s.heap[0].frame.promise == Some(o)))
  {
    var g := Reachable(orc, root, o, es);
    var s := Exec(orc, Init(root), es);
    if s.fault.None? {
      assert FrameOk(orc, s, g, 0);
      if Quiescent(s) {
        QuiescentIsIdle(orc, s, g);
        IdleMeansDone(orc, s, g, 0);
      }
    }
  }

  /** A program that destroys no task object before awaiting, detaching or moving it is never blocked. */
  lemma {:induction false} TidyNeverBlocks(orc: Oracle, root: Body, o: Outcome, es: seq<Event>)
    requires Eval(orc, root, []) == Some(o) && Tidy(orc, root, []) && IsRun(orc, Init(root), es)
    ensures Exec(orc, Init(root), es).fault.None?
  {
    if es != [] {
      var n := |es| - 1;
      RunSplits(orc, Init(root), es, n);
      var g := Reachable(orc, root, o, es[..n]);
      var g1 := Reachable(orc, root, o, es);
      TidyDestroysFinished(orc, Exec(orc, Init(root), es[..n]), g);
    }
  }

  /** A run up to some point is a run, and can go on there as it does. */
  lemma {:induction false} RunSplits(orc: Oracle, s: State, es: seq<Event>, n: nat)
    requires IsRun(orc, s, es) && n < |es|
    ensures IsRun(orc, s, es[..n]) && Enabled(Exec(orc, s, es[..n]), es[n])
    decreases n
  {
    if n > 0 {
      RunSplits(orc, Step(orc, s, es[0]), es[1..], n - 1);
      assert es[..n][1..] == es[1..][..n - 1];
    }
  }

  // ------------------------------------------------------------------------------------------------
  // Requests and the coroutines that wait for them

  /** Coroutine `f` is suspended on the operation of request `r`, and `r`'s callback will resume it. */
  ghost predicate WaitsFor(s: State, f: Id, r: nat) {
    && IsLive(s, f) && r in s.requests
    && s.heap[f].frame.phase.WaitingOp?
    && s.requests[r].userData == f
    && s.heap[f].frame.awaitable.h == Some(f)
    && s.heap[f].frame.awaitable.status == InProgress
    && s.heap[f].frame.pc.AwaitOp? && s.requests[r].op == s.heap[f].frame.pc.op
    && (s.heap[f].frame.awaitable.kind.SendLike? || s.heap[f].frame.awaitable.request == Some(r))
  }

  /** Requests in flight and suspended coroutines are in one-to-one correspondence, in every reachable state. */
  lemma {:induction false} RequestBijection(orc: Oracle, root: Body, o: Outcome, es: seq<Event>)
    requires Eval(orc, root, []) == Some(o) && IsRun(orc, Init(root), es)
    ensures var s := Exec(orc, Init(root), es);
            s.fault.None? ==>
              && (forall r :: r in s.requests ==> WaitsFor(s, s.requests[r].userData, r))
              && (forall f: Id :: IsLive(s, f) && s.heap[f].frame.phase.WaitingOp? ==> exists r: nat :: WaitsFor(s, f, r))
              && (forall f: Id, r: nat, q: nat :: WaitsFor(s, f, r) && WaitsFor(s, f, q) ==> r == q)
  {
    var g := Reachable(orc, root, o, es);
    var s := Exec(orc, Init(root), es);
    if s.fault.None? {
      RequestsMatch(orc, s, g);
    }
  }

  lemma RequestsMatch(orc: Oracle, s: State, g: seq<Spec>)
    requires Inv(orc, s, g)
    ensures forall r :: r in s.requests ==> WaitsFor(s, s.requests[r].userData, r)
    ensures forall f: Id :: IsLive(s, f) && s.heap[f].frame.phase.WaitingOp? ==> exists r: nat :: WaitsFor(s, f, r)
    ensures forall f: Id, r: nat, q: nat :: WaitsFor(s, f, r) && WaitsFor(s, f, q) ==> r == q
  {
    forall f: Id | IsLive(s, f) && s.heap[f].frame.phase.WaitingOp?
      ensures WaitsFor(s, f, g[f].request)
    {
      assert FrameOk(orc, s, g, f);
    }
    forall r | r in s.requests
      ensures WaitsFor(s, s.requests[r].userData, r)
    {
      assert FrameOk(orc, s, g, s.requests[r].userData);
    }
  }

  /**
    Whenever client code can call `cancel()` on a tag receive, the request it would cancel is in flight
    and is that receive's own: the awaitable names none before and after.
   */
  lemma {:induction false} CancelNamesOwnRequest(orc: Oracle, root: Body, o: Outcome, es: seq<Event>, f: Id)
    requires Eval(orc, root, []) == Some(o) && IsRun(orc, Init(root), es)
    requires var s := Exec(orc, Init(root), es);
             && IsLive(s, f) && !s.heap[f].frame.phase.ResumingOp?
             && s.heap[f].frame.awaitable.kind.TagRecv? && s.heap[f].frame.awaitable.request.Some?
    ensures var s := Exec(orc, Init(root), es);
            s.fault.None? ==> WaitsFor(s, f, s.heap[f].frame.awaitable.request.value)
  {
    var g := Reachable(orc, root, o, es);
    var s := Exec(orc, Init(root), es);
    if s.fault.None? {
      assert FrameOk(orc, s, g, f);
      RequestsMatch(orc, s, g);
    }
  }

  /**
    `await_resume` runs only on a status the callback has set: it throws the error of an operation that
    failed, and yields what a successful receive has reported.
   */
  lemma {:induction false} ResumedNeverInProgress(orc: Oracle, root: Body, o: Outcome, es: seq<Event>, f: Id)
    requires Eval(orc, root, []) == Some(o) && IsRun(orc, Init(root), es)
    requires var s := Exec(orc, Init(root), es); IsLive(s, f) && s.heap[f].frame.phase.ResumingOp?
    ensures var s := Exec(orc, Init(root), es);
            var fr := s.heap[f].frame;
            s.fault.None? ==>
              && fr.awaitable.status != InProgress && fr.pc.AwaitOp?
              && var c, result := orc(fr.pc.op), AwaitResume(fr.awaitable);
                 match c.error
                 case Some(code) => result == Threw(code)
                 case None =>
                   result.Returned?
                   && match fr.pc.op.kind
                      case SendLike => result.value == Unit
                      case StreamRecv => result.value.Count? && result.value.n == c.length && result.value.buffer == c.buffer
                      case TagRecv => result.value.Tagged? && result.value.length == c.length && result.value.tag == c.tag
  {
    var g := Reachable(orc, root, o, es);
    if Exec(orc, Init(root), es).fault.None? {
      assert FrameOk(orc, Exec(orc, Init(root), es), g, f);
    }
  }

  /** A callback resumes the coroutine that issued the request, and nothing else. */
  lemma {:induction false} CallbackResumesWaiter(orc: Oracle, root: Body, o: Outcome, es: seq<Event>, f: Id, r: nat)
    requires Eval(orc, root, []) == Some(o) && IsRun(orc, Init(root), es)
    requires WaitsFor(Exec(orc, Init(root), es), f, r) && Enabled(Exec(orc, Init(root), es), Progress(r))
    ensures var s := Exec(orc, Init(root), es);
            var s' := Step(orc, s, Progress(r));
            && s'.stack == [f] && s'.requests == s.requests - {r}
            && IsLive(s', f) && s'.heap == s.heap[f := s'.heap[f]]
            && s'.heap[f].frame.phase.ResumingOp?
            && AwaitResume(s'.heap[f].frame.awaitable) == Delivered(s.requests[r].op.kind, orc(s.requests[r].op))
  {
    var g := Reachable(orc, root, o, es);
    assert FrameOk(orc, Exec(orc, Init(root), es), g, f);
  }

  function Issues(s: State, e: Event, s': State, r: nat): nat {
    if e.Run? && r !in s.requests && r in s'.requests then 1 else 0
  }

  /** How often a run issues a request under the id `r`, and how often it completes one. */
  function Issued(orc: Oracle, s: State, es: seq<Event>, r: nat): nat
    decreases |es|
  {
    if es == [] then 0
    else Issues(s, es[0], Step(orc, s, es[0]), r) + Issued(orc, Step(orc, s, es[0]), es[1..], r)
  }

  function Completed(es: seq<Event>, r: nat): nat {
    if es == [] then 0 else (if es[0] == Progress(r) then 1 else 0) + Completed(es[1..], r)
  }

  lemma {:induction false} LocalsKeepRequests(s: State, slots: seq<Slot>)
    ensures DestroyLocals(s, slots).requests == s.requests
    decreases |slots|
  {
    if slots != [] {
      var last := slots[|slots| - 1];
      LocalsKeepRequests(if last.Holds? then TaskDestructor(s, last.task) else s, slots[..|slots| - 1]);
    }
  }

  /** The step of the top coroutine starts an operation that does not complete at once. */
  predicate Suspends(s: State, t: Timing) {
    && t.Deferred? && s.stack != [] && IsLive(s, s.stack[0])
    && s.heap[s.stack[0]].frame.phase.Running? && s.heap[s.stack[0]].frame.pc.AwaitOp?
  }

  lemma ScopeKeepsRequests(s: State, f: Id)
    ensures LeaveScope(s, f).requests == s.requests
  {
    if IsLive(s, f) {
      LocalsKeepRequests(Put(s, f, s.heap[f].frame.(slots := [])), s.heap[f].frame.slots);
    }
  }

  lemma FinishKeepsRequests(s: State, f: Id)
    ensures FinalSuspend(s, f).requests == s.requests && forall o :: SetPromise(s, f, o).requests == s.requests
  {
  }

  /** What a running coroutine does other than await an operation adds no request. */
  lemma RunningKeepsRequests(orc: Oracle, s: State, t: Timing)
    requires s.stack != [] && IsLive(s, s.stack[0]) && s.heap[s.stack[0]].frame.phase.Running?
    requires !s.heap[s.stack[0]].frame.pc.AwaitOp?
    ensures RunTop(orc, s, t).requests == s.requests
  {
    var f := s.stack[0];
    match s.heap[f].frame.pc
    case Return(v) =>
      var s1 := SetPromise(s, f, Returned(v));
      FinishKeepsRequests(s, f);
      ScopeKeepsRequests(s1, f);
      FinishKeepsRequests(LeaveScope(s1, f), f);
    case Throw(code) =>
      var s1 := LeaveScope(s, f);
      ScopeKeepsRequests(s, f);
      FinishKeepsRequests(s1, f);
      FinishKeepsRequests(SetPromise(s1, f, Threw(code)), f);
    case _ =>
  }

  /** Only an operation that suspends its coroutine adds a request. */
  lemma RunRequests(orc: Oracle, s: State, t: Timing)
    requires Enabled(s, Run(t))
    ensures RunTop(orc, s, t).requests ==
            if Suspends(s, t) then s.requests[t.request := Request(s.stack[0], s.heap[s.stack[0]].frame.pc.op)]
            else s.requests
  {
    var f := s.stack[0];
    if IsLive(s, f) && s.heap[f].frame.phase.Running? && !s.heap[f].frame.pc.AwaitOp? {
      RunningKeepsRequests(orc, s, t);
    }
  }

  /** A callback completes its request. */
  lemma CallbackRequests(orc: Oracle, s: State, g: seq<Spec>, r: nat)
    requires Inv(orc, s, g) && r in s.requests
    ensures Step(orc, s, Progress(r)).requests == s.requests - {r}
  {
    assert FrameOk(orc, s, g, s.requests[r].userData);
  }

  /** Requests balance over every run, the last step of a blocked one included. */
  lemma {:induction false} RequestAccounting(orc: Oracle, s: State, g: seq<Spec>, es: seq<Event>, r: nat)
    requires Inv(orc, s, g) && IsRun(orc, s, es)
    ensures Issued(orc, s, es, r) + (if r in s.requests then 1 else 0)
         == Completed(es, r) + (if r in Exec(orc, s, es).requests then 1 else 0)
    decreases |es|
  {
    if es == [] {
    } else {
      var s1 := Step(orc, s, es[0]);
      var g1 := StepOutcome(orc, s, g, es[0]);
      match es[0] {
        case Run(t) => RunRequests(orc, s, t);
        case Progress(q) => CallbackRequests(orc, s, g, q);
      }
      if es[1..] != [] {
        assert Enabled(s1, es[1..][0]);
        RequestAccounting(orc, s1, g1, es[1..], r);
      }
    }
  }

  /** Every request issued is completed and freed once: never twice, and not at all only while it is in flight. */
  lemma {:induction false} EachRequestCompletesOnce(orc: Oracle, root: Body, o: Outcome, es: seq<Event>, r: nat)
    requires Eval(orc, root, []) == Some(o) && IsRun(orc, Init(root), es)
    ensures var s := Exec(orc, Init(root), es);
            && Issued(orc, Init(root), es, r) == Completed(es, r) + (if r in s.requests then 1 else 0)
            && (s.fault.None? && Quiescent(s) ==> Issued(orc, Init(root), es, r) == Completed(es, r))
  {
    InitKeeps(orc, root, o);
    RequestAccounting(orc, Init(root), InitialSpec(orc, root, o), es, r);
    var s := Exec(orc, Init(root), es);
    if s.fault.None? && Quiescent(s) {
      var g := Reachable(orc, root, o, es);
      QuiescentIsIdle(orc, s, g);
    }
  }
}
