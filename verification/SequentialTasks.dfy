/**
  Programs in which every task is awaited as soon as it is started, as `co_await f(...)` does. At any
  time at most one coroutine of such a program is not waiting for another one, so at most one
  operation is in flight.
 */
module SequentialTasks {
  import opened Prelude
  import opened Coroutine
  import opened TaskMachine
  import opened TaskInvariant
  import opened TaskSteps
  import opened TaskFinish
  import opened TaskTheorems

  /** The body of a coroutine with `n` locals so far: each task goes to a new local and is awaited there. */
  ghost predicate Sequential(b: Body, n: nat)
    decreases b
  {
    match b
    case Return(_) => true
    case Throw(_) => true
    case Start(child, next) =>
      && Sequential(child, 0)
      && next.AwaitTask? && next.slot == n
      && forall o :: o in next.k ==> Sequential(next.k[o], n + 1)
    case Drop(_, next) => Sequential(next, n)
    case AwaitOp(_, k) => forall o :: o in k ==> Sequential(k[o], n)
    case AwaitTask(_, _) => false
    case Move(_, _) => false
    case Detach(_, _) => false
  }

  /** Where a coroutine of a sequential program can be: at a body, or about to await the task just started. */
  ghost predicate SequentialAt(b: Body, n: nat) {
    if b.AwaitTask? then b.slot + 1 == n && forall o :: o in b.k ==> Sequential(b.k[o], n) else Sequential(b, n)
  }

  predicate Unfinished(s: State, f: Id) {
    IsLive(s, f) && !s.heap[f].frame.phase.Final?
  }

  /** `x` cannot go on: the task it awaits is not finished, and is no younger than `y`. */
  predicate Blocked(s: State, x: Id, y: Id) {
    && Unfinished(s, x)
    && var fr := s.heap[x].frame;
       && fr.pc.AwaitTask? && fr.pc.slot < |fr.slots| && fr.slots[fr.pc.slot].Holds?
       && fr.slots[fr.pc.slot].task.h.Some?
       && var c := fr.slots[fr.pc.slot].task.h.value;
          x < c <= y && Unfinished(s, c)
  }

  /** Of the unfinished coroutines, all but the youngest are blocked. */
  ghost predicate Chain(s: State) {
    && (forall f: Id :: Unfinished(s, f) ==> SequentialAt(s.heap[f].frame.pc, |s.heap[f].frame.slots|))
    && (forall x: Id, y: Id :: x < y && Unfinished(s, x) && Unfinished(s, y) ==> Blocked(s, x, y))
  }

  /** A coroutine at the same place as before, or finished before and after. */
  ghost predicate StaysPut(s: State, s': State, x: Id) {
    && (Unfinished(s', x) <==> Unfinished(s, x))
    && (Unfinished(s, x) ==>
          s'.heap[x].frame.pc == s.heap[x].frame.pc && s'.heap[x].frame.slots == s.heap[x].frame.slots)
  }

  /** A step that moves only the youngest unfinished coroutine. */
  lemma YoungestMoves(s: State, s': State, f: Id)
    requires Chain(s) && |s'.heap| == |s.heap| && Unfinished(s, f)
    requires forall y: Id :: y > f ==> !Unfinished(s, y)
    requires forall x: Id :: x != f ==> StaysPut(s, s', x)
    requires Unfinished(s', f) ==> SequentialAt(s'.heap[f].frame.pc, |s'.heap[f].frame.slots|)
    ensures Chain(s')
  {
    forall x: Id, y: Id | x < y && Unfinished(s', x) && Unfinished(s', y)
      ensures Blocked(s', x, y)
    {
      assert y != f ==> StaysPut(s, s', y);
      assert Unfinished(s, y) && x != f && StaysPut(s, s', x) && Blocked(s, x, y);
      var c := s.heap[x].frame.slots[s.heap[x].frame.pc.slot].task.h.value;
      assert c != f ==> StaysPut(s, s', c);
    }
    forall x: Id | Unfinished(s', x)
      ensures SequentialAt(s'.heap[x].frame.pc, |s'.heap[x].frame.slots|)
    {
      assert x != f ==> StaysPut(s, s', x);
    }
  }

  /** A step that moves no coroutine. */
  lemma NobodyMoves(s: State, s': State)
    requires Chain(s) && |s'.heap| == |s.heap| && forall x: Id :: StaysPut(s, s', x)
    ensures Chain(s')
  {
    forall x: Id, y: Id | x < y && Unfinished(s', x) && Unfinished(s', y)
      ensures Blocked(s', x, y)
    {
      assert StaysPut(s, s', x) && StaysPut(s, s', y) && Blocked(s, x, y);
      assert StaysPut(s, s', s.heap[x].frame.slots[s.heap[x].frame.pc.slot].task.h.value);
    }
    forall x: Id | Unfinished(s', x)
      ensures SequentialAt(s'.heap[x].frame.pc, |s'.heap[x].frame.slots|)
    {
      assert StaysPut(s, s', x);
    }
  }

  /** What follows an operation. */
  lemma ContinueIsSequential(op: Op, k: imap<Outcome, Body>, o: Outcome, n: nat)
    requires SequentialAt(AwaitOp(op, k), n)
    ensures SequentialAt(Continue(k, o), n)
  {
    assert Sequential(AwaitOp(op, k), n);
    if o in k {
      assert Sequential(k[o], n) && !k[o].AwaitTask?;
    }
  }

  lemma StartIsSequential(child: Body, next: Body, n: nat)
    requires SequentialAt(Start(child, next), n)
    ensures SequentialAt(child, 0) && SequentialAt(next, n + 1)
  {
    assert Sequential(Start(child, next), n);
    assert Sequential(child, 0) && next.AwaitTask? && next.slot == n;
  }

  /** A coroutine that starts a child awaits it next. */
  lemma StartKeepsChain(orc: Oracle, s: State, f: Id, child: Body, next: Body)
    requires Chain(s) && Unfinished(s, f) && s.heap[f].frame.pc == Start(child, next)
    ensures Chain(StartTask(s, f, child, next))
  {
    var s' := StartTask(s, f, child, next);
    var c := |s.heap|;
    StartIsSequential(child, next, |s.heap[f].frame.slots|);
    forall x: Id | Unfinished(s', x)
      ensures SequentialAt(s'.heap[x].frame.pc, |s'.heap[x].frame.slots|)
    {
      if x != f && x != c {
        assert Unfinished(s, x);
      }
    }
    forall x: Id, y: Id | x < y && Unfinished(s', x) && Unfinished(s', y)
      ensures Blocked(s', x, y)
    {
      assert x != c && Unfinished(s, x) && (y != c ==> Unfinished(s, y));
      assert y != c ==> Blocked(s, x, y);
      assert x > f ==> Blocked(s, f, x);
      assert x < f ==> Blocked(s, x, f);
    }
  }

  // --- Every step ---------------------------------------------------------------------------------

  /** A coroutine about to do anything but await a task is the youngest unfinished one. */
  lemma MoverIsYoungest(s: State, f: Id, y: Id)
    requires Chain(s) && Unfinished(s, f) && !s.heap[f].frame.pc.AwaitTask? && y > f
    ensures !Unfinished(s, y)
  {
    assert Unfinished(s, y) ==> Blocked(s, f, y);
  }

  /** So is one whose task is finished. */
  lemma TakerIsYoungest(s: State, f: Id, c: Id, y: Id)
    requires Chain(s) && Unfinished(s, f) && s.heap[f].frame.pc.AwaitTask? && y > f
    requires OwnsAt(s, f, s.heap[f].frame.pc.slot, c) && !Unfinished(s, c)
    ensures !Unfinished(s, y)
  {
    assert Unfinished(s, y) ==> Blocked(s, f, y);
  }

  lemma FinishKeepsChain(orc: Oracle, s: State, g: seq<Spec>, f: Id, s2: State)
    requires OnTop(orc, s, g, f) && s.heap[f].frame.phase.Running? && AllDone(s, f) && Chain(s)
    requires !s.heap[f].frame.pc.AwaitTask? && Departed(s, f, g[f].outcome, s2)
    ensures Chain(FinalSuspend(s2, f))
  {
    forall y: Id | y > f
      ensures !Unfinished(s, y)
    {
      MoverIsYoungest(s, f, y);
    }
    FinishedAlone(orc, s, g, f, s2);
    YoungestMoves(s, FinalSuspend(s2, f), f);
  }

  /** When a coroutine finishes, the others stay where they are. */
  lemma FinishedAlone(orc: Oracle, s: State, g: seq<Spec>, f: Id, s2: State)
    requires OnTop(orc, s, g, f) && s.heap[f].frame.phase.Running? && AllDone(s, f)
    requires Departed(s, f, g[f].outcome, s2)
    ensures |FinalSuspend(s2, f).heap| == |s.heap| && !Unfinished(FinalSuspend(s2, f), f)
    ensures forall x: Id :: x != f ==> StaysPut(s, FinalSuspend(s2, f), x)
  {
    FinishKeepsActors(orc, s, g, f, s2);
    forall x: Id | x != f
      ensures StaysPut(s, FinalSuspend(s2, f), x)
    {
      OtherStaysPut(orc, s, g, f, s2, x);
    }
  }

  lemma OtherStaysPut(orc: Oracle, s: State, g: seq<Spec>, f: Id, s2: State, x: Id)
    requires OnTop(orc, s, g, f) && s.heap[f].frame.phase.Running? && AllDone(s, f)
    requires Departed(s, f, g[f].outcome, s2) && x != f
    ensures StaysPut(s, FinalSuspend(s2, f), x)
  {
    LocalsLeavable(orc, s, g, f);
    if Owned(s.heap[f].frame.slots, x) {
      FinishFreesLocal(orc, s, g, f, s2, x);
    } else {
      FinishKeepsActors(orc, s, g, f, s2);
    }
  }

  lemma TakeKeepsChain(orc: Oracle, s: State, g: seq<Spec>, f: Id, c: Id)
    requires OnTop(orc, s, g, f) && s.heap[f].frame.pc.AwaitTask? && Chain(s) && Unfinished(s, f)
    requires s.heap[f].frame.phase in {Running, ResumingTask(c)}
    requires AwaitsTask(s, g, f, c) && s.heap[c].frame.phase.Final?
    ensures Chain(TakeResult(s, f, c, s.heap[f].frame.pc.k))
  {
    var fr := s.heap[f].frame;
    TakeKeepsBoth(orc, s, g, f, c);
    forall y: Id | y > f
      ensures !Unfinished(s, y)
    {
      TakerIsYoungest(s, f, c, y);
    }
    assert SequentialAt(fr.pc, |fr.slots|);
    YoungestMoves(s, TakeResult(s, f, c, fr.pc.k), f);
  }

  /** A coroutine about to do anything but await a task owns no unfinished one. */
  lemma OwnedAreDone(orc: Oracle, s: State, g: seq<Spec>, f: Id)
    requires OnTop(orc, s, g, f) && s.heap[f].frame.phase.Running? && !s.heap[f].frame.pc.AwaitTask? && Chain(s)
    ensures AllDone(s, f)
  {
    forall i: nat | i < |s.heap[f].frame.slots|
      ensures !OwnsUnfinished(s, f, i)
    {
      assert SlotOk(s, g, f, i);
      if OwnsUnfinished(s, f, i) {
        MoverIsYoungest(s, f, s.heap[f].frame.slots[i].task.h.value);
      }
    }
  }

  /** So a sequential program is never blocked in a destructor. */
  lemma SequentialDestroysFinished(orc: Oracle, s: State, g: seq<Spec>)
    requires Inv(orc, s, g) && Chain(s)
    ensures !DestroysUnfinished(s)
  {
    if s.stack != [] {
      TopIsOnTop(orc, s, g);
      if s.heap[s.stack[0]].frame.phase.Running? && !s.heap[s.stack[0]].frame.pc.AwaitTask? {
        OwnedAreDone(orc, s, g, s.stack[0]);
      }
    }
  }

  lemma RunningKeepsChain(orc: Oracle, s: State, g: seq<Spec>, f: Id, t: Timing)
    requires OnTop(orc, s, g, f) && s.heap[f].frame.phase.Running? && Chain(s) && Enabled(s, Run(t))
    ensures Chain(RunTop(orc, s, t))
  {
    var fr := s.heap[f].frame;
    assert SequentialAt(fr.pc, |fr.slots|);
    if !fr.pc.AwaitTask? {
      OwnedAreDone(orc, s, g, f);
    }
    match fr.pc
    case Return(v) =>
      ReturnDeparts(orc, s, g, f, v);
      FinishKeepsChain(orc, s, g, f, LeaveScope(SetPromise(s, f, Returned(v)), f));
    case Throw(code) =>
      ThrowDeparts(orc, s, g, f, code);
      FinishKeepsChain(orc, s, g, f, SetPromise(LeaveScope(s, f), f, Threw(code)));
    case Start(child, next) => StartKeepsChain(orc, s, f, child, next);
    case Drop(i, next) => DropKeepsChain(orc, s, g, f, i, next);
    case AwaitTask(i, k) =>
      assert SlotOk(s, g, f, i);
      var c := fr.slots[i].task.h.value;
      if s.heap[c].frame.phase.Final? {
        TakeKeepsChain(orc, s, g, f, c);
      } else {
        NobodyMoves(s, AwaitChild(s, f, i, k));
      }
    case AwaitOp(op, k) => OperationKeepsChain(orc, s, g, f, op, k, t);
    case Move(_, _) =>
    case Detach(_, _) =>
  }

  lemma DropKeepsChain(orc: Oracle, s: State, g: seq<Spec>, f: Id, i: nat, next: Body)
    requires OnTop(orc, s, g, f) && s.heap[f].frame.phase.Running? && s.heap[f].frame.pc == Drop(i, next) && Chain(s)
    requires AllDone(s, f)
    ensures Chain(DropTask(s, f, i, next))
  {
    assert SlotOk(s, g, f, i);
    assert Sequential(s.heap[f].frame.pc, |s.heap[f].frame.slots|);
    if g[f].env[i].Pending? || g[f].env[i].Consumed? {
      DropFreesChild(orc, s, g, f, i, next);
    }
    forall y: Id | y > f
      ensures !Unfinished(s, y)
    {
      MoverIsYoungest(s, f, y);
    }
    DropMoves(s, DropTask(s, f, i, next), f, next);
  }

  lemma {:induction false} DropMoves(s: State, s': State, f: Id, next: Body)
    requires Chain(s) && |s'.heap| == |s.heap| && Unfinished(s, f)
    requires forall y: Id :: y > f ==> !Unfinished(s, y)
    requires forall x: Id :: x != f ==> StaysPut(s, s', x)
    requires IsLive(s', f) && s'.heap[f].frame.pc == next && |s'.heap[f].frame.slots| == |s.heap[f].frame.slots|
    requires Sequential(next, |s.heap[f].frame.slots|)
    ensures Chain(s')
  {
    YoungestMoves(s, s', f);
  }

  lemma OperationKeepsChain(orc: Oracle, s: State, g: seq<Spec>, f: Id, op: Op,
                                               k: imap<Outcome, Body>, t: Timing)
    requires OnTop(orc, s, g, f) && s.heap[f].frame.phase.Running? && s.heap[f].frame.pc == AwaitOp(op, k) && Chain(s)
    ensures Chain(AwaitOperation(orc, s, f, op, k, t))
  {
    assert SequentialAt(s.heap[f].frame.pc, |s.heap[f].frame.slots|);
    forall y: Id | y > f
      ensures !Unfinished(s, y)
    {
      MoverIsYoungest(s, f, y);
    }
    forall o
      ensures SequentialAt(Continue(k, o), |s.heap[f].frame.slots|)
    {
      ContinueIsSequential(op, k, o, |s.heap[f].frame.slots|);
    }
    YoungestMoves(s, AwaitOperation(orc, s, f, op, k, t), f);
  }

  lemma ResumeKeepsChain(orc: Oracle, s: State, g: seq<Spec>, f: Id)
    requires OnTop(orc, s, g, f) && s.heap[f].frame.phase.ResumingOp? && Chain(s)
    ensures Chain(ResumeOperation(s, f))
  {
    assert SequentialAt(s.heap[f].frame.pc, |s.heap[f].frame.slots|);
    forall y: Id | y > f
      ensures !Unfinished(s, y)
    {
      MoverIsYoungest(s, f, y);
    }
    ContinueIsSequential(s.heap[f].frame.pc.op, s.heap[f].frame.pc.k, AwaitResume(s.heap[f].frame.awaitable), |s.heap[f].frame.slots|);
    YoungestMoves(s, ResumeOperation(s, f), f);
  }

  /** Every step of a sequential program leaves at most one coroutine that is not blocked. */
  lemma StepKeepsChain(orc: Oracle, s: State, g: seq<Spec>, e: Event)
    requires Inv(orc, s, g) && Enabled(s, e) && Chain(s)
    ensures Chain(Step(orc, s, e))
  {
    match e
    case Progress(r) =>
      CallbackResumes(orc, s, g, r);
      NobodyMoves(s, Step(orc, s, e));
    case Run(t) =>
      TopIsOnTop(orc, s, g);
      var f := s.stack[0];
      match s.heap[f].frame.phase {
        case ResumingOp => ResumeKeepsChain(orc, s, g, f);
        case ResumingTask(c) => TakeKeepsChain(orc, s, g, f, c);
        case _ => RunningKeepsChain(orc, s, g, f, t);
      }
  }

  /** Two operations are never in flight together, nor one while another is being issued. */
  lemma OneAtATime(orc: Oracle, s: State, g: seq<Spec>, r: nat, f: Id)
    requires Inv(orc, s, g) && Chain(s) && r in s.requests
    requires Unfinished(s, f) && s.heap[f].frame.pc.AwaitOp?
    ensures s.requests[r].userData == f
  {
    var x := s.requests[r].userData;
    assert FrameOk(orc, s, g, x);
    assert x < f ==> Blocked(s, x, f);
    assert f < x ==> Blocked(s, f, x);
  }

  lemma {:induction false} ChainOverRun(orc: Oracle, s: State, g: seq<Spec>, es: seq<Event>)
    requires Inv(orc, s, g) && Chain(s) && IsRun(orc, s, es)
    ensures Chain(Exec(orc, s, es)) && Exec(orc, s, es).fault.None?
    decreases |es|
  {
    if es != [] {
      StepKeepsChain(orc, s, g, es[0]);
      SequentialDestroysFinished(orc, s, g);
      var g1 := StepAdvances(orc, s, g, es[0]);
      ChainOverRun(orc, Step(orc, s, es[0]), g1, es[1..]);
    }
  }

  /** In a run of a sequential program nothing goes wrong, and one coroutine at most is not blocked. */
  lemma {:induction false} SequentialRuns(orc: Oracle, root: Body, o: Outcome, es: seq<Event>)
    requires Eval(orc, root, []) == Some(o) && Sequential(root, 0) && IsRun(orc, Init(root), es)
    ensures Exec(orc, Init(root), es).fault.None? && Chain(Exec(orc, Init(root), es))
  {
    InitKeeps(orc, root, o);
    ChainOverRun(orc, Init(root), InitialSpec(orc, root, o), es);
  }

  /** In a sequential program, an operation is only ever issued when no other one is in flight. */
  lemma {:induction false} IssuesAlone(orc: Oracle, root: Body, o: Outcome, es: seq<Event>, f: Id)
    requires Eval(orc, root, []) == Some(o) && Sequential(root, 0) && IsRun(orc, Init(root), es)
    requires var s := Exec(orc, Init(root), es);
             IsLive(s, f) && s.heap[f].frame.phase.Running? && s.heap[f].frame.pc.AwaitOp?
    ensures Exec(orc, Init(root), es).requests == map[]
  {
    SequentialRuns(orc, root, o, es);
    var g := Reachable(orc, root, o, es);
    var s := Exec(orc, Init(root), es);
    forall r | r in s.requests
      ensures false
    {
      OneAtATime(orc, s, g, r, f);
    }
  }
}
