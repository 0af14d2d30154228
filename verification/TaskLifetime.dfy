/** When frames are destroyed: once each, except those that were detached after they had finished. */
module TaskLifetime {
  import opened Prelude
  import opened Coroutine
  import opened TaskMachine
  import opened TaskInvariant
  import opened TaskSteps
  import opened TaskFinish
  import opened TaskTheorems

  /** Finished, detached, and therefore never to be destroyed. */
  ghost predicate Leaked(s: State, c: Id) {
    IsLive(s, c) && s.heap[c].frame.phase.Final? && s.heap[c].frame.releaseDetached.Some?
  }

  /** The step is `detach` on a task object whose coroutine `c` has already finished. */
  ghost predicate DetachesFinished(s: State, e: Event, c: Id) {
    && e.Run? && s.stack != [] && IsLive(s, s.stack[0]) && IsLive(s, c)
    && var fr := s.heap[s.stack[0]].frame;
       && fr.phase.Running? && fr.pc.Detach? && OwnsAt(s, s.stack[0], fr.pc.slot, c)
       && s.heap[c].frame.phase.Final?
  }

  ghost predicate FreedCell(s: State, c: Id) {
    c < |s.heap| && s.heap[c].Freed?
  }

  /** A coroutine that finishes is not leaked: a detached one is destroyed at once. */
  lemma FinishLeaksSelf(orc: Oracle, s: State, g: seq<Spec>, f: Id, s2: State)
    requires OnTop(orc, s, g, f) && s.heap[f].frame.phase.Running? && AllDone(s, f)
    requires Departed(s, f, g[f].outcome, s2)
    ensures !Leaked(FinalSuspend(s2, f), f)
  {
    if s.heap[f].frame.continuation.Some? {
      FinishKeepsActors(orc, s, g, f, s2);
    }
  }

  lemma FinishLeaksOther(orc: Oracle, s: State, g: seq<Spec>, f: Id, s2: State, c: Id)
    requires OnTop(orc, s, g, f) && s.heap[f].frame.phase.Running? && AllDone(s, f)
    requires Departed(s, f, g[f].outcome, s2) && c != f && !Owned(s.heap[f].frame.slots, c)
    ensures Leaked(FinalSuspend(s2, f), c) <==> Leaked(s, c)
    ensures FreedCell(s, c) ==> FreedCell(FinalSuspend(s2, f), c)
  {
    FinishKeepsActors(orc, s, g, f, s2);
  }

  lemma FinishLeaks(orc: Oracle, s: State, g: seq<Spec>, f: Id, s2: State, c: Id)
    requires OnTop(orc, s, g, f) && s.heap[f].frame.phase.Running? && AllDone(s, f)
    requires Departed(s, f, g[f].outcome, s2)
    ensures Leaked(FinalSuspend(s2, f), c) <==> Leaked(s, c)
    ensures FreedCell(s, c) ==> FreedCell(FinalSuspend(s2, f), c)
  {
    LocalsLeavable(orc, s, g, f);
    if c == f {
      FinishLeaksSelf(orc, s, g, f, s2);
    } else if Owned(s.heap[f].frame.slots, c) {
      FinishFreesLocal(orc, s, g, f, s2, c);
      assert FrameOk(orc, s, g, c);
    } else {
      FinishLeaksOther(orc, s, g, f, s2, c);
    }
  }

  lemma DropLeaks(orc: Oracle, s: State, g: seq<Spec>, f: Id, t: Timing, c: Id)
    requires OnTop(orc, s, g, f) && s.heap[f].frame.phase.Running? && Enabled(s, Run(t))
    requires s.heap[f].frame.pc.Drop? && !DestroysUnfinished(s)
    ensures Leaked(RunTop(orc, s, t), c) <==> Leaked(s, c)
    ensures FreedCell(s, c) ==> FreedCell(RunTop(orc, s, t), c)
  {
    if IsLive(s, c) {
      assert FrameOk(orc, s, g, c);
    }
    assert SlotOk(s, g, f, s.heap[f].frame.pc.slot);
  }

  lemma DetachLeaks(orc: Oracle, s: State, g: seq<Spec>, f: Id, t: Timing, c: Id)
    requires OnTop(orc, s, g, f) && s.heap[f].frame.phase.Running? && Enabled(s, Run(t))
    requires s.heap[f].frame.pc.Detach?
    ensures Leaked(RunTop(orc, s, t), c) <==> Leaked(s, c) || DetachesFinished(s, Run(t), c)
    ensures FreedCell(s, c) ==> FreedCell(RunTop(orc, s, t), c)
  {
    assert SlotOk(s, g, f, s.heap[f].frame.pc.slot);
  }

  lemma AwaitLeaks(orc: Oracle, s: State, g: seq<Spec>, f: Id, t: Timing, c: Id)
    requires OnTop(orc, s, g, f) && s.heap[f].frame.phase.Running? && Enabled(s, Run(t))
    requires s.heap[f].frame.pc.AwaitTask?
    ensures Leaked(RunTop(orc, s, t), c) <==> Leaked(s, c)
    ensures FreedCell(s, c) ==> FreedCell(RunTop(orc, s, t), c)
  {
  }

  lemma RunningLeaks(orc: Oracle, s: State, g: seq<Spec>, f: Id, t: Timing, c: Id)
    requires OnTop(orc, s, g, f) && s.heap[f].frame.phase.Running? && Enabled(s, Run(t))
    requires s.heap[f].frame.pc.Start? || s.heap[f].frame.pc.Move? || s.heap[f].frame.pc.AwaitOp?
    ensures Leaked(RunTop(orc, s, t), c) <==> Leaked(s, c)
    ensures FreedCell(s, c) ==> FreedCell(RunTop(orc, s, t), c)
  {
  }

  /** A frame comes to be leaked by being detached after it finished, and in no other way; freed frames stay freed. */
  lemma StepLeaks(orc: Oracle, s: State, g: seq<Spec>, e: Event, c: Id)
    requires Inv(orc, s, g) && Enabled(s, e) && !(e.Run? && DestroysUnfinished(s))
    ensures Leaked(Step(orc, s, e), c) <==> Leaked(s, c) || DetachesFinished(s, e, c)
    ensures FreedCell(s, c) ==> FreedCell(Step(orc, s, e), c)
  {
    match e
    case Progress(r) =>
      assert FrameOk(orc, s, g, s.requests[r].userData);
    case Run(t) =>
      TopIsOnTop(orc, s, g);
      var f := s.stack[0];
      var fr := s.heap[f].frame;
      if fr.phase.Running? {
        match fr.pc {
          case Return(v) =>
            ReturnDeparts(orc, s, g, f, v);
            FinishLeaks(orc, s, g, f, LeaveScope(SetPromise(s, f, Returned(v)), f), c);
          case Throw(code) =>
            ThrowDeparts(orc, s, g, f, code);
            FinishLeaks(orc, s, g, f, SetPromise(LeaveScope(s, f), f, Threw(code)), c);
          case Detach(_, _) => DetachLeaks(orc, s, g, f, t, c);
          case Drop(_, _) => DropLeaks(orc, s, g, f, t, c);
          case AwaitTask(_, _) => AwaitLeaks(orc, s, g, f, t, c);
          case _ => RunningLeaks(orc, s, g, f, t, c);
        }
      }
  }

  /** Some step of the run detaches `c` after it has finished. */
  ghost predicate DetachedFinished(orc: Oracle, s: State, es: seq<Event>, c: Id)
    decreases |es|
  {
    es != [] && (DetachesFinished(s, es[0], c) || DetachedFinished(orc, Step(orc, s, es[0]), es[1..], c))
  }

  /** How many steps of the run destroy the frame `c`. */
  ghost function Destructions(orc: Oracle, s: State, es: seq<Event>, c: Id): nat
    decreases |es|
  {
    if es == [] then 0
    else
      var s1 := Step(orc, s, es[0]);
      (if !FreedCell(s, c) && FreedCell(s1, c) then 1 else 0) + Destructions(orc, s1, es[1..], c)
  }

  lemma {:induction false} LifetimeAccounting(orc: Oracle, s: State, g: seq<Spec>, es: seq<Event>, c: Id)
    requires Inv(orc, s, g) && IsRun(orc, s, es)
    ensures var s' := Exec(orc, s, es);
            s'.fault.None? ==>
              && (Leaked(s', c) <==> Leaked(s, c) || DetachedFinished(orc, s, es, c))
              && (if FreedCell(s, c) then 1 else 0) + Destructions(orc, s, es, c) == (if FreedCell(s', c) then 1 else 0)
    decreases |es|
  {
    if es != [] {
      var s1 := Step(orc, s, es[0]);
      var g1 := StepOutcome(orc, s, g, es[0]);
      if s1.fault.None? {
        StepLeaks(orc, s, g, es[0], c);
        LifetimeAccounting(orc, s1, g1, es[1..], c);
      }
    }
  }

  /**
    Frame lifetime, in every run that does not end in a blocked destructor. No frame is destroyed
    twice. When a program has come to rest, every frame but the root's, which its caller keeps, has
    been destroyed exactly once, unless it was detached after it had finished: such a frame is never
    destroyed.
   */
  lemma {:induction false} FramesDestroyedOnce(orc: Oracle, root: Body, o: Outcome, es: seq<Event>, c: Id)
    requires Eval(orc, root, []) == Some(o) && IsRun(orc, Init(root), es)
    ensures var s := Exec(orc, Init(root), es);
            s.fault.None? ==>
              && Destructions(orc, Init(root), es, c) == (if FreedCell(s, c) then 1 else 0)
              && (Quiescent(s) && 0 < c < |s.heap| ==>
                    Destructions(orc, Init(root), es, c) == if DetachedFinished(orc, Init(root), es, c) then 0 else 1)
  {
    InitKeeps(orc, root, o);
    LifetimeAccounting(orc, Init(root), InitialSpec(orc, root, o), es, c);
    var s := Exec(orc, Init(root), es);
    if s.fault.None? && Quiescent(s) && 0 < c < |s.heap| && IsLive(s, c) {
      var g := Reachable(orc, root, o, es);
      AtRest(orc, s, g, c);
    }
  }

  /** A frame that is alive at rest, other than the root's, is leaked. */
  lemma AtRest(orc: Oracle, s: State, g: seq<Spec>, c: Id)
    requires Inv(orc, s, g) && Quiescent(s) && c > 0 && IsLive(s, c)
    ensures Leaked(s, c)
  {
    QuiescentIsIdle(orc, s, g);
    IdleMeansDone(orc, s, g, c);
    assert FrameOk(orc, s, g, c);
    if g[c].owner.Parent? {
      IdleMeansDone(orc, s, g, g[c].owner.frame);
    }
  }
}
