/** The last step of a coroutine: its promise, its locals and its final suspension. */
module TaskFinish {
  import opened Prelude
  import opened Coroutine
  import opened TaskMachine
  import opened TaskInvariant
  import opened TaskSteps

  ghost predicate Owned(slots: seq<Slot>, c: Id) {
    Holds(TaskObject(Some(c), false)) in slots
  }

  /** Scopes that can be left without blocking: every task object still owned is done. */
  ghost predicate Leavable(s: State, slots: seq<Slot>) {
    && (forall i :: 0 <= i < |slots| && slots[i].Holds? && !slots[i].task.detached ==>
          slots[i].task.h.Some? && IsLive(s, slots[i].task.h.value) && s.heap[slots[i].task.h.value].frame.phase.Final?)
    && (forall i, j :: 0 <= i < j < |slots| && slots[i].Holds? && !slots[i].task.detached ==> slots[i] != slots[j])
  }

  /** Every task object that coroutine `f` still owns is done. */
  ghost predicate AllDone(s: State, f: Id)
    requires IsLive(s, f)
  {
    forall i: nat :: i < |s.heap[f].frame.slots| ==> !OwnsUnfinished(s, f, i)
  }

  /** Leaving a scope destroys exactly the frames its task objects still own, each of them once. */
  lemma {:induction false} DestroyLocalsFrees(s: State, slots: seq<Slot>)
    requires s.fault.None? && Leavable(s, slots)
    ensures var s' := DestroyLocals(s, slots);
            && s' == s.(heap := s'.heap) && |s'.heap| == |s.heap|
            && forall x :: 0 <= x < |s.heap| ==> s'.heap[x] == if Owned(slots, x) then Freed else s.heap[x]
    decreases |slots|
  {
    if slots == [] {
    } else {
      var n := |slots| - 1;
      var last, init := slots[n], slots[..n];
      assert slots == init + [last];
      var s1 := if last.Holds? then TaskDestructor(s, last.task) else s;
      assert Leavable(s1, init) by {
        forall i | 0 <= i < n && init[i].Holds? && !init[i].task.detached
          ensures init[i].task.h.Some? && IsLive(s1, init[i].task.h.value)
          ensures s1.heap[init[i].task.h.value] == s.heap[init[i].task.h.value]
        {
          assert init[i] == slots[i] && slots[i] != slots[n];
        }
      }
      DestroyLocalsFrees(s1, init);
    }
  }

  /** The heap once `f` has stored its outcome and left its scope. */
  ghost predicate Departed(s: State, f: Id, o: Outcome, s': State)
    requires IsLive(s, f)
  {
    && s' == s.(heap := s'.heap) && |s'.heap| == |s.heap|
    && s'.heap[f] == Live(s.heap[f].frame.(promise := Some(o), slots := []))
    && forall x :: 0 <= x < |s.heap| && x != f ==>
                     s'.heap[x] == if Owned(s.heap[f].frame.slots, x) then Freed else s.heap[x]
  }

  lemma LocalsLeavable(orc: Oracle, s: State, g: seq<Spec>, f: Id)
    requires OnTop(orc, s, g, f) && s.heap[f].frame.phase.Running? && AllDone(s, f)
    ensures Leavable(s, s.heap[f].frame.slots) && !Owned(s.heap[f].frame.slots, f)
    ensures forall c: Id :: Owned(s.heap[f].frame.slots, c) ==>
                          IsLive(s, c) && g[c].owner.Parent? && g[c].owner.frame == f && s.heap[c].frame.phase.Final?
    ensures forall c: Id :: IsLive(s, c) && OwnerOk(s, g, c) && g[c].owner.Parent? && g[c].owner.frame == f ==>
                          Owned(s.heap[f].frame.slots, c)
  {
    var slots := s.heap[f].frame.slots;
    forall i | 0 <= i < |slots| && slots[i].Holds? && !slots[i].task.detached
      ensures (g[f].env[i].Pending? || g[f].env[i].Consumed?) && SlotOk(s, g, f, i) && !OwnsUnfinished(s, f, i)
    {
      assert SlotOk(s, g, f, i);
    }
    forall i, j | 0 <= i < j < |slots| && slots[i].Holds? && !slots[i].task.detached
      ensures slots[i] != slots[j]
    {
      assert SlotOk(s, g, f, i) && SlotOk(s, g, f, j);
    }
  }

  lemma ReturnDeparts(orc: Oracle, s: State, g: seq<Spec>, f: Id, v: Value)
    requires OnTop(orc, s, g, f) && s.heap[f].frame.phase.Running? && s.heap[f].frame.pc == Return(v)
    requires AllDone(s, f)
    ensures Departed(s, f, Returned(v), LeaveScope(SetPromise(s, f, Returned(v)), f))
  {
    LocalsLeavable(orc, s, g, f);
    var slots := s.heap[f].frame.slots;
    var s1 := SetPromise(s, f, Returned(v));
    var s2 := Put(s1, f, s1.heap[f].frame.(slots := []));
    assert Leavable(s2, slots);
    DestroyLocalsFrees(s2, slots);
  }

  lemma ThrowDeparts(orc: Oracle, s: State, g: seq<Spec>, f: Id, code: int)
    requires OnTop(orc, s, g, f) && s.heap[f].frame.phase.Running? && s.heap[f].frame.pc == Throw(code)
    requires AllDone(s, f)
    ensures Departed(s, f, Threw(code), SetPromise(LeaveScope(s, f), f, Threw(code)))
  {
    LocalsLeavable(orc, s, g, f);
    var slots := s.heap[f].frame.slots;
    var s2 := Put(s, f, s.heap[f].frame.(slots := []));
    assert Leavable(s2, slots);
    DestroyLocalsFrees(s2, slots);
  }

  /** The frames involved in the end of `f`: itself, the ones it owned, and the one it resumes. */
  ghost function FinishActors(s: State, f: Id): set<Id>
    requires IsLive(s, f)
  {
    {f} + (set c | 0 <= c < |s.heap| && Owned(s.heap[f].frame.slots, c))
        + (match s.heap[f].frame.continuation case Some(p) => {p} case None => {})
  }

  /** The continuation of a coroutine that is finishing is the coroutine that awaits it, suspended. */
  lemma ContinuationWaits(orc: Oracle, s: State, g: seq<Spec>, f: Id)
    requires OnTop(orc, s, g, f) && s.heap[f].frame.phase.Running? && s.heap[f].frame.continuation.Some?
    ensures var p := s.heap[f].frame.continuation.value;
            && IsLive(s, p) && s.heap[p].frame.phase == WaitingTask(f) && p !in s.stack
            && g[f].owner.Parent? && g[f].owner.frame == p
  {
    assert FrameOk(orc, s, g, s.heap[f].frame.continuation.value);
  }

  lemma FinishKeepsActors(orc: Oracle, s: State, g: seq<Spec>, f: Id, s2: State)
    requires OnTop(orc, s, g, f) && s.heap[f].frame.phase.Running? && AllDone(s, f)
    requires Departed(s, f, g[f].outcome, s2)
    ensures var s' := FinalSuspend(s2, f);
            && s'.fault.None? && |s'.heap| == |s.heap| && s'.requests == s.requests
            && (s.heap[f].frame.continuation.Some? ==>
                  var p := s.heap[f].frame.continuation.value;
                  && IsLive(s, p) && s.heap[p].frame.phase == WaitingTask(f) && p !in s.stack && g[f].owner.Parent? && g[f].owner.frame == p
                  && IsLive(s', p) && s'.heap[p] == Live(s.heap[p].frame.(phase := ResumingTask(f)))
                  && s'.stack == [p] + s.stack[1..])
            && (s.heap[f].frame.continuation.None? ==> s'.stack == s.stack[1..])
            && (forall x :: 0 <= x < |s.heap| && x !in FinishActors(s, f) ==> s'.heap[x] == s.heap[x])
            && (forall c :: 0 <= c < |s.heap| && Owned(s.heap[f].frame.slots, c) ==> s'.heap[c].Freed?)
            && (s'.heap[f].Live? ==> s'.heap[f] == Live(s2.heap[f].frame.(phase := Final)))
            && (g[f].owner.Parent? ==> s'.heap[f].Live?)
  {
    LocalsLeavable(orc, s, g, f);
    if s.heap[f].frame.continuation.Some? {
      ContinuationWaits(orc, s, g, f);
    }
  }

  /** The top of the stack gives its place to the coroutine it resumes, or to nobody. */
  lemma TransferKeepsStack(s: State, s': State, next: Option<Id>)
    requires StackOk(s) && s.stack != []
    requires s'.stack == (match next case Some(p) => [p] + s.stack[1..] case None => s.stack[1..])
    requires next.Some? ==> IsLive(s', next.value) && next.value !in s.stack
    requires forall x: Id :: x in s.stack && x != s.stack[0] ==> IsLive(s', x)
    ensures StackOk(s') && s.stack[0] !in s'.stack
    ensures forall x :: x != s.stack[0] && next != Some(x) ==> (x in s'.stack <==> x in s.stack)
  {
    PopKeepsStack(s, s'.(stack := s.stack[1..]));
  }

  /** What `f` owned had finished, and what it resumes was suspended: neither was on the stack. */
  lemma ActorsAreNotBelow(orc: Oracle, s: State, g: seq<Spec>, f: Id, x: Id)
    requires OnTop(orc, s, g, f) && s.heap[f].frame.phase.Running? && AllDone(s, f)
    requires x in s.stack && x != f
    ensures IsLive(s, x) && x !in FinishActors(s, f)
  {
    LocalsLeavable(orc, s, g, f);
    assert IsLive(s, x) && FrameOk(orc, s, g, x);
    if s.heap[f].frame.continuation.Some? {
      ContinuationWaits(orc, s, g, f);
    }
  }

  lemma FinishKeepsStack(orc: Oracle, s: State, g: seq<Spec>, f: Id, s2: State)
    requires OnTop(orc, s, g, f) && s.heap[f].frame.phase.Running? && AllDone(s, f)
    requires Departed(s, f, g[f].outcome, s2)
    ensures var s' := FinalSuspend(s2, f);
            && StackOk(s') && f !in s'.stack
            && forall x :: x != f && (s.heap[f].frame.continuation != Some(x)) ==> (x in s'.stack <==> x in s.stack)
  {
    var s' := FinalSuspend(s2, f);
    FinishKeepsActors(orc, s, g, f, s2);
    forall x: Id | x in s.stack && x != f
      ensures IsLive(s', x)
    {
      ActorsAreNotBelow(orc, s, g, f, x);
    }
    TransferKeepsStack(s, s', s.heap[f].frame.continuation);
  }

  lemma FinishKeepsSelf(orc: Oracle, s: State, g: seq<Spec>, f: Id, s2: State)
    requires OnTop(orc, s, g, f) && s.heap[f].frame.phase.Running? && AllDone(s, f)
    requires Departed(s, f, g[f].outcome, s2)
    ensures var s' := FinalSuspend(s2, f); |s'.heap| == |s.heap| && FrameOk(orc, s', g, f)
  {
    FinishKeepsActors(orc, s, g, f, s2);
    FinishKeepsStack(orc, s, g, f, s2);
    LocalsLeavable(orc, s, g, f);
  }

  lemma FinishKeepsContinuation(orc: Oracle, s: State, g: seq<Spec>, f: Id, s2: State)
    requires OnTop(orc, s, g, f) && s.heap[f].frame.phase.Running? && AllDone(s, f)
    requires Departed(s, f, g[f].outcome, s2) && s.heap[f].frame.continuation.Some?
    ensures FrameOk(orc, FinalSuspend(s2, f), g, s.heap[f].frame.continuation.value)
  {
    var s' := FinalSuspend(s2, f);
    var p := s.heap[f].frame.continuation.value;
    FinishKeepsActors(orc, s, g, f, s2);
    FinishKeepsStack(orc, s, g, f, s2);
    LocalsLeavable(orc, s, g, f);
    assert FrameOk(orc, s, g, p);
    var i := s.heap[p].frame.pc.slot;
    assert SlotOk(s, g, p, i);
    SlotsKept(orc, s, g, s', g, p, {i});
    assert SlotOk(s', g, p, i);
  }

  lemma FinishUntouched(orc: Oracle, s: State, g: seq<Spec>, f: Id, s2: State, x: Id)
    requires OnTop(orc, s, g, f) && s.heap[f].frame.phase.Running? && AllDone(s, f)
    requires Departed(s, f, g[f].outcome, s2) && x < |s.heap| && x !in FinishActors(s, f)
    ensures |FinalSuspend(s2, f).heap| == |s.heap| && Untouched(s, g, FinalSuspend(s2, f), g, x)
  {
    FinishKeepsActors(orc, s, g, f, s2);
    FinishKeepsStack(orc, s, g, f, s2);
  }

  lemma FinishFreesLocal(orc: Oracle, s: State, g: seq<Spec>, f: Id, s2: State, y: Id)
    requires OnTop(orc, s, g, f) && s.heap[f].frame.phase.Running? && AllDone(s, f)
    requires Departed(s, f, g[f].outcome, s2) && y < |s.heap| && Owned(s.heap[f].frame.slots, y)
    ensures |FinalSuspend(s2, f).heap| == |s.heap| && FinalSuspend(s2, f).heap[y].Freed?
  {
    FinishKeepsActors(orc, s, g, f, s2);
  }

  lemma FinishKeepsActor(orc: Oracle, s: State, g: seq<Spec>, f: Id, s2: State, y: Id)
    requires OnTop(orc, s, g, f) && s.heap[f].frame.phase.Running? && AllDone(s, f)
    requires Departed(s, f, g[f].outcome, s2) && y < |s.heap| && y in FinishActors(s, f)
    ensures |FinalSuspend(s2, f).heap| == |s.heap| && FrameOk(orc, FinalSuspend(s2, f), g, y)
  {
    if y == f {
      FinishKeepsSelf(orc, s, g, f, s2);
    } else if s.heap[f].frame.continuation == Some(y) {
      FinishKeepsContinuation(orc, s, g, f, s2);
    } else {
      FinishFreesLocal(orc, s, g, f, s2, y);
    }
  }

  lemma FinishKeepsRoot(orc: Oracle, s: State, g: seq<Spec>, f: Id, s2: State)
    requires OnTop(orc, s, g, f) && s.heap[f].frame.phase.Running? && AllDone(s, f)
    requires Departed(s, f, g[f].outcome, s2)
    ensures |FinalSuspend(s2, f).heap| == |s.heap| && FinalSuspend(s2, f).heap[0].Live?
  {
    FinishKeepsActors(orc, s, g, f, s2);
    LocalsLeavable(orc, s, g, f);
    assert FrameOk(orc, s, g, 0);
  }

  lemma FinishRespectsOwner(orc: Oracle, s: State, g: seq<Spec>, f: Id, s2: State, y: Id)
    requires OnTop(orc, s, g, f) && s.heap[f].frame.phase.Running? && AllDone(s, f)
    requires Departed(s, f, g[f].outcome, s2)
    requires y in FinishActors(s, f) && IsLive(s, y) && g[y].owner.Parent? && g[y].owner.frame !in FinishActors(s, f)
    ensures |FinalSuspend(s2, f).heap| == |s.heap| && SameView(s, g, FinalSuspend(s2, f), g, y)
  {
    FinishKeepsActors(orc, s, g, f, s2);
    LocalsLeavable(orc, s, g, f);
  }

  lemma FinishRespectsChild(orc: Oracle, s: State, g: seq<Spec>, f: Id, s2: State, x: Id)
    requires OnTop(orc, s, g, f) && s.heap[f].frame.phase.Running? && AllDone(s, f)
    requires Departed(s, f, g[f].outcome, s2)
    requires x !in FinishActors(s, f) && IsLive(s, x) && OwnerOk(s, g, x) && g[x].owner.Parent?
    requires g[x].owner.frame in FinishActors(s, f)
    ensures KeepsChild(s, FinalSuspend(s2, f), g[x].owner.frame, g[x].owner.slot, x)
  {
    FinishKeepsActors(orc, s, g, f, s2);
    LocalsLeavable(orc, s, g, f);
  }

  lemma FinishAdvances(orc: Oracle, s: State, g: seq<Spec>, f: Id, s2: State)
    requires OnTop(orc, s, g, f) && s.heap[f].frame.phase.Running? && AllDone(s, f)
    requires s.heap[f].frame.pc.Return? || s.heap[f].frame.pc.Throw?
    requires Departed(s, f, g[f].outcome, s2)
    ensures Advances(orc, s, g, FinalSuspend(s2, f), g)
  {
    var s' := FinalSuspend(s2, f);
    FinishKeepsRoot(orc, s, g, f, s2);
    forall x | 0 <= x < |s.heap| && x !in FinishActors(s, f)
      ensures Untouched(s, g, s', g, x)
    {
      FinishUntouched(orc, s, g, f, s2, x);
    }
    forall y: Id | y in FinishActors(s, f) && y < |s'.heap|
      ensures FrameOk(orc, s', g, y)
    {
      FinishKeepsActor(orc, s, g, f, s2, y);
    }
    forall y: Id | y in FinishActors(s, f) && IsLive(s, y) && g[y].owner.Parent? && g[y].owner.frame !in FinishActors(s, f)
      ensures SameView(s, g, s', g, y)
    {
      FinishRespectsOwner(orc, s, g, f, s2, y);
    }
    forall x: Id | x !in FinishActors(s, f) && IsLive(s, x) && OwnerOk(s, g, x) && g[x].owner.Parent?
                   && g[x].owner.frame in FinishActors(s, f)
      ensures KeepsChild(s, s', g[x].owner.frame, g[x].owner.slot, x)
    {
      FinishRespectsChild(orc, s, g, f, s2, x);
    }
    FinishRequests(orc, s, g, f, s2);
    Assemble(orc, s, g, s', g, FinishActors(s, f));
    FinishPays(orc, s, g, f, s2);
  }

  lemma FinishRequests(orc: Oracle, s: State, g: seq<Spec>, f: Id, s2: State)
    requires OnTop(orc, s, g, f) && s.heap[f].frame.phase.Running? && AllDone(s, f)
    requires Departed(s, f, g[f].outcome, s2)
    ensures var s' := FinalSuspend(s2, f);
            |s'.heap| == |s.heap| && s'.fault.None? && StackOk(s') && RequestsOk(s', g)
  {
    FinishKeepsActors(orc, s, g, f, s2);
    FinishKeepsStack(orc, s, g, f, s2);
    LocalsLeavable(orc, s, g, f);
    forall r | r in s.requests
      ensures s.requests[r].userData !in FinishActors(s, f)
    {
      assert IsLive(s, s.requests[r].userData) && s.heap[s.requests[r].userData].frame.phase.WaitingOp?;
    }
  }

  /** No frame gets heavier, and the one that has finished weighs nothing. */
  lemma FinishWeighs(orc: Oracle, s: State, g: seq<Spec>, f: Id, s2: State, x: Id)
    requires OnTop(orc, s, g, f) && s.heap[f].frame.phase.Running? && AllDone(s, f)
    requires Departed(s, f, g[f].outcome, s2) && x < |s.heap|
    ensures |FinalSuspend(s2, f).heap| == |s.heap|
    ensures Weight(orc, FinalSuspend(s2, f).heap[x], g[x]) <= (if x == f then 0 else Weight(orc, s.heap[x], g[x]))
  {
    FinishKeepsActors(orc, s, g, f, s2);
  }

  lemma FinishPays(orc: Oracle, s: State, g: seq<Spec>, f: Id, s2: State)
    requires OnTop(orc, s, g, f) && s.heap[f].frame.phase.Running? && AllDone(s, f)
    requires s.heap[f].frame.pc.Return? || s.heap[f].frame.pc.Throw?
    requires Departed(s, f, g[f].outcome, s2)
    ensures Measure(orc, FinalSuspend(s2, f), g) < Measure(orc, s, g)
  {
    FinishWeighs(orc, s, g, f, s2, f);
    var heap' := FinalSuspend(s2, f).heap;
    forall x | 0 <= x < |s.heap| && x != f
      ensures Weight(orc, heap'[x], g[x]) <= Weight(orc, s.heap[x], g[x])
    {
      FinishWeighs(orc, s, g, f, s2, x);
    }
    TotalDrops(orc, s.heap, g, heap', g, f);
  }

  lemma ReturnAdvances(orc: Oracle, s: State, g: seq<Spec>, f: Id, v: Value)
    requires OnTop(orc, s, g, f) && s.heap[f].frame.phase.Running? && s.heap[f].frame.pc == Return(v)
    requires AllDone(s, f)
    ensures Advances(orc, s, g, FinalSuspend(LeaveScope(SetPromise(s, f, Returned(v)), f), f), g)
  {
    ReturnDeparts(orc, s, g, f, v);
    FinishAdvances(orc, s, g, f, LeaveScope(SetPromise(s, f, Returned(v)), f));
  }

  lemma ThrowAdvances(orc: Oracle, s: State, g: seq<Spec>, f: Id, code: int)
    requires OnTop(orc, s, g, f) && s.heap[f].frame.phase.Running? && s.heap[f].frame.pc == Throw(code)
    requires AllDone(s, f)
    ensures Advances(orc, s, g, FinalSuspend(SetPromise(LeaveScope(s, f), f, Threw(code)), f), g)
  {
    ThrowDeparts(orc, s, g, f, code);
    FinishAdvances(orc, s, g, f, SetPromise(LeaveScope(s, f), f, Threw(code)));
  }
}
