/**
  Small programs that show what can become of a task nobody awaits: its caller is blocked, or not, by
  the timing of an operation; and a frame detached too late is never destroyed.
 */
module TaskExamples {
  import opened Prelude
  import opened Coroutine
  import opened TaskMachine
  import opened TaskTheorems
  import opened TaskLifetime

  /** Puts one step in front of a run. */
  lemma {:induction false} Prepend(orc: Oracle, s: State, e: Event, es: seq<Event>)
    requires Enabled(s, e) && IsRun(orc, Step(orc, s, e), es)
    ensures IsRun(orc, s, [e] + es) && Exec(orc, s, [e] + es) == Exec(orc, Step(orc, s, e), es)
  {
    assert ([e] + es)[1..] == es;
  }

  /** A coroutine that awaits one operation, started by one that ends without awaiting it. */
  function Careless(op: Op): Body {
    Start(AwaitOp(op, imap[]), Return(Unit))
  }

  lemma {:induction false} CarelessEvaluates(orc: Oracle, op: Op)
    ensures Eval(orc, Careless(op), []) == Some(Returned(Unit)) && !Tidy(orc, Careless(op), [])
  {
    var o := Uncaught(Delivered(op.kind, orc(op)));
    assert Eval(orc, AwaitOp(op, imap[]), []) == Some(o);
    assert ([] + [Pending(o)])[0] == Pending(o);
  }

  /** The program when its child is at `child`; the root is about to return. */
  function AfterStart(child: Frame, stack: seq<Id>, requests: map<nat, Request>): State {
    State([Live(NewFrame(Return(Unit)).(slots := [Holds(TaskObject(Some(1), false))])), Live(child)], stack, requests, None)
  }

  lemma {:induction false} CarelessStarts(orc: Oracle, op: Op)
    ensures Step(orc, Init(Careless(op)), Run(Immediate)) == AfterStart(NewFrame(AwaitOp(op, imap[])), [1, 0], map[])
  {
    var slot := Holds(TaskObject(Some(1), false));
    assert [] + [slot] == [slot] && [1] + [0] == [1, 0];
    var child := Live(NewFrame(AwaitOp(op, imap[])));
    var parent := Live(NewFrame(Return(Unit)).(slots := [slot]));
    assert [Live(NewFrame(Careless(op)))][0 := parent] + [child] == [parent, child];
  }

  /** The operation does not complete at once: the child waits for request 0. */
  lemma {:induction false} ChildWaits(orc: Oracle, op: Op) returns (child: Frame)
    ensures child.phase.WaitingOp?
    ensures Step(orc, AfterStart(NewFrame(AwaitOp(op, imap[])), [1, 0], map[]), Run(Deferred(0)))
         == AfterStart(child, [0], map[0 := Request(1, op)])
  {
    var s := AfterStart(NewFrame(AwaitOp(op, imap[])), [1, 0], map[]);
    var s' := Step(orc, s, Run(Deferred(0)));
    child := s'.heap[1].frame;
    assert s'.heap == [s.heap[0], Live(child)] && s'.stack == [0];
  }

  /** The operation completes at once: the child goes on to its end. */
  lemma {:induction false} ChildGoesOn(orc: Oracle, op: Op) returns (child: Frame)
    ensures child.phase.Running? && (child.pc.Return? || child.pc.Throw?) && child.slots == [] && child.promise.None?
    ensures child.continuation.None? && child.releaseDetached.None?
    ensures Step(orc, AfterStart(NewFrame(AwaitOp(op, imap[])), [1, 0], map[]), Run(Immediate)) == AfterStart(child, [1, 0], map[])
  {
    var s := AfterStart(NewFrame(AwaitOp(op, imap[])), [1, 0], map[]);
    var s' := Step(orc, s, Run(Immediate));
    child := s'.heap[1].frame;
    assert s'.heap == [s.heap[0], Live(child)];
  }

  /** The child finishes; nobody is resumed. */
  lemma {:induction false} ChildFinishes(orc: Oracle, child: Frame) returns (child': Frame)
    requires child.phase.Running? && (child.pc.Return? || child.pc.Throw?) && child.slots == [] && child.promise.None?
    requires child.continuation.None? && child.releaseDetached.None?
    ensures child'.phase.Final?
    ensures Step(orc, AfterStart(child, [1, 0], map[]), Run(Immediate)) == AfterStart(child', [0], map[])
  {
    var s := AfterStart(child, [1, 0], map[]);
    var s' := Step(orc, s, Run(Immediate));
    assert LeaveScope(s, 1) == s by {
      assert s.heap[1 := s.heap[1]] == s.heap;
    }
    child' := s'.heap[1].frame;
    assert s'.heap == [s.heap[0], Live(child')] && s'.stack == [0];
  }

  /** The root ends and destroys its task object, which is done. */
  lemma {:induction false} ParentFinishes(orc: Oracle, child: Frame)
    requires child.phase.Final?
    ensures var s' := Step(orc, AfterStart(child, [0], map[]), Run(Immediate));
            s'.fault.None? && |s'.heap| == 2 && s'.heap[1].Freed?
  {
    var s := AfterStart(child, [0], map[]);
    var slot := Holds(TaskObject(Some(1), false));
    var s1 := SetPromise(s, 0, Returned(Unit));
    var s2 := Put(s1, 0, s1.heap[0].frame.(slots := []));
    assert [slot][..0] == [];
    assert DestroyLocals(s2, [slot]) == DestroyLocals(TaskDestructor(s2, slot.task), []);
  }

  /**
    The same program blocks its thread for ever when its operation does not complete at once, and ends
    well, freeing the child's frame, when it does.
   */
  lemma {:induction false} CarelessBlocksByTiming(orc: Oracle, op: Op)
    ensures exists es :: IsRun(orc, Init(Careless(op)), es) && Exec(orc, Init(Careless(op)), es).fault == Some(BlockedForever)
    ensures exists es :: IsRun(orc, Init(Careless(op)), es)
                         && var s := Exec(orc, Init(Careless(op)), es);
                            s.fault.None? && |s.heap| == 2 && s.heap[1].Freed?
  {
    var s0, s1 := Init(Careless(op)), AfterStart(NewFrame(AwaitOp(op, imap[])), [1, 0], map[]);
    var now := Run(Immediate);
    CarelessStarts(orc, op);
    CarelessBlocks(orc, op);
    var c2 := ChildGoesOn(orc, op);
    var c3 := ChildFinishes(orc, c2);
    ParentFinishes(orc, c3);
    Prepend(orc, AfterStart(c3, [0], map[]), now, []);
    Prepend(orc, AfterStart(c2, [1, 0], map[]), now, [now]);
    Prepend(orc, s1, now, [now] + [now]);
    Prepend(orc, s0, now, [now] + ([now] + [now]));
  }

  lemma {:induction false} CarelessBlocks(orc: Oracle, op: Op)
    ensures exists es :: IsRun(orc, Init(Careless(op)), es) && Exec(orc, Init(Careless(op)), es).fault == Some(BlockedForever)
  {
    var s0, s1 := Init(Careless(op)), AfterStart(NewFrame(AwaitOp(op, imap[])), [1, 0], map[]);
    CarelessStarts(orc, op);
    CarelessEvaluates(orc, op);
    var child := ChildWaits(orc, op);
    var s2 := AfterStart(child, [0], map[0 := Request(1, op)]);
    var before := [Run(Immediate)] + [Run(Deferred(0))];
    Prepend(orc, s1, Run(Deferred(0)), []);
    Prepend(orc, s0, Run(Immediate), [Run(Deferred(0))]);
    assert OwnsUnfinished(s2, 0, 0);
    Prepend(orc, s2, Run(Immediate), []);
    Prepend(orc, s1, Run(Deferred(0)), [Run(Immediate)]);
    Prepend(orc, s0, Run(Immediate), [Run(Deferred(0))] + [Run(Immediate)]);
    var es := [Run(Immediate)] + ([Run(Deferred(0))] + [Run(Immediate)]);
    assert es[..2] == [Run(Immediate)] + ([Run(Deferred(0))] + []);
    AwaitTransparency(orc, Careless(op), Returned(Unit), es);
  }

  // ------------------------------------------------------------------------------------------------

  /** A coroutine that has finished before it is detached. */
  function LateDetach(): Body {
    Start(Return(Unit), Detach(0, Return(Unit)))
  }

  function Finished(): Frame {
    NewFrame(Return(Unit)).(phase := Final, promise := Some(Returned(Unit)))
  }

  function Holder(pc: Body, detached: bool): Frame {
    NewFrame(pc).(slots := [Holds(TaskObject(Some(1), detached))])
  }

  lemma {:induction false} LateDetachStarts(orc: Oracle) returns (s2: State)
    ensures var now := Run(Immediate);
            && s2 == State([Live(Holder(Detach(0, Return(Unit)), false)), Live(Finished())], [0], map[], None)
            && IsRun(orc, Init(LateDetach()), [now] + ([now] + []))
            && Step(orc, Step(orc, Init(LateDetach()), now), now) == s2
  {
    var now := Run(Immediate);
    var s0 := Init(LateDetach());
    var parent, child := Holder(Detach(0, Return(Unit)), false), NewFrame(Return(Unit));
    var s1 := State([Live(parent), Live(child)], [1, 0], map[], None);
    assert [] + parent.slots == parent.slots && [1] + [0] == [1, 0];
    assert s0.heap[0 := Live(parent)] + [Live(child)] == s1.heap;
    assert Step(orc, s0, now) == s1;
    s2 := Step(orc, s1, now);
    var stored := SetPromise(s1, 1, Returned(Unit));
    assert LeaveScope(stored, 1) == stored by {
      assert stored.heap[1 := stored.heap[1]] == stored.heap;
    }
    assert s2.heap == [Live(parent), Live(Finished())] && s2.stack == [0];
    Prepend(orc, s1, now, []);
    Prepend(orc, s0, now, [now]);
  }

  lemma {:induction false} LateDetachEnds(orc: Oracle, s2: State) returns (s4: State)
    requires s2 == State([Live(Holder(Detach(0, Return(Unit)), false)), Live(Finished())], [0], map[], None)
    ensures var now := Run(Immediate);
            && IsRun(orc, s2, [now] + ([now] + [])) && Exec(orc, s2, [now] + ([now] + [])) == s4
            && s4.fault.None? && Quiescent(s4) && |s4.heap| == 2 && DetachesFinished(s2, now, 1)
  {
    var now := Run(Immediate);
    var child := Finished().(releaseDetached := Some(1));
    var s3 := State([Live(Holder(Return(Unit), true)), Live(child)], [0], map[], None);
    assert Step(orc, s2, now) == s3 by {
      assert s2.heap[0 := s3.heap[0]][1 := s3.heap[1]] == s3.heap;
      assert Holder(Return(Unit), false).slots[0 := Holds(TaskObject(Some(1), true))] == Holder(Return(Unit), true).slots;
    }
    s4 := Step(orc, s3, now);
    var stored := SetPromise(s3, 0, Returned(Unit));
    var left := Put(stored, 0, stored.heap[0].frame.(slots := []));
    var slot := Holds(TaskObject(Some(1), true));
    assert [slot][..0] == [];
    assert DestroyLocals(left, [slot]) == DestroyLocals(TaskDestructor(left, slot.task), []) == left;
    Prepend(orc, s3, now, []);
    Prepend(orc, s2, now, [now]);
  }

  lemma {:induction false} LateDetachEvaluates(orc: Oracle)
    ensures Eval(orc, LateDetach(), []) == Some(Returned(Unit))
  {
    assert ([] + [Pending(Returned(Unit))])[0].Pending?;
  }

  /** A frame detached late in a run is detached late in one that starts a step earlier. */
  lemma {:induction false} DetachedLater(orc: Oracle, s: State, e: Event, es: seq<Event>, f: Id)
    requires DetachedFinished(orc, Step(orc, s, e), es, f)
    ensures DetachedFinished(orc, s, [e] + es, f)
  {
    assert ([e] + es)[1..] == es;
  }

  lemma {:induction false} LateDetachRuns(orc: Oracle) returns (es: seq<Event>)
    ensures var s0 := Init(LateDetach());
            && IsRun(orc, s0, es) && Quiescent(Exec(orc, s0, es)) && Exec(orc, s0, es).fault.None?
            && DetachedFinished(orc, s0, es, 1) && |Exec(orc, s0, es).heap| == 2
  {
    var now := Run(Immediate);
    var s0 := Init(LateDetach());
    var s2 := LateDetachStarts(orc);
    var s4 := LateDetachEnds(orc, s2);
    var later := [now] + ([now] + []);
    assert DetachedFinished(orc, s2, later, 1);
    Prepend(orc, Step(orc, s0, now), now, later);
    DetachedLater(orc, Step(orc, s0, now), now, later, 1);
    Prepend(orc, s0, now, [now] + later);
    DetachedLater(orc, s0, now, [now] + later, 1);
    es := [now] + ([now] + later);
  }

  /** Its frame is alive when the program is at rest, and nothing will ever destroy it. */
  lemma {:induction false} LateDetachLeaks(orc: Oracle)
    ensures exists es :: IsRun(orc, Init(LateDetach()), es)
                         && Quiescent(Exec(orc, Init(LateDetach()), es)) && Exec(orc, Init(LateDetach()), es).fault.None?
                         && DetachedFinished(orc, Init(LateDetach()), es, 1) && Destructions(orc, Init(LateDetach()), es, 1) == 0
  {
    var es := LateDetachRuns(orc);
    LateDetachEvaluates(orc);
    FramesDestroyedOnce(orc, LateDetach(), Returned(Unit), es, 1);
  }
}
