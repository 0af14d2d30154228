/**
  A sequential program performs its operations one by one, in the order of direct-style evaluation:
  what its coroutines have done and what they have yet to do is always the whole.
 */
module SequentialOrder {
  import opened Prelude
  import opened Coroutine
  import opened TaskMachine
  import opened TaskInvariant
  import opened TaskSteps
  import opened TaskFinish
  import opened TaskTheorems
  import opened SequentialTasks

  /** The operations of a sequential body in direct-style order. */
  ghost function Program(orc: Oracle, b: Body): seq<Op>
    decreases b
  {
    match b
    case Start(child, next) =>
      Program(orc, child)
      + (match Eval(orc, child, [])
         case Some(o) => if next.AwaitTask? && o in next.k then Program(orc, next.k[o]) else []
         case None => [])
    case Drop(_, next) => Program(orc, next)
    case AwaitOp(op, k) =>
      var o := Delivered(op.kind, orc(op));
      [op] + (if o in k then Program(orc, k[o]) else [])
    case _ => []
  }

  /** What is left of an unfinished coroutine's own operations. */
  ghost function FrameRest(orc: Oracle, s: State, g: seq<Spec>, f: Id): seq<Op>
    requires |g| == |s.heap|
  {
    if !Unfinished(s, f) then []
    else
      var fr := s.heap[f].frame;
      if fr.pc.AwaitTask? then
        if fr.pc.slot < |fr.slots| && fr.slots[fr.pc.slot].Holds? && fr.slots[fr.pc.slot].task.h.Some?
           && fr.slots[fr.pc.slot].task.h.value < |g|
        then Program(orc, Continue(fr.pc.k, g[fr.slots[fr.pc.slot].task.h.value].outcome))
        else []
      else if fr.phase.ResumingOp? && fr.pc.AwaitOp? then Program(orc, Continue(fr.pc.k, Delivered(fr.pc.op.kind, orc(fr.pc.op))))
      else Program(orc, fr.pc)
  }

  /** What is left of the first `n` coroutines, the youngest first. */
  ghost function Rest(orc: Oracle, s: State, g: seq<Spec>, n: nat): seq<Op>
    requires |g| == |s.heap|
  {
    if n == 0 then [] else FrameRest(orc, s, g, n - 1) + Rest(orc, s, g, n - 1)
  }

  /** The operation that a step completes. */
  function Does(s: State, e: Event): seq<Op> {
    match e
    case Progress(r) => if r in s.requests then [s.requests[r].op] else []
    case Run(t) =>
      if t.Immediate? && s.stack != [] && IsLive(s, s.stack[0])
         && s.heap[s.stack[0]].frame.phase.Running? && s.heap[s.stack[0]].frame.pc.AwaitOp?
      then [s.heap[s.stack[0]].frame.pc.op]
      else []
  }

  function DoesAll(orc: Oracle, s: State, es: seq<Event>): seq<Op>
    decreases |es|
  {
    if es == [] then [] else Does(s, es[0]) + DoesAll(orc, Step(orc, s, es[0]), es[1..])
  }

  // ------------------------------------------------------------------------------------------------

  lemma {:induction false} ContinueProgram(orc: Oracle, op: Op, k: imap<Outcome, Body>)
    ensures Program(orc, AwaitOp(op, k)) == [op] + Program(orc, Continue(k, Delivered(op.kind, orc(op))))
  {
  }

  lemma {:induction false} StartProgram(orc: Oracle, child: Body, next: Body, o: Outcome)
    requires next.AwaitTask? && Eval(orc, child, []) == Some(o)
    ensures Program(orc, Start(child, next)) == Program(orc, child) + Program(orc, Continue(next.k, o))
  {
  }

  lemma {:induction false} RestSame(orc: Oracle, s: State, g: seq<Spec>, s': State, g': seq<Spec>, n: nat)
    requires |g| == |s.heap| && |g'| == |s'.heap|
    requires forall x: Id :: x < n ==> FrameRest(orc, s', g', x) == FrameRest(orc, s, g, x)
    ensures Rest(orc, s', g', n) == Rest(orc, s, g, n)
    decreases n
  {
    if n > 0 {
      RestSame(orc, s, g, s', g', n - 1);
    }
  }

  lemma {:induction false} NothingLeft(orc: Oracle, s: State, g: seq<Spec>, y: Id)
    requires |g| == |s.heap| && !Unfinished(s, y)
    ensures FrameRest(orc, s, g, y) == []
  {
  }

  lemma {:induction false} RestUnrolls(orc: Oracle, s: State, g: seq<Spec>, n: nat)
    requires |g| == |s.heap|
    ensures Rest(orc, s, g, n + 1) == FrameRest(orc, s, g, n) + Rest(orc, s, g, n)
  {
  }

  /** Beyond the youngest unfinished coroutine nothing is left. */
  lemma {:induction false} RestFrom(orc: Oracle, s: State, g: seq<Spec>, f: Id, n: nat)
    requires |g| == |s.heap| && f < n
    requires forall y: Id :: f < y < n ==> !Unfinished(s, y)
    ensures Rest(orc, s, g, n) == FrameRest(orc, s, g, f) + Rest(orc, s, g, f)
    decreases n
  {
    RestUnrolls(orc, s, g, n - 1);
    if f < n - 1 {
      NothingLeft(orc, s, g, n - 1);
      RestFrom(orc, s, g, f, n - 1);
    }
  }

  ghost predicate SameOutcomes(g: seq<Spec>, g': seq<Spec>) {
    |g| <= |g'| && forall f :: 0 <= f < |g| ==> g'[f].outcome == g[f].outcome
  }

  /** A blocked coroutine has as much left as before. */
  lemma {:induction false} BlockedRest(orc: Oracle, s: State, g: seq<Spec>, s': State, g': seq<Spec>, x: Id, f: Id)
    requires |g| == |s.heap| && |g'| == |s'.heap| && SameOutcomes(g, g')
    requires StaysPut(s, s', x) && (Unfinished(s, x) ==> Blocked(s, x, f))
    ensures FrameRest(orc, s', g', x) == FrameRest(orc, s, g, x)
  {
  }

  /** The coroutines older than an unfinished one have as much left as before. */
  lemma {:induction false} OlderRest(orc: Oracle, s: State, g: seq<Spec>, s': State, g': seq<Spec>, f: Id)
    requires |g| == |s.heap| && |g'| == |s'.heap| && SameOutcomes(g, g') && Chain(s) && Unfinished(s, f)
    requires forall x: Id :: x < f ==> StaysPut(s, s', x)
    ensures Rest(orc, s', g', f) == Rest(orc, s, g, f)
  {
    forall x: Id | x < f
      ensures FrameRest(orc, s', g', x) == FrameRest(orc, s, g, x)
    {
      assert StaysPut(s, s', x);
      assert Unfinished(s, x) ==> Blocked(s, x, f);
      BlockedRest(orc, s, g, s', g', x, f);
    }
    RestSame(orc, s, g, s', g', f);
  }

  /** Two parts of the whole before a step, and the parts they become. */
  lemma {:induction false} Regroup(done: seq<Op>, young: seq<Op>, older: seq<Op>, before: seq<Op>, after: seq<Op>,
                                   first: seq<Op>)
    requires before == first + older && first == done + young && after == young + older
    ensures before == done + after
  {
  }

  lemma {:induction false} StillYoungest(s: State, s': State, f: Id, n: nat)
    requires forall y: Id :: f < y < n ==> !Unfinished(s, y) && StaysPut(s, s', y)
    ensures forall y: Id :: f < y < n ==> !Unfinished(s', y)
  {
    forall y: Id | f < y < n
      ensures !Unfinished(s', y)
    {
      assert StaysPut(s, s', y);
    }
  }

  /** A step of the youngest unfinished coroutine that does `done`. */
  lemma {:induction false} YoungestDoes(orc: Oracle, s: State, g: seq<Spec>, s': State, g': seq<Spec>, f: Id, done: seq<Op>)
    requires |g| == |s.heap| == |s'.heap| == |g'| && SameOutcomes(g, g') && Chain(s) && Unfinished(s, f)
    requires forall y: Id :: y > f ==> !Unfinished(s, y)
    requires forall x: Id :: x != f ==> StaysPut(s, s', x)
    requires FrameRest(orc, s, g, f) == done + FrameRest(orc, s', g', f)
    ensures Rest(orc, s, g, |g|) == done + Rest(orc, s', g', |g'|)
  {
    RestFrom(orc, s, g, f, |g|);
    StillYoungest(s, s', f, |g|);
    RestFrom(orc, s', g', f, |g|);
    OlderRest(orc, s, g, s', g', f);
    Regroup(done, FrameRest(orc, s', g', f), Rest(orc, s, g, f), Rest(orc, s, g, |g|),
            Rest(orc, s', g', |g'|), FrameRest(orc, s, g, f));
  }

  // --- Every step ---------------------------------------------------------------------------------

  /** The specification of `s'` is one that follows that of `s`. */
  ghost predicate Follows(s: State, g: seq<Spec>, s': State, g': seq<Spec>) {
    |g| == |s.heap| && |g'| == |s'.heap| && SameOutcomes(g, g')
  }

  /** The youngest unfinished coroutine, and a step that moves no other one. */
  ghost predicate MovesYoungest(s: State, s': State, f: Id) {
    && |s'.heap| == |s.heap| && Unfinished(s, f)
    && (forall y: Id :: y > f ==> !Unfinished(s, y))
    && forall x: Id :: x != f ==> StaysPut(s, s', x)
  }

  lemma YoungestOf(s: State, f: Id)
    requires Chain(s) && Unfinished(s, f) && !s.heap[f].frame.pc.AwaitTask?
    ensures forall y: Id :: y > f ==> !Unfinished(s, y)
  {
    forall y: Id | y > f
      ensures !Unfinished(s, y)
    {
      MoverIsYoungest(s, f, y);
    }
  }

  /** A coroutine that finishes has nothing left to do. */
  lemma {:induction false} FinishLeavesNothing(orc: Oracle, s: State, g: seq<Spec>, s': State, g': seq<Spec>, f: Id)
    requires Follows(s, g, s', g') && Chain(s) && MovesYoungest(s, s', f) && !Unfinished(s', f)
    requires s.heap[f].frame.phase.Running? && (s.heap[f].frame.pc.Return? || s.heap[f].frame.pc.Throw?)
    ensures Rest(orc, s, g, |g|) == Rest(orc, s', g', |g'|)
  {
    YoungestDoes(orc, s, g, s', g', f, []);
  }

  lemma FinishMoves(orc: Oracle, s: State, g: seq<Spec>, f: Id, s2: State)
    requires OnTop(orc, s, g, f) && s.heap[f].frame.phase.Running? && AllDone(s, f) && Chain(s)
    requires !s.heap[f].frame.pc.AwaitTask? && Departed(s, f, g[f].outcome, s2)
    ensures MovesYoungest(s, FinalSuspend(s2, f), f) && !Unfinished(FinalSuspend(s2, f), f)
  {
    YoungestOf(s, f);
    FinishedAlone(orc, s, g, f, s2);
  }

  lemma {:induction false} DropLeavesAll(orc: Oracle, s: State, g: seq<Spec>, s': State, g': seq<Spec>, f: Id, i: nat,
                                         next: Body)
    requires Follows(s, g, s', g') && Chain(s) && MovesYoungest(s, s', f)
    requires s.heap[f].frame.phase.Running? && s.heap[f].frame.pc == Drop(i, next) && !next.AwaitTask?
    requires Unfinished(s', f) && s'.heap[f].frame.phase.Running? && s'.heap[f].frame.pc == next
    ensures Rest(orc, s, g, |g|) == Rest(orc, s', g', |g'|)
  {
    YoungestDoes(orc, s, g, s', g', f, []);
  }

  lemma DropMovesOne(orc: Oracle, s: State, g: seq<Spec>, f: Id, i: nat, next: Body)
    requires OnTop(orc, s, g, f) && s.heap[f].frame.phase.Running? && s.heap[f].frame.pc == Drop(i, next)
    requires AllDone(s, f) && Chain(s)
    ensures var s' := DropTask(s, f, i, next);
            && MovesYoungest(s, s', f) && !next.AwaitTask?
            && Unfinished(s', f) && s'.heap[f].frame.phase.Running? && s'.heap[f].frame.pc == next
  {
    assert SlotOk(s, g, f, i);
    if g[f].env[i].Pending? || g[f].env[i].Consumed? {
      DropFreesChild(orc, s, g, f, i, next);
    }
    YoungestOf(s, f);
    assert Sequential(s.heap[f].frame.pc, |s.heap[f].frame.slots|);
  }

  /** What follows an operation starts with no await of a task. */
  lemma {:induction false} ContinuesPlainly(op: Op, k: imap<Outcome, Body>, o: Outcome, n: nat)
    requires SequentialAt(AwaitOp(op, k), n)
    ensures !Continue(k, o).AwaitTask?
  {
    assert Sequential(AwaitOp(op, k), n);
    assert o in k ==> Sequential(k[o], n);
  }

  /** An operation that completes at once is done. */
  lemma {:induction false} ImmediateDoes(orc: Oracle, s: State, g: seq<Spec>, s': State, g': seq<Spec>, f: Id, op: Op,
                                         k: imap<Outcome, Body>)
    requires Follows(s, g, s', g') && Chain(s) && MovesYoungest(s, s', f)
    requires s.heap[f].frame.phase.Running? && s.heap[f].frame.pc == AwaitOp(op, k)
    requires Unfinished(s', f) && s'.heap[f].frame.phase.Running?
    requires s'.heap[f].frame.pc == Continue(k, Delivered(op.kind, orc(op)))
    ensures Rest(orc, s, g, |g|) == [op] + Rest(orc, s', g', |g'|)
  {
    assert SequentialAt(s.heap[f].frame.pc, |s.heap[f].frame.slots|);
    ContinueProgram(orc, op, k);
    ContinuesPlainly(op, k, Delivered(op.kind, orc(op)), |s.heap[f].frame.slots|);
    YoungestDoes(orc, s, g, s', g', f, [op]);
  }

  lemma ImmediateMoves(orc: Oracle, s: State, g: seq<Spec>, f: Id, op: Op, k: imap<Outcome, Body>)
    requires OnTop(orc, s, g, f) && s.heap[f].frame.phase.Running? && s.heap[f].frame.pc == AwaitOp(op, k) && Chain(s)
    ensures var s' := AwaitOperation(orc, s, f, op, k, Immediate);
            && MovesYoungest(s, s', f) && Unfinished(s', f) && s'.heap[f].frame.phase.Running?
            && s'.heap[f].frame.pc == Continue(k, Delivered(op.kind, orc(op)))
  {
    ImmediateYields(orc, s, f, op, k);
    YoungestOf(s, f);
  }

  /** One that does not is still to be done. */
  lemma {:induction false} DeferredDoesNothing(orc: Oracle, s: State, g: seq<Spec>, s': State, g': seq<Spec>, f: Id)
    requires Follows(s, g, s', g') && Chain(s) && MovesYoungest(s, s', f)
    requires s.heap[f].frame.phase.Running? && s.heap[f].frame.pc.AwaitOp?
    requires Unfinished(s', f) && s'.heap[f].frame.phase.WaitingOp? && s'.heap[f].frame.pc == s.heap[f].frame.pc
    ensures Rest(orc, s, g, |g|) == Rest(orc, s', g', |g'|)
  {
    YoungestDoes(orc, s, g, s', g', f, []);
  }

  lemma DeferredMoves(orc: Oracle, s: State, g: seq<Spec>, f: Id, op: Op, k: imap<Outcome, Body>, r: nat)
    requires OnTop(orc, s, g, f) && s.heap[f].frame.phase.Running? && s.heap[f].frame.pc == AwaitOp(op, k) && Chain(s)
    ensures var s' := AwaitOperation(orc, s, f, op, k, Deferred(r));
            && MovesYoungest(s, s', f) && Unfinished(s', f) && s'.heap[f].frame.phase.WaitingOp?
            && s'.heap[f].frame.pc == s.heap[f].frame.pc
  {
    YoungestOf(s, f);
  }

  /** Resuming from an operation does nothing: the callback has done it. */
  lemma {:induction false} ResumeDoesNothing(orc: Oracle, s: State, g: seq<Spec>, s': State, g': seq<Spec>, f: Id)
    requires Follows(s, g, s', g') && Chain(s) && MovesYoungest(s, s', f)
    requires s.heap[f].frame.phase.ResumingOp? && s.heap[f].frame.pc.AwaitOp?
    requires Unfinished(s', f) && s'.heap[f].frame.phase.Running?
    requires var fr := s.heap[f].frame; s'.heap[f].frame.pc == Continue(fr.pc.k, Delivered(fr.pc.op.kind, orc(fr.pc.op)))
    ensures Rest(orc, s, g, |g|) == Rest(orc, s', g', |g'|)
  {
    var fr := s.heap[f].frame;
    assert SequentialAt(fr.pc, |fr.slots|);
    ContinuesPlainly(fr.pc.op, fr.pc.k, Delivered(fr.pc.op.kind, orc(fr.pc.op)), |fr.slots|);
    YoungestDoes(orc, s, g, s', g', f, []);
  }

  lemma ResumeMoves(orc: Oracle, s: State, g: seq<Spec>, f: Id)
    requires OnTop(orc, s, g, f) && s.heap[f].frame.phase.ResumingOp? && Chain(s)
    ensures var s', fr := ResumeOperation(s, f), s.heap[f].frame;
            && MovesYoungest(s, s', f) && fr.pc.AwaitOp? && Unfinished(s', f) && s'.heap[f].frame.phase.Running?
            && s'.heap[f].frame.pc == Continue(fr.pc.k, Delivered(fr.pc.op.kind, orc(fr.pc.op)))
  {
    YoungestOf(s, f);
  }

  /** A callback completes the operation that its coroutine waits for. */
  lemma {:induction false} CallbackDoes(orc: Oracle, s: State, g: seq<Spec>, s': State, g': seq<Spec>, f: Id)
    requires Follows(s, g, s', g') && Chain(s) && MovesYoungest(s, s', f)
    requires s.heap[f].frame.phase.WaitingOp? && s.heap[f].frame.pc.AwaitOp?
    requires Unfinished(s', f) && s'.heap[f].frame.phase.ResumingOp? && s'.heap[f].frame.pc == s.heap[f].frame.pc
    ensures Rest(orc, s, g, |g|) == [s.heap[f].frame.pc.op] + Rest(orc, s', g', |g'|)
  {
    ContinueProgram(orc, s.heap[f].frame.pc.op, s.heap[f].frame.pc.k);
    YoungestDoes(orc, s, g, s', g', f, [s.heap[f].frame.pc.op]);
  }

  lemma CallbackMoves(orc: Oracle, s: State, g: seq<Spec>, r: nat)
    requires Inv(orc, s, g) && Chain(s) && r in s.requests && s.stack == []
    ensures var s', f := FireCallback(orc, s, r), s.requests[r].userData;
            && MovesYoungest(s, s', f) && s.heap[f].frame.phase.WaitingOp? && s.heap[f].frame.pc.AwaitOp?
            && s.heap[f].frame.pc.op == s.requests[r].op
            && Unfinished(s', f) && s'.heap[f].frame.phase.ResumingOp? && s'.heap[f].frame.pc == s.heap[f].frame.pc
  {
    CallbackResumes(orc, s, g, r);
    assert FrameOk(orc, s, g, s.requests[r].userData);
    YoungestOf(s, s.requests[r].userData);
  }

  /** Reading the future of a finished child does nothing: the child has done it. */
  lemma {:induction false} TakeDoesNothing(orc: Oracle, s: State, g: seq<Spec>, s': State, g': seq<Spec>, f: Id, c: Id)
    requires Follows(s, g, s', g') && Chain(s) && MovesYoungest(s, s', f)
    requires s.heap[f].frame.pc.AwaitTask? && OwnsAt(s, f, s.heap[f].frame.pc.slot, c) && c < |g|
    requires Unfinished(s', f) && s'.heap[f].frame.phase.Running?
    requires s'.heap[f].frame.pc == Continue(s.heap[f].frame.pc.k, g[c].outcome)
    ensures Rest(orc, s, g, |g|) == Rest(orc, s', g', |g'|)
  {
    var fr := s.heap[f].frame;
    assert SequentialAt(fr.pc, |fr.slots|);
    assert !Continue(fr.pc.k, g[c].outcome).AwaitTask? by {
      assert g[c].outcome in fr.pc.k ==> Sequential(fr.pc.k[g[c].outcome], |fr.slots|);
    }
    YoungestDoes(orc, s, g, s', g', f, []);
  }

  lemma TakeMoves(orc: Oracle, s: State, g: seq<Spec>, f: Id, c: Id)
    requires OnTop(orc, s, g, f) && s.heap[f].frame.pc.AwaitTask? && Chain(s) && Unfinished(s, f)
    requires s.heap[f].frame.phase in {Running, ResumingTask(c)}
    requires AwaitsTask(s, g, f, c) && s.heap[c].frame.phase.Final?
    ensures var s' := TakeResult(s, f, c, s.heap[f].frame.pc.k);
            && MovesYoungest(s, s', f) && Unfinished(s', f) && s'.heap[f].frame.phase.Running?
            && c < |g| && s'.heap[f].frame.pc == Continue(s.heap[f].frame.pc.k, g[c].outcome)
  {
    assert FrameOk(orc, s, g, c) && SlotOk(s, g, f, s.heap[f].frame.pc.slot);
    forall y: Id | y > f
      ensures !Unfinished(s, y)
    {
      TakerIsYoungest(s, f, c, y);
    }
  }

  /** Suspending on a child does nothing. */
  lemma {:induction false} SuspendDoesNothing(orc: Oracle, s: State, g: seq<Spec>, s': State, g': seq<Spec>)
    requires Follows(s, g, s', g') && |s'.heap| == |s.heap|
    requires forall x: Id :: StaysPut(s, s', x)
    requires forall x: Id :: Unfinished(s, x) && !s.heap[x].frame.pc.AwaitTask? ==>
                               Unfinished(s', x) && s'.heap[x].frame.phase == s.heap[x].frame.phase
    ensures Rest(orc, s, g, |g|) == Rest(orc, s', g', |g'|)
  {
    forall x: Id | x < |g|
      ensures FrameRest(orc, s', g', x) == FrameRest(orc, s, g, x)
    {
      assert StaysPut(s, s', x);
    }
    RestSame(orc, s, g, s', g', |g|);
  }

  lemma SuspendMoves(orc: Oracle, s: State, g: seq<Spec>, f: Id, i: nat, k: imap<Outcome, Body>)
    requires OnTop(orc, s, g, f) && s.heap[f].frame.phase.Running? && s.heap[f].frame.pc == AwaitTask(i, k)
    requires SlotOk(s, g, f, i) && g[f].env[i].Pending?
    requires !s.heap[s.heap[f].frame.slots[i].task.h.value].frame.phase.Final?
    ensures var s' := AwaitChild(s, f, i, k);
            && |s'.heap| == |s.heap| && (forall x: Id :: StaysPut(s, s', x))
            && forall x: Id :: Unfinished(s, x) && !s.heap[x].frame.pc.AwaitTask? ==>
                                 Unfinished(s', x) && s'.heap[x].frame.phase == s.heap[x].frame.phase
  {
  }

  /** The two coroutines involved in a start. */
  lemma {:induction false} StartedRest(orc: Oracle, s: State, g: seq<Spec>, s': State, g': seq<Spec>, f: Id,
                                       child: Body, next: Body)
    requires |g| == |s.heap| && |g'| == |s'.heap| == |g| + 1 && Unfinished(s, f)
    requires s.heap[f].frame.phase.Running? && s.heap[f].frame.pc == Start(child, next) && next.AwaitTask?
    requires !child.AwaitTask?
    requires Unfinished(s', f) && s'.heap[f].frame.pc == next && OwnsAt(s', f, next.slot, |g|)
    requires Unfinished(s', |g|) && s'.heap[|g|].frame.phase.Running? && s'.heap[|g|].frame.pc == child
    requires Eval(orc, child, []) == Some(g'[|g|].outcome)
    ensures FrameRest(orc, s, g, f) == FrameRest(orc, s', g', |g|) + FrameRest(orc, s', g', f)
  {
    StartProgram(orc, child, next, g'[|g|].outcome);
  }

  /** A step of the youngest unfinished coroutine that leaves part of its work to a new one. */
  lemma {:induction false} ChildIsYoungest(orc: Oracle, s: State, g: seq<Spec>, s': State, g': seq<Spec>, f: Id)
    requires Follows(s, g, s', g') && |g'| == |g| + 1 && Chain(s) && Unfinished(s, f)
    requires forall y: Id :: y > f ==> !Unfinished(s, y)
    requires forall x: Id :: x != f && x != |g| ==> StaysPut(s, s', x)
    requires FrameRest(orc, s, g, f) == FrameRest(orc, s', g', |g|) + FrameRest(orc, s', g', f)
    ensures Rest(orc, s, g, |g|) == Rest(orc, s', g', |g'|)
  {
    var c := |g|;
    RestFrom(orc, s, g, f, c);
    StillYoungest(s, s', f, c);
    RestFrom(orc, s', g', f, c);
    OlderRest(orc, s, g, s', g', f);
    Regroup(FrameRest(orc, s', g', c), FrameRest(orc, s', g', f), Rest(orc, s, g, f), Rest(orc, s, g, c),
            Rest(orc, s', g', c), FrameRest(orc, s, g, f));
  }

  /** Starting a child does nothing: what the child is going to do comes before what its caller is. */
  lemma {:induction false} StartDoesNothing(orc: Oracle, s: State, g: seq<Spec>, s': State, g': seq<Spec>, f: Id,
                                            child: Body, next: Body)
    requires Follows(s, g, s', g') && |g'| == |g| + 1 && Chain(s) && Unfinished(s, f)
    requires forall y: Id :: y > f ==> !Unfinished(s, y)
    requires forall x: Id :: x != f && x != |g| ==> StaysPut(s, s', x)
    requires s.heap[f].frame.phase.Running? && s.heap[f].frame.pc == Start(child, next) && next.AwaitTask?
    requires !child.AwaitTask?
    requires Unfinished(s', f) && s'.heap[f].frame.pc == next && OwnsAt(s', f, next.slot, |g|)
    requires Unfinished(s', |g|) && s'.heap[|g|].frame.phase.Running? && s'.heap[|g|].frame.pc == child
    requires Eval(orc, child, []) == Some(g'[|g|].outcome)
    ensures Rest(orc, s, g, |g|) == Rest(orc, s', g', |g'|)
  {
    StartedRest(orc, s, g, s', g', f, child, next);
    ChildIsYoungest(orc, s, g, s', g', f);
  }

  lemma StartMoves(orc: Oracle, s: State, g: seq<Spec>, f: Id, child: Body, next: Body)
    requires OnTop(orc, s, g, f) && s.heap[f].frame.phase.Running? && s.heap[f].frame.pc == Start(child, next) && Chain(s)
    ensures var s', c := StartTask(s, f, child, next), |s.heap|;
            && |s'.heap| == c + 1 && (forall y: Id :: y > f ==> !Unfinished(s, y))
            && (forall x: Id :: x != f && x != c ==> StaysPut(s, s', x))
            && next.AwaitTask? && !child.AwaitTask? && Unfinished(s', f) && s'.heap[f].frame.pc == next && OwnsAt(s', f, next.slot, c)
            && s'.heap[c] == Live(NewFrame(child))
  {
    YoungestOf(s, f);
    assert SequentialAt(s.heap[f].frame.pc, |s.heap[f].frame.slots|);
    StartIsSequential(child, next, |s.heap[f].frame.slots|);
    assert Sequential(Start(child, next), |s.heap[f].frame.slots|);
  }

  /** The outcome a new frame is called for is that of its body. */
  lemma {:induction false} NewFrameOutcome(orc: Oracle, s: State, g: seq<Spec>, c: Id, child: Body)
    requires Inv(orc, s, g) && c < |g| && s.heap[c] == Live(NewFrame(child))
    ensures Eval(orc, child, []) == Some(g[c].outcome)
  {
    assert FrameOk(orc, s, g, c);
    assert g[c].env == [];
  }

  lemma {:induction false} AwaitOrder(orc: Oracle, s: State, g: seq<Spec>, f: Id, i: nat, k: imap<Outcome, Body>,
                                      s': State, g': seq<Spec>)
    requires OnTop(orc, s, g, f) && s.heap[f].frame.phase.Running? && s.heap[f].frame.pc == AwaitTask(i, k) && Chain(s)
    requires s' == AwaitChild(s, f, i, k) && Follows(s, g, s', g')
    ensures Rest(orc, s, g, |g|) == Rest(orc, s', g', |g'|)
  {
    assert SlotOk(s, g, f, i);
    var c := s.heap[f].frame.slots[i].task.h.value;
    if s.heap[c].frame.phase.Final? {
      TakeMoves(orc, s, g, f, c);
      TakeDoesNothing(orc, s, g, s', g', f, c);
    } else {
      SuspendMoves(orc, s, g, f, i, k);
      SuspendDoesNothing(orc, s, g, s', g');
    }
  }

  lemma {:induction false} OperationOrder(orc: Oracle, s: State, g: seq<Spec>, f: Id, op: Op, k: imap<Outcome, Body>,
                                          t: Timing, s': State, g': seq<Spec>)
    requires OnTop(orc, s, g, f) && s.heap[f].frame.phase.Running? && s.heap[f].frame.pc == AwaitOp(op, k) && Chain(s)
    requires s' == AwaitOperation(orc, s, f, op, k, t) && Follows(s, g, s', g')
    ensures Rest(orc, s, g, |g|) == (if t.Immediate? then [op] else []) + Rest(orc, s', g', |g'|)
  {
    if t.Immediate? {
      ImmediateMoves(orc, s, g, f, op, k);
      ImmediateDoes(orc, s, g, s', g', f, op, k);
    } else {
      DeferredMoves(orc, s, g, f, op, k, t.request);
      DeferredDoesNothing(orc, s, g, s', g', f);
    }
  }

  /** A coroutine that finishes, or destroys a task object. */
  lemma {:induction false} EndOrder(orc: Oracle, s: State, g: seq<Spec>, f: Id, t: Timing, s': State, g': seq<Spec>)
    requires OnTop(orc, s, g, f) && s.heap[f].frame.phase.Running? && Chain(s)
    requires s.heap[f].frame.pc.Return? || s.heap[f].frame.pc.Throw? || s.heap[f].frame.pc.Drop?
    requires s' == RunTop(orc, s, t) && Follows(s, g, s', g')
    ensures Rest(orc, s, g, |g|) == Rest(orc, s', g', |g'|)
  {
    OwnedAreDone(orc, s, g, f);
    match s.heap[f].frame.pc
    case Return(v) =>
      ReturnDeparts(orc, s, g, f, v);
      FinishMoves(orc, s, g, f, LeaveScope(SetPromise(s, f, Returned(v)), f));
      FinishLeavesNothing(orc, s, g, s', g', f);
    case Throw(code) =>
      ThrowDeparts(orc, s, g, f, code);
      FinishMoves(orc, s, g, f, SetPromise(LeaveScope(s, f), f, Threw(code)));
      FinishLeavesNothing(orc, s, g, s', g', f);
    case Drop(i, next) =>
      DropMovesOne(orc, s, g, f, i, next);
      DropLeavesAll(orc, s, g, s', g', f, i, next);
  }

  lemma {:induction false} StartOrder(orc: Oracle, s: State, g: seq<Spec>, f: Id, child: Body, next: Body, s': State,
                                      g': seq<Spec>)
    requires OnTop(orc, s, g, f) && s.heap[f].frame.phase.Running? && s.heap[f].frame.pc == Start(child, next) && Chain(s)
    requires s' == StartTask(s, f, child, next) && Inv(orc, s', g') && SameOutcomes(g, g')
    ensures Rest(orc, s, g, |g|) == Rest(orc, s', g', |g'|)
  {
    StartMoves(orc, s, g, f, child, next);
    NewFrameOutcome(orc, s', g', |g|, child);
    StartDoesNothing(orc, s, g, s', g', f, child, next);
  }

  lemma {:induction false} RunningOrder(orc: Oracle, s: State, g: seq<Spec>, f: Id, t: Timing, s': State, g': seq<Spec>)
    requires OnTop(orc, s, g, f) && s.heap[f].frame.phase.Running? && Chain(s)
    requires s' == RunTop(orc, s, t) && Inv(orc, s', g') && SameOutcomes(g, g')
    ensures Rest(orc, s, g, |g|) == Does(s, Run(t)) + Rest(orc, s', g', |g'|)
  {
    var fr := s.heap[f].frame;
    assert SequentialAt(fr.pc, |fr.slots|);
    match fr.pc
    case Start(child, next) => StartOrder(orc, s, g, f, child, next, s', g');
    case AwaitTask(i, k) => AwaitOrder(orc, s, g, f, i, k, s', g');
    case AwaitOp(op, k) => OperationOrder(orc, s, g, f, op, k, t, s', g');
    case Move(_, _) =>
    case Detach(_, _) =>
    case _ => EndOrder(orc, s, g, f, t, s', g');
  }

  lemma {:induction false} TopOrder(orc: Oracle, s: State, g: seq<Spec>, f: Id, t: Timing, s': State, g': seq<Spec>)
    requires OnTop(orc, s, g, f) && Chain(s) && s' == RunTop(orc, s, t) && Inv(orc, s', g') && SameOutcomes(g, g')
    ensures Rest(orc, s, g, |g|) == Does(s, Run(t)) + Rest(orc, s', g', |g'|)
  {
    match s.heap[f].frame.phase {
      case ResumingOp =>
        ResumeMoves(orc, s, g, f);
        ResumeDoesNothing(orc, s, g, s', g', f);
      case ResumingTask(c) =>
        TakeMoves(orc, s, g, f, c);
        TakeDoesNothing(orc, s, g, s', g', f, c);
      case _ => RunningOrder(orc, s, g, f, t, s', g');
    }
  }

  /** What is left before a step is what the step does, and then what is left after it. */
  lemma {:induction false} StepOrder(orc: Oracle, s: State, g: seq<Spec>, e: Event, s': State, g': seq<Spec>)
    requires Inv(orc, s, g) && Chain(s) && Enabled(s, e)
    requires s' == Step(orc, s, e) && Inv(orc, s', g') && SameOutcomes(g, g')
    ensures Rest(orc, s, g, |g|) == Does(s, e) + Rest(orc, s', g', |g'|)
  {
    match e
    case Progress(r) =>
      CallbackMoves(orc, s, g, r);
      CallbackDoes(orc, s, g, s', g', s.requests[r].userData);
    case Run(t) =>
      TopIsOnTop(orc, s, g);
      TopOrder(orc, s, g, s.stack[0], t, s', g');
  }

  // --- Runs ---------------------------------------------------------------------------------------

  lemma {:induction false} OrderOverRun(orc: Oracle, s: State, g: seq<Spec>, es: seq<Event>) returns (g': seq<Spec>)
    requires Inv(orc, s, g) && Chain(s) && IsRun(orc, s, es)
    ensures Inv(orc, Exec(orc, s, es), g') && Chain(Exec(orc, s, es)) && SameOutcomes(g, g')
    ensures Rest(orc, s, g, |g|) == DoesAll(orc, s, es) + Rest(orc, Exec(orc, s, es), g', |g'|)
    decreases |es|
  {
    if es == [] {
      g' := g;
    } else {
      var s1 := Step(orc, s, es[0]);
      StepKeepsChain(orc, s, g, es[0]);
      SequentialDestroysFinished(orc, s, g);
      var g1 := StepAdvances(orc, s, g, es[0]);
      StepOrder(orc, s, g, es[0], s1, g1);
      g' := OrderOverRun(orc, s1, g1, es[1..]);
    }
  }

  /** A coroutine that is waiting for an operation, or about to issue it, has that operation to do next. */
  lemma {:induction false} OperationIsNext(orc: Oracle, s: State, g: seq<Spec>, f: Id)
    requires Inv(orc, s, g) && Chain(s) && Unfinished(s, f) && s.heap[f].frame.pc.AwaitOp?
    requires s.heap[f].frame.phase.Running? || s.heap[f].frame.phase.WaitingOp?
    ensures Rest(orc, s, g, |g|) != [] && Rest(orc, s, g, |g|)[0] == s.heap[f].frame.pc.op
  {
    YoungestOf(s, f);
    RestFrom(orc, s, g, f, |g|);
    ContinueProgram(orc, s.heap[f].frame.pc.op, s.heap[f].frame.pc.k);
  }

  lemma {:induction false} FinishedRest(orc: Oracle, s: State, g: seq<Spec>, n: nat)
    requires |g| == |s.heap| && forall f: Id :: !Unfinished(s, f)
    ensures Rest(orc, s, g, n) == []
    decreases n
  {
    if n > 0 {
      FinishedRest(orc, s, g, n - 1);
    }
  }

  /**
    Whatever completes when, a sequential program performs its operations in direct-style order: those
    that a run has completed are the first of them, the one in flight is the next, and a run that
    cannot go on has completed all.
   */
  lemma {:induction false} OperationsInOrder(orc: Oracle, root: Body, o: Outcome, es: seq<Event>)
    requires Eval(orc, root, []) == Some(o) && Sequential(root, 0) && IsRun(orc, Init(root), es)
    ensures var s, done, all := Exec(orc, Init(root), es), DoesAll(orc, Init(root), es), Program(orc, root);
            && done <= all
            && (forall r :: r in s.requests ==> |done| < |all| && all[|done|] == s.requests[r].op)
            && (Quiescent(s) ==> done == all)
  {
    var s0, g0 := Init(root), InitialSpec(orc, root, o);
    InitKeeps(orc, root, o);
    var g := OrderOverRun(orc, s0, g0, es);
    var s, done := Exec(orc, s0, es), DoesAll(orc, s0, es);
    assert Rest(orc, s0, g0, 1) == Program(orc, root) by {
      assert Rest(orc, s0, g0, 0) == [];
      assert Sequential(root, 0);
    }
    var rest := Rest(orc, s, g, |g|);
    assert Program(orc, root) == done + rest;
    forall r | r in s.requests
      ensures rest != [] && rest[0] == s.requests[r].op
    {
      assert FrameOk(orc, s, g, s.requests[r].userData);
      OperationIsNext(orc, s, g, s.requests[r].userData);
    }
    if Quiescent(s) {
      QuiescentIsIdle(orc, s, g);
      forall f: Id | IsLive(s, f)
        ensures s.heap[f].frame.phase.Final?
      {
        IdleMeansDone(orc, s, g, f);
      }
      FinishedRest(orc, s, g, |g|);
    }
  }
}
