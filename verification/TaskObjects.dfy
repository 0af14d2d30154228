/** Task objects and futures over whole runs: who holds a handle, and how often a future is read. */
module TaskObjects {
  import opened Prelude
  import opened Coroutine
  import opened TaskMachine
  import opened TaskInvariant
  import opened TaskSteps
  import opened TaskFinish
  import opened TaskTheorems
  import opened TaskLifetime

  // --- What a step leaves alone -------------------------------------------------------------------

  /** A frame that is there afterwards was there before, with the same locals. */
  predicate SameLocals(s: State, s': State, x: Id) {
    IsLive(s', x) ==> IsLive(s, x) && s'.heap[x].frame.slots == s.heap[x].frame.slots
  }

  /** The same, with its future as it was. */
  predicate SameFuture(s: State, s': State, x: Id) {
    IsLive(s', x) ==> IsLive(s, x) && s'.heap[x].frame.taken == s.heap[x].frame.taken
  }

  predicate SameObjects(s: State, s': State, x: Id) {
    |s'.heap| == |s.heap| && SameLocals(s, s', x) && SameFuture(s, s', x)
  }

  lemma SameAgain(s: State, s1: State, s2: State, x: Id)
    requires SameObjects(s, s1, x) && SameObjects(s1, s2, x)
    ensures SameObjects(s, s2, x)
  {
  }

  lemma DestructKeeps(s: State, t: TaskObject, x: Id)
    ensures SameObjects(s, TaskDestructor(s, t), x)
  {
  }

  lemma {:induction false} LocalsKeepObjects(s: State, slots: seq<Slot>, x: Id)
    ensures SameObjects(s, DestroyLocals(s, slots), x)
    decreases |slots|
  {
    if slots != [] && s.fault.None? {
      var last := slots[|slots| - 1];
      var s1 := if last.Holds? then TaskDestructor(s, last.task) else s;
      if last.Holds? {
        DestructKeeps(s, last.task, x);
      }
      LocalsKeepObjects(s1, slots[..|slots| - 1], x);
      SameAgain(s, s1, DestroyLocals(s, slots), x);
    }
  }

  lemma PromiseKeepsObjects(s: State, f: Id, o: Outcome, x: Id)
    ensures SameObjects(s, SetPromise(s, f, o), x)
  {
  }

  lemma ResumeKeepsObjects(s: State, f: Id, x: Id)
    ensures SameObjects(s, Resume(s, f), x) && SameObjects(s, Destroy(s, f), x)
  {
  }

  lemma FinalKeepsObjects(s: State, f: Id, x: Id)
    ensures SameObjects(s, FinalSuspend(s, f), x)
  {
    if s.fault.None? && IsLive(s, f) {
      var fr := s.heap[f].frame;
      var suspended := Pop(Put(s, f, fr.(phase := Final)));
      assert SameObjects(s, suspended, x);
      match fr.continuation
      case Some(c) =>
        ResumeKeepsObjects(suspended, c, x);
        SameAgain(s, suspended, Resume(suspended, c), x);
      case None =>
        match fr.releaseDetached
        case Some(h) =>
          ResumeKeepsObjects(suspended, h, x);
          SameAgain(s, suspended, Destroy(suspended, h), x);
        case None =>
    }
  }

  lemma ScopeKeepsObjects(s: State, f: Id, x: Id)
    ensures x != f ==> SameObjects(s, LeaveScope(s, f), x)
    ensures x == f ==> SameFuture(s, LeaveScope(s, f), x)
    ensures IsLive(LeaveScope(s, f), f) ==> LeaveScope(s, f).heap[f].frame.slots == []
    ensures |LeaveScope(s, f).heap| == |s.heap|
  {
    if IsLive(s, f) {
      var s1 := Put(s, f, s.heap[f].frame.(slots := []));
      LocalsKeepObjects(s1, s.heap[f].frame.slots, x);
      LocalsKeepObjects(s1, s.heap[f].frame.slots, f);
    }
  }

  /** The step of a coroutine that ends: its locals are gone, and the others are as they were. */
  lemma EndingKeeps(orc: Oracle, s: State, t: Timing, x: Id)
    requires s.stack != [] && IsLive(s, s.stack[0]) && s.heap[s.stack[0]].frame.phase.Running?
    requires s.heap[s.stack[0]].frame.pc.Return? || s.heap[s.stack[0]].frame.pc.Throw?
    ensures var s', f := RunTop(orc, s, t), s.stack[0];
            && |s'.heap| == |s.heap| && SameFuture(s, s', x)
            && (if x != f then SameLocals(s, s', x) else IsLive(s', f) ==> s'.heap[f].frame.slots == [])
  {
    var f := s.stack[0];
    match s.heap[f].frame.pc
    case Return(v) =>
      var s1 := SetPromise(s, f, Returned(v));
      PromiseKeepsObjects(s, f, Returned(v), x);
      ScopeKeepsObjects(s1, f, x);
      FinalKeepsObjects(LeaveScope(s1, f), f, x);
    case Throw(code) =>
      var s1 := LeaveScope(s, f);
      ScopeKeepsObjects(s, f, x);
      PromiseKeepsObjects(s1, f, Threw(code), x);
      FinalKeepsObjects(SetPromise(s1, f, Threw(code)), f, x);
  }

  // --- One task object for each handle ------------------------------------------------------------

  predicate HandleAt(s: State, f: Id, i: nat, c: Id) {
    && IsLive(s, f) && i < |s.heap[f].frame.slots|
    && s.heap[f].frame.slots[i].Holds? && s.heap[f].frame.slots[i].task.h == Some(c)
  }

  /** No two task objects hold one handle, detached or not, and every handle is of a frame. */
  ghost predicate HandlesApart(s: State) {
    && (forall f: Id, i: nat, c: Id :: HandleAt(s, f, i, c) ==> c < |s.heap|)
    && (forall f: Id, i: nat, f': Id, i': nat, c: Id :: HandleAt(s, f, i, c) && HandleAt(s, f', i', c) ==> f == f' && i == i')
  }

  /** A step that takes handles away from one coroutine's locals, at most. */
  lemma {:induction false} FewerHandles(s: State, s': State, f: Id)
    requires HandlesApart(s) && |s'.heap| == |s.heap| && forall x: Id :: x != f ==> SameLocals(s, s', x)
    requires forall i: nat, c: Id :: HandleAt(s', f, i, c) ==> HandleAt(s, f, i, c)
    ensures HandlesApart(s')
  {
    forall x: Id, i: nat, c: Id | HandleAt(s', x, i, c)
      ensures HandleAt(s, x, i, c)
    {
      assert x != f ==> SameLocals(s, s', x);
    }
  }

  lemma {:induction false} StartKeepsApart(s: State, f: Id, child: Body, next: Body)
    requires HandlesApart(s) && IsLive(s, f)
    ensures HandlesApart(StartTask(s, f, child, next))
  {
    var s', n := StartTask(s, f, child, next), |s.heap[f].frame.slots|;
    forall x: Id, i: nat, c: Id | HandleAt(s', x, i, c)
      ensures if x == f && i == n then c == |s.heap| else HandleAt(s, x, i, c)
    {
    }
  }

  lemma {:induction false} MoveKeepsApart(s: State, f: Id, i: nat, next: Body)
    requires HandlesApart(s) && IsLive(s, f)
    ensures HandlesApart(MoveTask(s, f, i, next))
  {
    var s', n := MoveTask(s, f, i, next), |s.heap[f].frame.slots|;
    if i < n && s.heap[f].frame.slots[i].Holds? {
      forall x: Id, j: nat, c: Id | HandleAt(s', x, j, c)
        ensures !(x == f && j == i) && HandleAt(s, x, if x == f && j == n then i else j, c)
      {
      }
    } else {
      FewerHandles(s, s', f);
    }
  }

  lemma {:induction false} EndingKeepsApart(orc: Oracle, s: State, t: Timing)
    requires HandlesApart(s) && s.stack != [] && IsLive(s, s.stack[0]) && s.heap[s.stack[0]].frame.phase.Running?
    requires s.heap[s.stack[0]].frame.pc.Return? || s.heap[s.stack[0]].frame.pc.Throw?
    ensures HandlesApart(RunTop(orc, s, t))
  {
    var f, s' := s.stack[0], RunTop(orc, s, t);
    EndingKeeps(orc, s, t, f);
    forall x: Id | x != f
      ensures SameLocals(s, s', x)
    {
      EndingKeeps(orc, s, t, x);
    }
    FewerHandles(s, s', f);
  }

  lemma {:induction false} AwaitKeepsApart(s: State, f: Id, i: nat, c: Id, k: imap<Outcome, Body>)
    requires HandlesApart(s) && IsLive(s, f)
    ensures HandlesApart(AwaitChild(s, f, i, k)) && HandlesApart(TakeResult(s, f, c, k))
  {
    FewerHandles(s, AwaitChild(s, f, i, k), f);
    FewerHandles(s, TakeResult(s, f, c, k), f);
  }

  lemma {:induction false} DropKeepsApart(s: State, f: Id, i: nat, next: Body)
    requires HandlesApart(s) && IsLive(s, f)
    ensures HandlesApart(DropTask(s, f, i, next)) && HandlesApart(DetachTask(s, f, i, next))
  {
    FewerHandles(s, DropTask(s, f, i, next), f);
    FewerHandles(s, DetachTask(s, f, i, next), f);
  }

  lemma {:induction false} OperationKeepsApart(orc: Oracle, s: State, f: Id, op: Op, k: imap<Outcome, Body>, t: Timing)
    requires HandlesApart(s) && IsLive(s, f)
    ensures HandlesApart(AwaitOperation(orc, s, f, op, k, t)) && HandlesApart(ResumeOperation(s, f))
  {
    FewerHandles(s, AwaitOperation(orc, s, f, op, k, t), f);
    FewerHandles(s, ResumeOperation(s, f), f);
  }

  lemma {:induction false} RunKeepsApart(orc: Oracle, s: State, t: Timing)
    requires HandlesApart(s) && s.stack != [] && IsLive(s, s.stack[0])
    ensures HandlesApart(RunTop(orc, s, t))
  {
    var f := s.stack[0];
    var fr := s.heap[f].frame;
    if fr.phase.ResumingOp? {
      OperationKeepsApart(orc, s, f, Op(SendLike, 0, 0), imap[], t);
    } else if fr.phase.ResumingTask? && fr.pc.AwaitTask? {
      AwaitKeepsApart(s, f, 0, fr.phase.child, fr.pc.k);
    } else if fr.phase.Running? {
      match fr.pc {
        case Return(_) => EndingKeepsApart(orc, s, t);
        case Throw(_) => EndingKeepsApart(orc, s, t);
        case Start(child, next) => StartKeepsApart(s, f, child, next);
        case Move(i, next) => MoveKeepsApart(s, f, i, next);
        case Detach(i, next) => DropKeepsApart(s, f, i, next);
        case Drop(i, next) => DropKeepsApart(s, f, i, next);
        case AwaitTask(i, k) => AwaitKeepsApart(s, f, i, 0, k);
        case AwaitOp(op, k) => OperationKeepsApart(orc, s, f, op, k, t);
      }
    } else {
      FewerHandles(s, RunTop(orc, s, t), f);
    }
  }

  lemma {:induction false} StepKeepsApart(orc: Oracle, s: State, e: Event)
    requires HandlesApart(s) && StackOk(s) && Enabled(s, e)
    ensures HandlesApart(Step(orc, s, e))
  {
    match e
    case Run(t) => RunKeepsApart(orc, s, t);
    case Progress(r) => FewerHandles(s, Step(orc, s, e), s.requests[r].userData);
  }

  lemma {:induction false} ApartOverRun(orc: Oracle, s: State, g: seq<Spec>, es: seq<Event>)
    requires Inv(orc, s, g) && HandlesApart(s) && IsRun(orc, s, es)
    ensures HandlesApart(Exec(orc, s, es))
    decreases |es|
  {
    if es != [] {
      StepKeepsApart(orc, s, es[0]);
      var g1 := StepOutcome(orc, s, g, es[0]);
      if es[1..] != [] {
        assert Enabled(Step(orc, s, es[0]), es[1..][0]);
        ApartOverRun(orc, Step(orc, s, es[0]), g1, es[1..]);
      }
    }
  }

  /** In every reachable state, no two task objects hold the handle of one coroutine: a move takes it along. */
  lemma {:induction false} OneObjectPerTask(orc: Oracle, root: Body, o: Outcome, es: seq<Event>)
    requires Eval(orc, root, []) == Some(o) && IsRun(orc, Init(root), es)
    ensures HandlesApart(Exec(orc, Init(root), es))
  {
    InitKeeps(orc, root, o);
    ApartOverRun(orc, Init(root), InitialSpec(orc, root, o), es);
  }

  // --- Each future is read once -------------------------------------------------------------------

  /** The step reads the future of `c`: an await finds it finished, or is resumed because it is. */
  predicate Reads(s: State, e: Event, c: Id) {
    && e.Run? && s.stack != [] && IsLive(s, s.stack[0]) && s.heap[s.stack[0]].frame.pc.AwaitTask?
    && var fr := s.heap[s.stack[0]].frame;
       || fr.phase == ResumingTask(c)
       || (fr.phase.Running? && HandleAt(s, s.stack[0], fr.pc.slot, c) && IsLive(s, c) && s.heap[c].frame.phase.Final?)
  }

  predicate Taken(s: State, c: Id) {
    IsLive(s, c) && s.heap[c].frame.taken
  }

  /** How often the run reads the future of `c`. */
  function ReadsOf(orc: Oracle, s: State, es: seq<Event>, c: Id): nat
    decreases |es|
  {
    if es == [] then 0 else (if Reads(s, es[0], c) then 1 else 0) + ReadsOf(orc, Step(orc, s, es[0]), es[1..], c)
  }

  /** What a step says of the future of `c`: it reads it, which it finds unread, or it does not touch it. */
  predicate ReadsOrKeeps(s: State, e: Event, s': State, c: Id) {
    && (Reads(s, e, c) ==> IsLive(s, c) && !Taken(s, c) && Taken(s', c))
    && (!Reads(s, e, c) && IsLive(s', c) ==> Taken(s', c) == Taken(s, c))
  }

  lemma {:induction false} AwaitReads(orc: Oracle, s: State, g: seq<Spec>, f: Id, t: Timing, c: Id)
    requires OnTop(orc, s, g, f) && s.heap[f].frame.pc.AwaitTask?
    requires s.heap[f].frame.phase.Running? || s.heap[f].frame.phase.ResumingTask?
    ensures ReadsOrKeeps(s, Run(t), RunTop(orc, s, t), c)
  {
    var i := s.heap[f].frame.pc.slot;
    assert SlotOk(s, g, f, i);
    assert FrameOk(orc, s, g, s.heap[f].frame.slots[i].task.h.value);
  }

  lemma {:induction false} RunReads(orc: Oracle, s: State, g: seq<Spec>, f: Id, t: Timing, c: Id)
    requires OnTop(orc, s, g, f) && !s.heap[f].frame.pc.AwaitTask?
    requires !s.heap[f].frame.pc.Return? && !s.heap[f].frame.pc.Throw?
    ensures ReadsOrKeeps(s, Run(t), RunTop(orc, s, t), c)
  {
  }

  lemma {:induction false} StepReads(orc: Oracle, s: State, g: seq<Spec>, e: Event, c: Id)
    requires Inv(orc, s, g) && Enabled(s, e)
    ensures ReadsOrKeeps(s, e, Step(orc, s, e), c)
  {
    match e
    case Progress(r) =>
      assert FrameOk(orc, s, g, s.requests[r].userData);
    case Run(t) =>
      TopIsOnTop(orc, s, g);
      var f := s.stack[0];
      var fr := s.heap[f].frame;
      if fr.pc.AwaitTask? {
        AwaitReads(orc, s, g, f, t, c);
      } else if fr.pc.Return? || fr.pc.Throw? {
        EndingKeeps(orc, s, t, c);
      } else {
        RunReads(orc, s, g, f, t, c);
      }
  }

  lemma {:induction false} ReadAccounting(orc: Oracle, s: State, g: seq<Spec>, es: seq<Event>, c: Id)
    requires Inv(orc, s, g) && IsRun(orc, s, es)
    ensures var s', n := Exec(orc, s, es), ReadsOf(orc, s, es, c);
            s'.fault.None? ==>
              && (if Taken(s, c) || FreedCell(s, c) then n == 0 else n <= 1)
              && (IsLive(s', c) ==> (Taken(s', c) <==> Taken(s, c) || n == 1))
              && (FreedCell(s, c) ==> FreedCell(s', c))
    decreases |es|
  {
    if es != [] {
      var s1 := Step(orc, s, es[0]);
      var g1 := StepOutcome(orc, s, g, es[0]);
      if s1.fault.None? {
        StepReads(orc, s, g, es[0], c);
        StepLeaks(orc, s, g, es[0], c);
        ReadAccounting(orc, s1, g1, es[1..], c);
        if Exec(orc, s, es).fault.None? {
          CountReads(s, es[0], s1, c, ReadsOf(orc, s1, es[1..], c), Exec(orc, s, es));
        }
      }
    }
  }

  lemma CountReads(s: State, e: Event, s1: State, c: Id, n: nat, s': State)
    requires ReadsOrKeeps(s, e, s1, c) && (FreedCell(s, c) ==> FreedCell(s1, c))
    requires if Taken(s1, c) || FreedCell(s1, c) then n == 0 else n <= 1
    requires IsLive(s', c) ==> (Taken(s', c) <==> Taken(s1, c) || n == 1)
    requires |s.heap| <= |s1.heap| && (FreedCell(s1, c) ==> FreedCell(s', c))
    ensures var m := (if Reads(s, e, c) then 1 else 0) + n;
            && (if Taken(s, c) || FreedCell(s, c) then m == 0 else m <= 1)
            && (IsLive(s', c) ==> (Taken(s', c) <==> Taken(s, c) || m == 1))
  {
  }

  /** Over every run no future is read twice, and one whose frame is left is marked exactly if it was read. */
  lemma {:induction false} FutureReadOnce(orc: Oracle, root: Body, o: Outcome, es: seq<Event>, c: Id)
    requires Eval(orc, root, []) == Some(o) && IsRun(orc, Init(root), es)
    ensures var s, n := Exec(orc, Init(root), es), ReadsOf(orc, Init(root), es, c);
            s.fault.None? ==> n <= 1 && (IsLive(s, c) ==> (s.heap[c].frame.taken <==> n == 1))
  {
    InitKeeps(orc, root, o);
    ReadAccounting(orc, Init(root), InitialSpec(orc, root, o), es, c);
  }
}
