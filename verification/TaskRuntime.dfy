/**
  The task machine as a running program: one object whose fields are the frames, the coroutines
  being executed and the requests in flight, updated in place by the operations of `task` and of the
  awaitables. Each method is proved to do to the fields what its TaskMachine function does to a state.
 */
module TaskRuntime {
  import opened Prelude
  import opened Coroutine
  import opened TaskMachine
  import opened TaskInvariant
  import opened TaskTheorems

  class Runtime {
    var heap: seq<Cell>
    var stack: seq<Id>
    var requests: map<nat, Request>
    var fault: Option<Fault>

    function Snapshot(): State
      reads this
    {
      State(heap, stack, requests, fault)
    }

    constructor (root: Body)
      ensures Snapshot() == Init(root)
    {
      heap, stack, requests, fault := [Live(NewFrame(root))], [0], map[], None;
    }

    method Raise(f: Fault)
      modifies this`fault
      ensures Snapshot() == Fail(old(Snapshot()), f)
    {
      if fault.None? {
        fault := Some(f);
      }
    }

    method Suspend()
      modifies this`stack
      ensures Snapshot() == Pop(old(Snapshot()))
    {
      if stack != [] {
        stack := stack[1..];
      }
    }

    method ResumeHandle(f: Id)
      modifies this
      ensures Snapshot() == Resume(old(Snapshot()), f)
    {
      if !IsLive(Snapshot(), f) {
        Raise(UseAfterDestroy);
        return;
      }
      match heap[f].frame.phase {
        case WaitingOp =>
          heap := heap[f := Live(heap[f].frame.(phase := ResumingOp))];
          stack := [f] + stack;
        case WaitingTask(c) =>
          heap := heap[f := Live(heap[f].frame.(phase := ResumingTask(c)))];
          stack := [f] + stack;
        case _ => Raise(ResumeNotSuspended);
      }
    }

    method DestroyHandle(f: Id)
      modifies this
      ensures Snapshot() == Destroy(old(Snapshot()), f)
    {
      if IsLive(Snapshot(), f) {
        heap := heap[f := Freed];
      } else {
        Raise(UseAfterDestroy);
      }
    }

    method StoreOutcome(f: Id, o: Outcome)
      modifies this
      ensures Snapshot() == SetPromise(old(Snapshot()), f, o)
    {
      if fault.Some? {
        return;
      }
      if !IsLive(Snapshot(), f) {
        Raise(UseAfterDestroy);
      } else if heap[f].frame.promise.Some? {
        Raise(PromiseAlreadySatisfied);
      } else {
        heap := heap[f := Live(heap[f].frame.(promise := Some(o)))];
      }
    }

    /** `final_suspend().await_suspend(...)`. */
    method ReachFinalSuspend(f: Id)
      modifies this
      ensures Snapshot() == FinalSuspend(old(Snapshot()), f)
    {
      if fault.Some? {
        return;
      }
      if !IsLive(Snapshot(), f) {
        Raise(UseAfterDestroy);
        return;
      }
      heap := heap[f := Live(heap[f].frame.(phase := Final))];
      Suspend();
      match heap[f].frame.continuation {
        case Some(c) => ResumeHandle(c);
        case None =>
          match heap[f].frame.releaseDetached {
            case Some(h) => DestroyHandle(h);
            case None =>
          }
      }
    }

    method DestructTask(t: TaskObject)
      modifies this
      ensures Snapshot() == TaskDestructor(old(Snapshot()), t)
    {
      if t.detached {
        return;
      }
      match t.h {
        case None => Raise(NullHandle);
        case Some(c) =>
          if !IsLive(Snapshot(), c) {
            Raise(UseAfterDestroy);
          } else if !heap[c].frame.phase.Final? {
            heap := heap[c := Live(heap[c].frame.(releaseDetached := Some(c)))];
            Raise(BlockedForever);
          } else {
            DestroyHandle(c);
          }
      }
    }

    /** Destroys the locals of `f`, the youngest first, unless one blocks the thread. */
    method ExitScope(f: Id)
      modifies this
      ensures Snapshot() == LeaveScope(old(Snapshot()), f)
    {
      if !IsLive(Snapshot(), f) {
        Raise(UseAfterDestroy);
        return;
      }
      var slots := heap[f].frame.slots;
      heap := heap[f := Live(heap[f].frame.(slots := []))];
      ghost var result := DestroyLocals(Snapshot(), slots);
      var i := |slots|;
      assert slots[..i] == slots;
      while i > 0 && fault.None?
        invariant 0 <= i <= |slots|
        invariant DestroyLocals(Snapshot(), slots[..i]) == result
      {
        i := i - 1;
        assert slots[..i + 1][..i] == slots[..i];
        if slots[i].Holds? {
          DestructTask(slots[i].task);
        }
      }
    }

    method CallCoroutine(f: Id, child: Body, next: Body)
      modifies this
      ensures Snapshot() == StartTask(old(Snapshot()), f, child, next)
    {
      if !IsLive(Snapshot(), f) {
        Raise(UseAfterDestroy);
        return;
      }
      var c := |heap|;
      var fr := heap[f].frame;
      heap := heap[f := Live(fr.(pc := next, slots := fr.slots + [Holds(TaskObject(Some(c), false))]))];
      heap := heap + [Live(NewFrame(child))];
      stack := [c] + stack;
    }

    method MoveConstruct(f: Id, i: nat, next: Body)
      modifies this
      ensures Snapshot() == MoveTask(old(Snapshot()), f, i, next)
    {
      if !IsLive(Snapshot(), f) {
        Raise(UseAfterDestroy);
        return;
      }
      var fr := heap[f].frame;
      if i < |fr.slots| && fr.slots[i].Holds? {
        var other := fr.slots[i];
        heap := heap[f := Live(fr.(pc := next, slots := fr.slots[i := Holds(TaskObject(None, true))] + [other]))];
      } else {
        Raise(NoSuchLocal);
      }
    }

    method CallDetach(f: Id, i: nat, next: Body)
      modifies this
      ensures Snapshot() == DetachTask(old(Snapshot()), f, i, next)
    {
      if !IsLive(Snapshot(), f) {
        Raise(UseAfterDestroy);
        return;
      }
      var fr := heap[f].frame;
      if !(i < |fr.slots| && fr.slots[i].Holds?) {
        Raise(NoSuchLocal);
      } else if fr.slots[i].task.detached {
        Raise(AssertionFailed);
      } else {
        match fr.slots[i].task.h {
          case None => Raise(NullHandle);
          case Some(c) =>
            if IsLive(Snapshot(), c) {
              heap := heap[f := Live(fr.(pc := next, slots := fr.slots[i := Holds(TaskObject(Some(c), true))]))];
              heap := heap[c := Live(heap[c].frame.(releaseDetached := Some(c)))];
            } else {
              Raise(UseAfterDestroy);
            }
        }
      }
    }

    method EndLocal(f: Id, i: nat, next: Body)
      modifies this
      ensures Snapshot() == DropTask(old(Snapshot()), f, i, next)
    {
      if !IsLive(Snapshot(), f) {
        Raise(UseAfterDestroy);
        return;
      }
      var fr := heap[f].frame;
      if i < |fr.slots| && fr.slots[i].Holds? {
        heap := heap[f := Live(fr.(pc := next, slots := fr.slots[i := Empty]))];
        DestructTask(fr.slots[i].task);
      } else {
        Raise(NoSuchLocal);
      }
    }

    /** `task_awaiter::await_resume`. */
    method ReadFuture(f: Id, c: Id, k: imap<Outcome, Body>)
      modifies this
      ensures Snapshot() == TakeResult(old(Snapshot()), f, c, k)
    {
      if !IsLive(Snapshot(), f) || !IsLive(Snapshot(), c) {
        Raise(UseAfterDestroy);
      } else if heap[c].frame.taken {
        Raise(FutureAlreadyTaken);
      } else {
        match heap[c].frame.promise {
          case None => Raise(BlockedForever);
          case Some(o) =>
            heap := heap[c := Live(heap[c].frame.(taken := true))];
            heap := heap[f := Live(heap[f].frame.(pc := Continue(k, o), phase := Running))];
        }
      }
    }

    /** `co_await task`: `await_ready`, then `await_suspend` or `await_resume`. */
    method AwaitTaskObject(f: Id, i: nat, k: imap<Outcome, Body>)
      modifies this
      ensures Snapshot() == AwaitChild(old(Snapshot()), f, i, k)
    {
      if !IsLive(Snapshot(), f) {
        Raise(UseAfterDestroy);
        return;
      }
      var fr := heap[f].frame;
      if !(i < |fr.slots| && fr.slots[i].Holds?) {
        Raise(NoSuchLocal);
        return;
      }
      match fr.slots[i].task.h {
        case None => Raise(NullHandle);
        case Some(c) =>
          if !IsLive(Snapshot(), c) {
            Raise(UseAfterDestroy);
          } else if heap[c].frame.phase.Final? {
            ReadFuture(f, c, k);
          } else {
            heap := heap[f := Live(fr.(phase := WaitingTask(c)))];
            heap := heap[c := Live(heap[c].frame.(continuation := Some(f)))];
            Suspend();
          }
      }
    }

    /** `co_await` of a UCX operation: `await_ready`, then `await_suspend` or `await_resume`. */
    method AwaitUcx(orc: Oracle, f: Id, op: Op, k: imap<Outcome, Body>, t: Timing)
      modifies this
      ensures Snapshot() == AwaitOperation(orc, old(Snapshot()), f, op, k, t)
    {
      if !IsLive(Snapshot(), f) {
        Raise(UseAfterDestroy);
        return;
      }
      var ptr: StatusPtr;
      match t {
        case Deferred(r) =>
          requests := requests[r := Request(f, op)];
          ptr := Pointer(r);
        case Immediate =>
          ptr := match orc(op).error case Some(code) => Error(code) case None => Null;
      }
      var (a, ready) := AwaitReady(NewAwaitable(op.kind), ptr, orc(op));
      var suspend := false;
      if !ready {
        var suspended := AwaitSuspend(a, f);
        a, suspend := suspended.0, suspended.1;
      }
      if suspend {
        heap := heap[f := Live(heap[f].frame.(awaitable := a, phase := WaitingOp))];
        Suspend();
      } else {
        heap := heap[f := Live(heap[f].frame.(awaitable := a, pc := Continue(k, AwaitResume(a))))];
      }
    }

    method FinishAwait(f: Id)
      modifies this
      ensures Snapshot() == ResumeOperation(old(Snapshot()), f)
    {
      if !IsLive(Snapshot(), f) {
        Raise(UseAfterDestroy);
      } else if !heap[f].frame.pc.AwaitOp? {
        Raise(NoSuchLocal);
      } else {
        var fr := heap[f].frame;
        var o := AwaitResume(fr.awaitable);
        if fr.awaitable.kind.TagRecv? {
          fr := fr.(awaitable := fr.awaitable.(request := None));
        }
        heap := heap[f := Live(fr.(pc := Continue(fr.pc.k, o), phase := Running))];
      }
    }

    method RunCoroutine(orc: Oracle, t: Timing)
      modifies this
      ensures Snapshot() == RunTop(orc, old(Snapshot()), t)
    {
      if stack == [] {
        return;
      }
      var f := stack[0];
      if !IsLive(Snapshot(), f) {
        Raise(UseAfterDestroy);
        return;
      }
      match heap[f].frame.phase {
        case ResumingOp => FinishAwait(f);
        case ResumingTask(c) =>
          if heap[f].frame.pc.AwaitTask? {
            ReadFuture(f, c, heap[f].frame.pc.k);
          } else {
            Raise(NoSuchLocal);
          }
        case Running =>
          match heap[f].frame.pc {
            case Return(v) =>
              StoreOutcome(f, Returned(v));
              ExitScope(f);
              ReachFinalSuspend(f);
            case Throw(code) =>
              ExitScope(f);
              StoreOutcome(f, Threw(code));
              ReachFinalSuspend(f);
            case Start(child, next) => CallCoroutine(f, child, next);
            case Move(i, next) => MoveConstruct(f, i, next);
            case Detach(i, next) => CallDetach(f, i, next);
            case Drop(i, next) => EndLocal(f, i, next);
            case AwaitTask(i, k) => AwaitTaskObject(f, i, k);
            case AwaitOp(op, k) => AwaitUcx(orc, f, op, k, t);
          }
        case _ => Raise(ResumeNotSuspended);
      }
    }

    /** `send_cb`, `stream_recv_cb` or `tag_recv_cb`: fill the awaitable, free the request, resume. */
    method CompletionCallback(orc: Oracle, r: nat)
      modifies this
      ensures Snapshot() == FireCallback(orc, old(Snapshot()), r)
    {
      if r !in requests {
        return;
      }
      var f := requests[r].userData;
      if !IsLive(Snapshot(), f) {
        Raise(UseAfterDestroy);
        return;
      }
      var a := OnCompletion(heap[f].frame.awaitable, orc(requests[r].op));
      heap := heap[f := Live(heap[f].frame.(awaitable := a))];
      requests := requests - {r};
      match a.h {
        case None => Raise(NullHandle);
        case Some(h) => ResumeHandle(h);
      }
    }

    /**
      The main loop of a program: run what can run, and call `progress` when nothing can. Which
      operations complete at once, the ids of the others and the order of their callbacks are left
      to chance. It performs a run of the machine, and always ends: with the root's outcome in its
      promise, or in the destructor of a task object that owns an unfinished coroutine.
     */
    method Drive(orc: Oracle, ghost root: Body, ghost o: Outcome) returns (ghost trace: seq<Event>)
      requires Snapshot() == Init(root) && Eval(orc, root, []) == Some(o)
      modifies this
      ensures IsRun(orc, Init(root), trace) && Snapshot() == Exec(orc, Init(root), trace)
      ensures fault == if EndsInDestructor(orc, Init(root), trace) then Some(BlockedForever) else None
      ensures Tidy(orc, root, []) ==> fault.None?
      ensures fault.None? ==> stack == [] && requests == map[]
      ensures fault.None? ==>
                IsLive(Snapshot(), 0) && heap[0].frame.phase.Final? && heap[0].frame.promise == Some(o)
    {
      ghost var g := InitialSpec(orc, root, o);
      trace := [];
      InitKeeps(orc, root, o);
      while fault.None? && (stack != [] || requests != map[])
        invariant IsRun(orc, Init(root), trace) && Snapshot() == Exec(orc, Init(root), trace)
        invariant fault.None? ==> Inv(orc, Snapshot(), g)
        decreases fault.None?, if fault.None? then Measure(orc, Snapshot(), g) else 0
      {
        ghost var before := Snapshot();
        if stack != [] {
          var timing := Immediate;
          if * {
            FreshRequest(requests);
            var r: nat :| r !in requests;
            timing := Deferred(r);
          }
          RunCoroutine(orc, timing);
          g := StepOutcome(orc, before, g, Run(timing));
          RunExtends(orc, Init(root), trace, Run(timing));
          trace := trace + [Run(timing)];
        } else {
          var r :| r in requests;
          CompletionCallback(orc, r);
          g := StepOutcome(orc, before, g, Progress(r));
          RunExtends(orc, Init(root), trace, Progress(r));
          trace := trace + [Progress(r)];
        }
      }
      AwaitTransparency(orc, root, o, trace);
      if Tidy(orc, root, []) {
        TidyNeverBlocks(orc, root, o, trace);
      }
    }
  }

  lemma {:induction false} RunExtends(orc: Oracle, s: State, es: seq<Event>, e: Event)
    requires IsRun(orc, s, es) && Enabled(Exec(orc, s, es), e)
    ensures IsRun(orc, s, es + [e]) && Exec(orc, s, es + [e]) == Step(orc, Exec(orc, s, es), e)
    decreases |es|
  {
    if es == [] {
      assert [e][1..] == [];
    } else {
      assert (es + [e])[1..] == es[1..] + [e];
      RunExtends(orc, Step(orc, s, es[0]), es[1..], e);
    }
  }

  /** There is always a request id that is not in flight. */
  lemma FreshRequest(m: map<nat, Request>)
    ensures exists r: nat :: r !in m
  {
    var r := Above(m.Keys);
    assert r !in m;
  }

  lemma {:induction false} Above(s: set<nat>) returns (r: nat)
    ensures forall x :: x in s ==> x < r
  {
    if s == {} {
      r := 0;
    } else {
      var x :| x in s;
      var r' := Above(s - {x});
      r := if x < r' then r' else x + 1;
      forall y | y in s
        ensures y < r
      {
        if y != x {
          assert y in s - {x};
        }
      }
    }
  }
}
