/**
  The machine that coroutines, tasks and awaitables run on, as functions on states: a heap of
  coroutine frames, the stack of coroutines being executed, and the UCX requests in flight.

  Every operation is total. An action that C++ leaves undefined, or that would block the only
  thread for ever, sets `fault`; a state with a fault has no further steps.
 */
module TaskMachine {
  import opened Prelude
  import opened Coroutine

  type Id = nat

  /** `task<T>`: a handle to a frame and the mark that the object no longer owns it. */
  datatype TaskObject = TaskObject(h: Option<Id>, detached: bool)

  datatype Slot = Empty | Holds(task: TaskObject)

  datatype Status = Ok | InProgress | Failed(code: int)

  /**
    The fields of the three awaitable classes; each kind uses the ones its class declares. `buffer` is
    the content of the buffer that a receive points to.
   */
  datatype Awaitable = Awaitable(
    kind: Kind, status: Status, h: Option<Id>,
    received: nat, buffer: seq<byte>, infoLength: nat, infoTag: nat, request: Option<nat>)

  /** `ucs_status_ptr_t`: what a UCX call returns. */
  datatype StatusPtr = Null | Error(code: int) | Pointer(request: nat)

  /** Where a coroutine is; at WaitingTask and ResumingTask it holds a `task_awaiter`. */
  datatype Phase =
    | Running
    | WaitingOp
    | ResumingOp
    | WaitingTask(child: Id)
    | ResumingTask(child: Id)
    | Final

  /** A coroutine frame: its suspended body, its locals and its promise. */
  datatype Frame = Frame(
    pc: Body, phase: Phase, slots: seq<Slot>, awaitable: Awaitable,
    promise: Option<Outcome>, taken: bool,
    continuation: Option<Id>, releaseDetached: Option<Id>)

  datatype Cell = Freed | Live(frame: Frame)

  /** A request in flight: the awaitable given as user data, named by its frame, and the operation. */
  datatype Request = Request(userData: Id, op: Op)

  datatype Fault =
    | UseAfterDestroy        // a destroyed frame is resumed, read or destroyed again
    | NullHandle
    | ResumeNotSuspended     // resuming a coroutine that is running or at its final suspension
    | PromiseAlreadySatisfied
    | FutureAlreadyTaken
    | BlockedForever         // `future::get` on a task that is not done, on the only thread
    | AssertionFailed        // `detach` on a task that was detached
    | NoSuchLocal            // not a program: the body names a local it does not have

  datatype State = State(heap: seq<Cell>, stack: seq<Id>, requests: map<nat, Request>, fault: Option<Fault>)

  /** When an operation issued by this step completes: at once, or later, under a request id. */
  datatype Timing = Immediate | Deferred(request: nat)

  /** A step: run the coroutine on top of the stack, or let `progress` fire one callback. */
  datatype Event = Run(timing: Timing) | Progress(request: nat)

  // ------------------------------------------------------------------------------------------------
  // Awaitables

  function NewAwaitable(kind: Kind): Awaitable {
    Awaitable(kind, Ok, None, 0, [], 0, 0, None)
  }

  function CheckRequestReady(a: Awaitable, ptr: StatusPtr): (Awaitable, bool) {
    match ptr
    case Pointer(_) => (a.(status := InProgress), false)
    case Error(code) => (a.(status := Failed(code)), true)
    case Null => (a.(status := Ok), true)
  }

  /** What UCX writes through the awaitable's out-pointers when the call completes at once. */
  function FillOutputs(a: Awaitable, c: Completion): Awaitable {
    match a.kind
    case SendLike => a
    case StreamRecv => a.(received := c.length, buffer := c.buffer)
    case TagRecv => a.(infoLength := c.length, infoTag := c.tag)
  }

  /** `await_ready` after the UCX call returned `ptr`. */
  function AwaitReady(a: Awaitable, ptr: StatusPtr, c: Completion): (Awaitable, bool) {
    var filled := if ptr.Null? then FillOutputs(a, c) else a;
    var (checked, ready) := CheckRequestReady(filled, ptr);
    if ready || a.kind.SendLike? then (checked, ready)
    else (checked.(request := Some(ptr.request)), ready)
  }

  /** `await_suspend`: remember the coroutine; suspend it only while the request is in progress. */
  function AwaitSuspend(a: Awaitable, h: Id): (Awaitable, bool) {
    (a.(h := Some(h)), a.status == InProgress)
  }

  /** The completion callback's writes to the awaitable it gets as user data. */
  function OnCompletion(a: Awaitable, c: Completion): Awaitable {
    var a1 := a.(status := match c.error case Some(code) => Failed(code) case None => Ok);
    FillOutputs(a1, c)
  }

  /** `await_resume`: an error status throws; any other status, in progress included, returns. */
  function AwaitResume(a: Awaitable): Outcome {
    match a.status
    case Failed(code) => Threw(code)
    case _ =>
      match a.kind
      case SendLike => Returned(Unit)
      case StreamRecv => Returned(Count(a.received, a.buffer))
      case TagRecv => Returned(Tagged(a.infoLength, a.infoTag))
  }

  // ------------------------------------------------------------------------------------------------
  // Frames and handles

  predicate IsLive(s: State, f: Id) {
    f < |s.heap| && s.heap[f].Live?
  }

  function Fail(s: State, fault: Fault): State {
    if s.fault.None? then s.(fault := Some(fault)) else s
  }

  function Put(s: State, f: Id, fr: Frame): State
    requires f < |s.heap|
  {
    s.(heap := s.heap[f := Live(fr)])
  }

  function Pop(s: State): State {
    s.(stack := if s.stack == [] then [] else s.stack[1..])
  }

  function NewFrame(b: Body): Frame {
    Frame(b, Running, [], NewAwaitable(SendLike), None, false, None, None)
  }

  /** `coroutine_handle::resume`. */
  function Resume(s: State, f: Id): State {
    if !IsLive(s, f) then Fail(s, UseAfterDestroy)
    else
      var fr := s.heap[f].frame;
      match fr.phase
      case WaitingOp => Put(s, f, fr.(phase := ResumingOp)).(stack := [f] + s.stack)
      case WaitingTask(c) => Put(s, f, fr.(phase := ResumingTask(c))).(stack := [f] + s.stack)
      case _ => Fail(s, ResumeNotSuspended)
  }

  /** `coroutine_handle::destroy`. */
  function Destroy(s: State, f: Id): State {
    if !IsLive(s, f) then Fail(s, UseAfterDestroy) else s.(heap := s.heap[f := Freed])
  }

  /** `return_value`, `return_void` or `unhandled_exception`. */
  function SetPromise(s: State, f: Id, o: Outcome): State {
    if s.fault.Some? then s
    else if !IsLive(s, f) then Fail(s, UseAfterDestroy)
    else if s.heap[f].frame.promise.Some? then Fail(s, PromiseAlreadySatisfied)
    else Put(s, f, s.heap[f].frame.(promise := Some(o)))
  }

  /** Final suspension: transfer to the continuation, or free a detached frame, or just stop. */
  function FinalSuspend(s: State, f: Id): State {
    if s.fault.Some? then s
    else if !IsLive(s, f) then Fail(s, UseAfterDestroy)
    else
      var fr := s.heap[f].frame;
      var suspended := Pop(Put(s, f, fr.(phase := Final)));
      match fr.continuation
      case Some(c) => Resume(suspended, c)
      case None =>
        match fr.releaseDetached
        case Some(h) => Destroy(suspended, h)
        case None => suspended
  }

  /** `task::~task`; a task that is not done makes the thread wait for a future nobody can fulfil. */
  function TaskDestructor(s: State, t: TaskObject): State {
    if t.detached then s
    else match t.h
      case None => Fail(s, NullHandle)
      case Some(c) =>
        if !IsLive(s, c) then Fail(s, UseAfterDestroy)
        else if !s.heap[c].frame.phase.Final? then
          Fail(Put(s, c, s.heap[c].frame.(releaseDetached := Some(c))), BlockedForever)
        else Destroy(s, c)
  }

  /** Leaving a coroutine's scope destroys its locals, the youngest first, unless one blocks the thread. */
  function DestroyLocals(s: State, slots: seq<Slot>): State
    decreases |slots|
  {
    if slots == [] || s.fault.Some? then s
    else
      var last := slots[|slots| - 1];
      DestroyLocals(if last.Holds? then TaskDestructor(s, last.task) else s, slots[..|slots| - 1])
  }

  function LeaveScope(s: State, f: Id): State {
    if !IsLive(s, f) then Fail(s, UseAfterDestroy)
    else
      var fr := s.heap[f].frame;
      DestroyLocals(Put(s, f, fr.(slots := [])), fr.slots)
  }

  // ------------------------------------------------------------------------------------------------
  // What one coroutine does

  /** Calling a coroutine function: the new frame starts at once, on top of its caller. */
  function StartTask(s: State, f: Id, child: Body, next: Body): State {
    if !IsLive(s, f) then Fail(s, UseAfterDestroy)
    else
      var fr := s.heap[f].frame;
      var c := |s.heap|;
      var s1 := Put(s, f, fr.(pc := next, slots := fr.slots + [Holds(TaskObject(Some(c), false))]));
      s1.(heap := s1.heap + [Live(NewFrame(child))], stack := [c] + s.stack)
  }

  /** The move constructor: the new object takes the handle, the old one is left detached and null. */
  function MoveTask(s: State, f: Id, i: nat, next: Body): State {
    if !IsLive(s, f) then Fail(s, UseAfterDestroy)
    else
      var fr := s.heap[f].frame;
      if !(i < |fr.slots| && fr.slots[i].Holds?) then Fail(s, NoSuchLocal)
      else
        var slots := fr.slots[i := Holds(TaskObject(None, true))] + [fr.slots[i]];
        Put(s, f, fr.(pc := next, slots := slots))
  }

  /** `task::detach`. */
  function DetachTask(s: State, f: Id, i: nat, next: Body): State {
    if !IsLive(s, f) then Fail(s, UseAfterDestroy)
    else
      var fr := s.heap[f].frame;
      if !(i < |fr.slots| && fr.slots[i].Holds?) then Fail(s, NoSuchLocal)
      else if fr.slots[i].task.detached then Fail(s, AssertionFailed)
      else match fr.slots[i].task.h
        case None => Fail(s, NullHandle)
        case Some(c) =>
          if !IsLive(s, c) then Fail(s, UseAfterDestroy)
          else
            var s1 := Put(s, f, fr.(pc := next, slots := fr.slots[i := Holds(TaskObject(Some(c), true))]));
            Put(s1, c, s1.heap[c].frame.(releaseDetached := Some(c)))
  }

  /** A task object whose scope ends before its coroutine does. */
  function DropTask(s: State, f: Id, i: nat, next: Body): State {
    if !IsLive(s, f) then Fail(s, UseAfterDestroy)
    else
      var fr := s.heap[f].frame;
      if !(i < |fr.slots| && fr.slots[i].Holds?) then Fail(s, NoSuchLocal)
      else TaskDestructor(Put(s, f, fr.(pc := next, slots := fr.slots[i := Empty])), fr.slots[i].task)
  }

  /** `task_awaiter::await_resume`: read the child's future and go on. */
  function TakeResult(s: State, f: Id, c: Id, k: imap<Outcome, Body>): State {
    if !IsLive(s, f) || !IsLive(s, c) then Fail(s, UseAfterDestroy)
    else
      var child := s.heap[c].frame;
      if child.taken then Fail(s, FutureAlreadyTaken)
      else match child.promise
        case None => Fail(s, BlockedForever)
        case Some(o) =>
          var s1 := Put(s, c, child.(taken := true));
          Put(s1, f, s1.heap[f].frame.(pc := Continue(k, o), phase := Running))
  }

  /** `co_await task`: go on at once if it is done, else become its continuation. */
  function AwaitChild(s: State, f: Id, i: nat, k: imap<Outcome, Body>): State {
    if !IsLive(s, f) then Fail(s, UseAfterDestroy)
    else
      var fr := s.heap[f].frame;
      if !(i < |fr.slots| && fr.slots[i].Holds?) then Fail(s, NoSuchLocal)
      else match fr.slots[i].task.h
        case None => Fail(s, NullHandle)
        case Some(c) =>
          if !IsLive(s, c) then Fail(s, UseAfterDestroy)
          else if s.heap[c].frame.phase.Final? then TakeResult(s, f, c, k)
          else
            var s1 := Put(s, f, fr.(phase := WaitingTask(c)));
            Pop(Put(s1, c, s1.heap[c].frame.(continuation := Some(f))))
  }

  /** `co_await` of a UCX operation: `await_ready` issues it and `await_suspend` decides. */
  function AwaitOperation(orc: Oracle, s: State, f: Id, op: Op, k: imap<Outcome, Body>, t: Timing): State {
    if !IsLive(s, f) then Fail(s, UseAfterDestroy)
    else
      var fr := s.heap[f].frame;
      var c := orc(op);
      var ptr := match t
        case Deferred(r) => Pointer(r)
        case Immediate => (match c.error case Some(code) => Error(code) case None => Null);
      var issued := if t.Deferred? then s.(requests := s.requests[t.request := Request(f, op)]) else s;
      var (a1, ready) := AwaitReady(NewAwaitable(op.kind), ptr, c);
      if ready then Put(issued, f, fr.(pc := Continue(k, AwaitResume(a1)), awaitable := a1))
      else
        var (a2, suspend) := AwaitSuspend(a1, f);
        if suspend then Pop(Put(issued, f, fr.(awaitable := a2, phase := WaitingOp)))
        else Put(issued, f, fr.(pc := Continue(k, AwaitResume(a2)), awaitable := a2))
  }

  /** After the callback resumed the coroutine: `await_resume`, then the rest of the body. */
  function ResumeOperation(s: State, f: Id): State {
    if !IsLive(s, f) then Fail(s, UseAfterDestroy)
    else
      var fr := s.heap[f].frame;
      if !fr.pc.AwaitOp? then Fail(s, NoSuchLocal)
      else
        var a := if fr.awaitable.kind.TagRecv? then fr.awaitable.(request := None) else fr.awaitable;
        Put(s, f, fr.(pc := Continue(fr.pc.k, AwaitResume(fr.awaitable)), awaitable := a, phase := Running))
  }

  /** One step of the coroutine on top of the stack. */
  function RunTop(orc: Oracle, s: State, t: Timing): State {
    if s.stack == [] then s
    else if !IsLive(s, s.stack[0]) then Fail(s, UseAfterDestroy)
    else
      var f := s.stack[0];
      var fr := s.heap[f].frame;
      match fr.phase
      case ResumingOp => ResumeOperation(s, f)
      case ResumingTask(c) =>
        if fr.pc.AwaitTask? then TakeResult(s, f, c, fr.pc.k) else Fail(s, NoSuchLocal)
      case Running =>
        (match fr.pc
         case Return(v) => FinalSuspend(LeaveScope(SetPromise(s, f, Returned(v)), f), f)
         case Throw(code) => FinalSuspend(SetPromise(LeaveScope(s, f), f, Threw(code)), f)
         case Start(child, next) => StartTask(s, f, child, next)
         case Move(i, next) => MoveTask(s, f, i, next)
         case Detach(i, next) => DetachTask(s, f, i, next)
         case Drop(i, next) => DropTask(s, f, i, next)
         case AwaitTask(i, k) => AwaitChild(s, f, i, k)
         case AwaitOp(op, k) => AwaitOperation(orc, s, f, op, k, t))
      case _ => Fail(s, ResumeNotSuspended)
  }

  /** `worker::progress` completing one request: the callback fills the awaitable and resumes `h_`. */
  function FireCallback(orc: Oracle, s: State, r: nat): State {
    if r !in s.requests then s
    else
      var f := s.requests[r].userData;
      if !IsLive(s, f) then Fail(s, UseAfterDestroy)
      else
        var fr := s.heap[f].frame;
        var a := OnCompletion(fr.awaitable, orc(s.requests[r].op));
        var freed := Put(s, f, fr.(awaitable := a)).(requests := s.requests - {r});
        match a.h
        case None => Fail(freed, NullHandle)
        case Some(h) => Resume(freed, h)
  }

  function Step(orc: Oracle, s: State, e: Event): State {
    match e
    case Run(t) => RunTop(orc, s, t)
    case Progress(r) => FireCallback(orc, s, r)
  }

  // ------------------------------------------------------------------------------------------------
  // Runs

  /**
    Which steps the environment may take. Callbacks fire only from `progress`, which the main loop
    calls when no coroutine is running. A new request gets any id that is not in flight, so ids are
    reused as freely as UCX reuses request memory.
   */
  predicate Enabled(s: State, e: Event) {
    && s.fault.None?
    && match e
       case Run(t) => s.stack != [] && (t.Deferred? ==> t.request !in s.requests)
       case Progress(r) => s.stack == [] && r in s.requests
  }

  function Exec(orc: Oracle, s: State, es: seq<Event>): State
    decreases |es|
  {
    if es == [] then s else Exec(orc, Step(orc, s, es[0]), es[1..])
  }

  predicate IsRun(orc: Oracle, s: State, es: seq<Event>)
    decreases |es|
  {
    es == [] || (Enabled(s, es[0]) && IsRun(orc, Step(orc, s, es[0]), es[1..]))
  }

  /** The task object of a local owns a coroutine that is not at its final suspension. */
  predicate OwnsUnfinished(s: State, f: Id, i: nat) {
    && IsLive(s, f) && i < |s.heap[f].frame.slots|
    && s.heap[f].frame.slots[i].Holds? && !s.heap[f].frame.slots[i].task.detached
    && s.heap[f].frame.slots[i].task.h.Some?
    && var c := s.heap[f].frame.slots[i].task.h.value;
       IsLive(s, c) && !s.heap[c].frame.phase.Final?
  }

  /**
    The next step of the coroutine on top of the stack destroys a task object that owns an unfinished
    coroutine: as it ends, or as the scope of a local ends.
   */
  predicate DestroysUnfinished(s: State) {
    && s.stack != [] && IsLive(s, s.stack[0]) && s.heap[s.stack[0]].frame.phase.Running?
    && match s.heap[s.stack[0]].frame.pc
       case Return(_) => exists i: nat :: i < |s.heap[s.stack[0]].frame.slots| && OwnsUnfinished(s, s.stack[0], i)
       case Throw(_) => exists i: nat :: i < |s.heap[s.stack[0]].frame.slots| && OwnsUnfinished(s, s.stack[0], i)
       case Drop(i, _) => OwnsUnfinished(s, s.stack[0], i)
       case _ => false
  }

  /** A program: its root coroutine has just been called, by code that keeps the task object. */
  function Init(root: Body): State {
    State([Live(NewFrame(root))], [0], map[], None)
  }
}
