/** What every reachable state of the task machine keeps, and the proof that every step keeps it. */
module TaskInvariant {
  import opened Prelude
  import opened Coroutine
  import opened TaskMachine

  /** Who is responsible for destroying a frame. */
  datatype Owner = Outside | Parent(frame: Id, slot: nat) | Nobody

  /**
    The specification side of one frame: what its locals stand for, the outcome direct-style
    evaluation gives its coroutine, its owner, the request it waits for, and whether its coroutine is
    known to be tidy.
   */
  datatype Spec = Spec(env: seq<Local>, outcome: Outcome, owner: Owner, request: nat, tidy: bool)

  ghost predicate OwnsAt(s: State, f: Id, i: nat, c: Id) {
    && IsLive(s, f)
    && i < |s.heap[f].frame.slots|
    && s.heap[f].frame.slots[i] == Holds(TaskObject(Some(c), false))
  }

  /** A local and the task object it stands for. */
  ghost predicate SlotOk(s: State, g: seq<Spec>, f: Id, i: nat)
    requires |g| == |s.heap| && IsLive(s, f)
    requires i < |s.heap[f].frame.slots| && i < |g[f].env|
  {
    var slot := s.heap[f].frame.slots[i];
    match g[f].env[i]
    case Destroyed => slot.Empty?
    case Released => slot.Holds? && slot.task.detached
    case Pending(o) =>
      && slot.Holds? && !slot.task.detached && slot.task.h.Some?
      && var c := slot.task.h.value;
         f < c && IsLive(s, c) && g[c].owner == Parent(f, i) && g[c].outcome == o && !s.heap[c].frame.taken
    case Consumed =>
      && slot.Holds? && !slot.task.detached && slot.task.h.Some?
      && var c := slot.task.h.value;
         f < c && IsLive(s, c) && g[c].owner == Parent(f, i) && s.heap[c].frame.phase.Final?
  }

  /** The body left to run still evaluates to the outcome its coroutine was called for. */
  ghost predicate BodyOk(orc: Oracle, s: State, g: seq<Spec>, f: Id)
    requires |g| == |s.heap| && IsLive(s, f)
  {
    var fr := s.heap[f].frame;
    if fr.phase.Final? then fr.promise == Some(g[f].outcome) && fr.slots == []
    else
      && fr.promise.None? && !fr.taken
      && Eval(orc, fr.pc, g[f].env) == Some(g[f].outcome)
      && (g[f].tidy ==> Tidy(orc, fr.pc, g[f].env))
      && |fr.slots| == |g[f].env|
      && forall i :: 0 <= i < |fr.slots| ==> SlotOk(s, g, f, i)
  }

  ghost predicate OwnerOk(s: State, g: seq<Spec>, c: Id)
    requires |g| == |s.heap| && IsLive(s, c)
  {
    var fr := s.heap[c].frame;
    && (g[c].owner.Outside? <==> c == 0)
    && match g[c].owner
       case Outside => fr.releaseDetached.None? && (!fr.phase.Final? ==> fr.continuation.None?)
       case Parent(f, i) =>
         && fr.releaseDetached.None? && OwnsAt(s, f, i, c) && f < c && !s.heap[f].frame.phase.Final?
         && (!fr.phase.Final? && fr.continuation.Some? ==>
               fr.continuation == Some(f) && s.heap[f].frame.phase == WaitingTask(c))
       case Nobody => fr.releaseDetached == Some(c) && (!fr.phase.Final? ==> fr.continuation.None?)
  }

  /** A coroutine suspended in `co_await task` has the task in the local its body names. */
  ghost predicate AwaitsTask(s: State, g: seq<Spec>, f: Id, c: Id)
    requires |g| == |s.heap| && IsLive(s, f)
  {
    var fr := s.heap[f].frame;
    && fr.pc.AwaitTask? && fr.pc.slot < |fr.slots| && fr.pc.slot < |g[f].env|
    && g[f].env[fr.pc.slot].Pending?
    && OwnsAt(s, f, fr.pc.slot, c)
    && IsLive(s, c)
  }

  /** A tag receive that is over names no request any more. */
  predicate NothingToCancel(fr: Frame) {
    fr.awaitable.kind.TagRecv? && !fr.phase.WaitingOp? && !fr.phase.ResumingOp? ==> fr.awaitable.request.None?
  }

  ghost predicate PhaseOk(orc: Oracle, s: State, g: seq<Spec>, f: Id)
    requires |g| == |s.heap| && IsLive(s, f)
  {
    var fr := s.heap[f].frame;
    NothingToCancel(fr) &&
    match fr.phase
    case Running => f in s.stack
    case WaitingOp =>
      && f !in s.stack && fr.pc.AwaitOp?
      && fr.awaitable.kind == fr.pc.op.kind && fr.awaitable.status == InProgress && fr.awaitable.h == Some(f)
      && g[f].request in s.requests && s.requests[g[f].request] == Request(f, fr.pc.op)
      && (fr.awaitable.kind.SendLike? || fr.awaitable.request == Some(g[f].request))
    case ResumingOp =>
      && f in s.stack && fr.pc.AwaitOp?
      && fr.awaitable.status != InProgress
      && AwaitResume(fr.awaitable) == Delivered(fr.pc.op.kind, orc(fr.pc.op))
    case WaitingTask(c) =>
      && f !in s.stack && AwaitsTask(s, g, f, c)
      && !s.heap[c].frame.phase.Final? && s.heap[c].frame.continuation == Some(f)
    case ResumingTask(c) =>
      && f in s.stack && AwaitsTask(s, g, f, c)
      && s.heap[c].frame.phase.Final?
    case Final => f !in s.stack
  }

  ghost predicate FrameOk(orc: Oracle, s: State, g: seq<Spec>, f: Id)
    requires |g| == |s.heap| && f < |s.heap|
  {
    s.heap[f].Live? ==> BodyOk(orc, s, g, f) && OwnerOk(s, g, f) && PhaseOk(orc, s, g, f)
  }

  ghost predicate StackOk(s: State) {
    && (forall i :: 0 <= i < |s.stack| ==> IsLive(s, s.stack[i]))
    && (forall i, j :: 0 <= i < j < |s.stack| ==> s.stack[i] != s.stack[j])
  }

  /** Requests in flight and coroutines suspended on an operation correspond one to one. */
  ghost predicate RequestsOk(s: State, g: seq<Spec>)
    requires |g| == |s.heap|
  {
    forall r :: r in s.requests ==>
      var f := s.requests[r].userData;
      IsLive(s, f) && s.heap[f].frame.phase.WaitingOp? && g[f].request == r
  }

  ghost predicate Inv(orc: Oracle, s: State, g: seq<Spec>) {
    && s.fault.None?
    && |g| == |s.heap|
    && |g| > 0 && s.heap[0].Live?
    && StackOk(s)
    && RequestsOk(s, g)
    && forall f :: 0 <= f < |s.heap| ==> FrameOk(orc, s, g, f)
  }

  // ------------------------------------------------------------------------------------------------
  // Framing: what a step must leave alone so that uninvolved frames keep their invariant

  /** Everything the owner of a frame may rely on is as before. */
  ghost predicate SameView(s: State, g: seq<Spec>, s': State, g': seq<Spec>, y: Id)
    requires |g| == |s.heap| && |g'| == |s'.heap|
  {
    && IsLive(s, y) && IsLive(s', y)
    && g'[y].owner == g[y].owner && g'[y].outcome == g[y].outcome
    && s'.heap[y].frame.taken == s.heap[y].frame.taken
    && s'.heap[y].frame.continuation == s.heap[y].frame.continuation
    && (s.heap[y].frame.phase.Final? ==> s'.heap[y].frame.phase.Final?)
    && (s.heap[y].frame.continuation.Some? ==> (s'.heap[y].frame.phase.Final? <==> s.heap[y].frame.phase.Final?))
  }

  /** A frame the step does not touch. */
  ghost predicate Untouched(s: State, g: seq<Spec>, s': State, g': seq<Spec>, x: Id)
    requires |g| == |s.heap| && |g'| == |s'.heap| && x < |s.heap| <= |s'.heap|
  {
    && s'.heap[x] == s.heap[x] && g'[x] == g[x]
    && (x in s'.stack <==> x in s.stack)
    && (g[x].request in s.requests && s.requests[g[x].request].userData == x ==>
          g[x].request in s'.requests && s'.requests[g[x].request] == s.requests[g[x].request])
  }

  /** What an involved frame `y` owes an uninvolved child `x`. */
  ghost predicate KeepsChild(s: State, s': State, y: Id, i: nat, x: Id)
    requires IsLive(s, y) && IsLive(s, x)
  {
    && OwnsAt(s', y, i, x) && !s'.heap[y].frame.phase.Final?
    && (!s.heap[x].frame.phase.Final? && s.heap[x].frame.continuation.Some? ==>
          s'.heap[y].frame.phase == s.heap[y].frame.phase)
  }

  lemma Bystander(orc: Oracle, s: State, g: seq<Spec>, s': State, g': seq<Spec>, x: Id)
    requires |g| == |s.heap| && |g'| == |s'.heap| && x < |s.heap| <= |s'.heap|
    requires FrameOk(orc, s, g, x) && Untouched(s, g, s', g', x)
    requires IsLive(s, x) ==>
               forall i: nat, c: Id :: OwnsAt(s, x, i, c) && IsLive(s, c) && g[c].owner == Parent(x, i) ==> SameView(s, g, s', g', c)
    requires IsLive(s, x) && g[x].owner.Parent? && IsLive(s, g[x].owner.frame) ==>
               KeepsChild(s, s', g[x].owner.frame, g[x].owner.slot, x)
    ensures FrameOk(orc, s', g', x)
  {
    if IsLive(s, x) {
      var fr := s.heap[x].frame;
      if !fr.phase.Final? {
        forall i | 0 <= i < |fr.slots|
          ensures SlotOk(s', g', x, i)
        {
          assert SlotOk(s, g, x, i);
          if g[x].env[i].Pending? || g[x].env[i].Consumed? {
            assert OwnsAt(s, x, i, fr.slots[i].task.h.value);
          }
        }
      }
      if fr.phase.WaitingTask? || fr.phase.ResumingTask? {
        assert SlotOk(s, g, x, fr.pc.slot);
        assert OwnsAt(s, x, fr.pc.slot, fr.phase.child);
      }
    }
  }

  /** A local that a step does not change, holding a task whose owner may rely on the same things. */
  lemma SlotKept(s: State, g: seq<Spec>, s': State, g': seq<Spec>, f: Id, i: nat)
    requires |g| == |s.heap| && |g'| == |s'.heap| && IsLive(s, f) && IsLive(s', f)
    requires i < |s.heap[f].frame.slots| && i < |g[f].env| && SlotOk(s, g, f, i)
    requires i < |s'.heap[f].frame.slots| && i < |g'[f].env|
    requires s'.heap[f].frame.slots[i] == s.heap[f].frame.slots[i] && g'[f].env[i] == g[f].env[i]
    requires forall c: Id :: OwnsAt(s, f, i, c) && IsLive(s, c) && g[c].owner == Parent(f, i) ==> SameView(s, g, s', g', c)
    ensures SlotOk(s', g', f, i)
  {
    if g[f].env[i].Pending? || g[f].env[i].Consumed? {
      assert OwnsAt(s, f, i, s.heap[f].frame.slots[i].task.h.value);
    }
  }

  /** All frames outside `actors` keep their invariant, if the actors keep their promises to them. */
  lemma Bystanders(orc: Oracle, s: State, g: seq<Spec>, s': State, g': seq<Spec>, actors: set<Id>)
    requires Inv(orc, s, g) && |g'| == |s'.heap| && |s.heap| <= |s'.heap|
    requires forall x :: 0 <= x < |s.heap| && x !in actors ==> Untouched(s, g, s', g', x)
    requires forall y: Id :: y in actors && IsLive(s, y) && g[y].owner.Parent? && g[y].owner.frame !in actors ==>
                           SameView(s, g, s', g', y)
    requires forall x: Id :: x !in actors && IsLive(s, x) && OwnerOk(s, g, x) && g[x].owner.Parent? && g[x].owner.frame in actors ==>
                           KeepsChild(s, s', g[x].owner.frame, g[x].owner.slot, x)
    ensures forall x :: 0 <= x < |s.heap| && x !in actors ==> FrameOk(orc, s', g', x)
  {
    forall x | 0 <= x < |s.heap| && x !in actors
      ensures FrameOk(orc, s', g', x)
    {
      assert FrameOk(orc, s, g, x);
      assert Untouched(s, g, s', g', x);
      if IsLive(s, x) {
        forall i: nat, c: Id | OwnsAt(s, x, i, c) && IsLive(s, c) && g[c].owner == Parent(x, i)
          ensures SameView(s, g, s', g', c)
        {
          if c !in actors {
            assert Untouched(s, g, s', g', c);
          }
        }
        if g[x].owner.Parent? && IsLive(s, g[x].owner.frame) && g[x].owner.frame !in actors {
          assert Untouched(s, g, s', g', g[x].owner.frame);
        }
      }
      Bystander(orc, s, g, s', g', x);
    }
  }

  // ------------------------------------------------------------------------------------------------
  // The measure: steps left along the direct-style evaluations of all frames

  ghost function Weight(orc: Oracle, cell: Cell, spec: Spec): nat {
    match cell
    case Freed => 0
    case Live(fr) =>
      var cost := Cost(orc, fr.pc, spec.env);
      match fr.phase
      case Final => 0
      case Running => cost
      case WaitingOp => if cost < 1 then 0 else cost - 1
      case WaitingTask(_) => if cost < 1 then 0 else cost - 1
      case ResumingOp => if cost < 2 then 0 else cost - 2
      case ResumingTask(_) => if cost < 2 then 0 else cost - 2
  }

  ghost function Total(orc: Oracle, heap: seq<Cell>, g: seq<Spec>): nat
    requires |heap| == |g|
  {
    if heap == [] then 0
    else
      var n := |heap| - 1;
      Total(orc, heap[..n], g[..n]) + Weight(orc, heap[n], g[n])
  }

  /** When one frame pays and no other gets heavier, the total pays the same amount. */
  lemma {:induction false} TotalDrops(
      orc: Oracle, heap: seq<Cell>, g: seq<Spec>, heap': seq<Cell>, g': seq<Spec>, f: Id)
    requires |heap| == |g| == |heap'| == |g'| && f < |heap|
    requires forall x :: 0 <= x < |heap| && x != f ==> Weight(orc, heap'[x], g'[x]) <= Weight(orc, heap[x], g[x])
    ensures Total(orc, heap', g') + Weight(orc, heap[f], g[f]) <= Total(orc, heap, g) + Weight(orc, heap'[f], g'[f])
  {
    var n := |heap| - 1;
    if f == n {
      TotalMonotone(orc, heap[..n], g[..n], heap'[..n], g'[..n]);
    } else {
      TotalDrops(orc, heap[..n], g[..n], heap'[..n], g'[..n], f);
    }
  }

  lemma {:induction false} TotalMonotone(orc: Oracle, heap: seq<Cell>, g: seq<Spec>, heap': seq<Cell>, g': seq<Spec>)
    requires |heap| == |g| == |heap'| == |g'|
    requires forall x :: 0 <= x < |heap| ==> Weight(orc, heap'[x], g'[x]) <= Weight(orc, heap[x], g[x])
    ensures Total(orc, heap', g') <= Total(orc, heap, g)
  {
    if heap == [] {
    } else {
      var n := |heap| - 1;
      TotalMonotone(orc, heap[..n], g[..n], heap'[..n], g'[..n]);
    }
  }

  ghost function Measure(orc: Oracle, s: State, g: seq<Spec>): nat
    requires |g| == |s.heap|
  {
    Total(orc, s.heap, g)
  }

  /** `s'` is a correct successor of `s`: the invariant holds for the same outcomes, and the measure has dropped. */
  ghost predicate Advances(orc: Oracle, s: State, g: seq<Spec>, s': State, g': seq<Spec>)
    requires |g| == |s.heap| > 0
  {
    && Inv(orc, s', g')
    && Measure(orc, s', g') < Measure(orc, s, g)
    && |g| <= |g'| && (forall f :: 0 <= f < |g| ==> g'[f].outcome == g[f].outcome)
    && (AllTidy(g) ==> AllTidy(g'))
  }

  ghost predicate AllTidy(g: seq<Spec>) {
    forall f :: 0 <= f < |g| ==> g[f].tidy
  }
}
