/**
  The one way in which a program within the client discipline goes wrong: a task object is destroyed
  while it owns a coroutine that is not done, and its destructor waits for ever.
 */
module TaskBlocking {
  import opened Prelude
  import opened Coroutine
  import opened TaskMachine
  import opened TaskInvariant
  import opened TaskSteps
  import opened TaskFinish

  /** Task objects that each own a live coroutine of their own. */
  ghost predicate OwnersApart(s: State, slots: seq<Slot>) {
    && (forall i :: 0 <= i < |slots| && slots[i].Holds? && !slots[i].task.detached ==>
          slots[i].task.h.Some? && IsLive(s, slots[i].task.h.value))
    && (forall i, j :: 0 <= i < j < |slots| && slots[i].Holds? && !slots[i].task.detached ==> slots[i] != slots[j])
  }

  predicate Unfinished(s: State, slot: Slot) {
    && slot.Holds? && !slot.task.detached && slot.task.h.Some? && IsLive(s, slot.task.h.value)
    && !s.heap[slot.task.h.value].frame.phase.Final?
  }

  /** The thread is blocked in the destructor of a task object, whose coroutine will release itself. */
  predicate BlockedBy(s: State, s': State, slot: Slot) {
    && s'.fault == Some(BlockedForever) && Unfinished(s, slot)
    && var c := slot.task.h.value;
       IsLive(s', c) && s'.heap[c].frame == s.heap[c].frame.(releaseDetached := Some(c))
  }

  /** It is that of the youngest local that owns an unfinished coroutine; older ones are left alone. */
  lemma {:induction false} LocalsBlock(s: State, slots: seq<Slot>, i: nat) returns (k: nat)
    requires s.fault.None? && OwnersApart(s, slots) && i < |slots| && Unfinished(s, slots[i])
    ensures i <= k < |slots| && BlockedBy(s, DestroyLocals(s, slots), slots[k])
    ensures forall j :: k < j < |slots| ==> !Unfinished(s, slots[j])
    decreases |slots|
  {
    var n := |slots| - 1;
    var last, init := slots[n], slots[..n];
    var s1 := if last.Holds? then TaskDestructor(s, last.task) else s;
    if Unfinished(s, last) {
      k := n;
    } else {
      assert i < n && init[i] == slots[i] && slots[i] != last;
      forall j | 0 <= j < n
        ensures Unfinished(s1, init[j]) <==> Unfinished(s, slots[j])
      {
        assert init[j] == slots[j];
        assert slots[j].Holds? && !slots[j].task.detached ==> slots[j] != slots[n];
      }
      assert OwnersApart(s1, init) by {
        forall j | 0 <= j < n && init[j].Holds? && !init[j].task.detached
          ensures init[j].task.h.Some? && IsLive(s1, init[j].task.h.value)
        {
          assert init[j] == slots[j] && slots[j] != slots[n];
        }
      }
      k := LocalsBlock(s1, init, i);
      assert slots[k] == init[k] && slots[k] != last;
    }
  }

  lemma LocalsApart(orc: Oracle, s: State, g: seq<Spec>, f: Id)
    requires OnTop(orc, s, g, f) && s.heap[f].frame.phase.Running?
    ensures OwnersApart(s, s.heap[f].frame.slots) && !Owned(s.heap[f].frame.slots, f)
  {
    var slots := s.heap[f].frame.slots;
    forall i | 0 <= i < |slots| && slots[i].Holds? && !slots[i].task.detached
      ensures slots[i].task.h.Some? && IsLive(s, slots[i].task.h.value) && f < slots[i].task.h.value
    {
      assert SlotOk(s, g, f, i);
    }
    forall i, j | 0 <= i < j < |slots| && slots[i].Holds? && !slots[i].task.detached
      ensures slots[i] != slots[j]
    {
      assert SlotOk(s, g, f, i) && SlotOk(s, g, f, j);
    }
  }

  /** A coroutine that leaves its scope while a local owns an unfinished one. */
  lemma ScopeBlocks(orc: Oracle, s: State, g: seq<Spec>, f: Id, i: nat, o: Option<Outcome>) returns (k: nat)
    requires OnTop(orc, s, g, f) && s.heap[f].frame.phase.Running? && OwnsUnfinished(s, f, i)
    ensures var s' := LeaveScope(s.(heap := s.heap[f := Live(s.heap[f].frame.(promise := o))]), f);
            BlocksAt(s, s', f, k)
  {
    LocalsApart(orc, s, g, f);
    var slots := s.heap[f].frame.slots;
    var s1 := s.(heap := s.heap[f := Live(s.heap[f].frame.(promise := o))]);
    var s2 := Put(s1, f, s1.heap[f].frame.(slots := []));
    assert OwnersApart(s2, slots);
    assert f < slots[i].task.h.value by {
      assert SlotOk(s, g, f, i);
    }
    k := LocalsBlock(s2, slots, i);
    forall j: nat | j < |slots|
      ensures Unfinished(s2, slots[j]) <==> OwnsUnfinished(s, f, j)
    {
      assert SlotOk(s, g, f, j);
    }
    assert SlotOk(s, g, f, k);
  }

  /** A step of `f` is stuck in the destructor of its local `k`, the first that cannot go on. */
  ghost predicate BlocksAt(s: State, s': State, f: Id, k: nat) {
    && OwnsUnfinished(s, f, k) && BlockedBy(s, s', s.heap[f].frame.slots[k])
    && forall j :: k < j < |s.heap[f].frame.slots| ==> !OwnsUnfinished(s, f, j)
  }

  lemma DropBlocks(orc: Oracle, s: State, g: seq<Spec>, f: Id, i: nat, next: Body)
    requires OnTop(orc, s, g, f) && s.heap[f].frame.phase.Running? && OwnsUnfinished(s, f, i)
    ensures BlockedBy(s, DropTask(s, f, i, next), s.heap[f].frame.slots[i])
  {
    assert SlotOk(s, g, f, i);
  }

  /**
    Destroying a task object that owns an unfinished coroutine blocks the thread, in the destructor of
    the first such object to be destroyed, after it has told the coroutine to release itself.
   */
  lemma StepBlocks(orc: Oracle, s: State, g: seq<Spec>, t: Timing) returns (k: nat)
    requires Inv(orc, s, g) && Enabled(s, Run(t)) && DestroysUnfinished(s)
    ensures var s', f := Step(orc, s, Run(t)), s.stack[0];
            && OwnsUnfinished(s, f, k) && BlockedBy(s, s', s.heap[f].frame.slots[k])
            && (if s.heap[f].frame.pc.Drop? then k == s.heap[f].frame.pc.slot
                else forall j :: k < j < |s.heap[f].frame.slots| ==> !OwnsUnfinished(s, f, j))
  {
    TopIsOnTop(orc, s, g);
    var f := s.stack[0];
    var fr := s.heap[f].frame;
    match fr.pc
    case Return(v) =>
      var i: nat :| i < |fr.slots| && OwnsUnfinished(s, f, i);
      k := ScopeBlocks(orc, s, g, f, i, Some(Returned(v)));
    case Throw(code) =>
      var i: nat :| i < |fr.slots| && OwnsUnfinished(s, f, i);
      k := ScopeBlocks(orc, s, g, f, i, fr.promise);
      assert s.(heap := s.heap[f := Live(fr.(promise := fr.promise))]) == s;
    case Drop(i, next) =>
      DropBlocks(orc, s, g, f, i, next);
      k := i;
  }

  /** Such a step, too, is one that the direct-style evaluation accounts for. */
  lemma BlockingWeighs(orc: Oracle, s: State, g: seq<Spec>)
    requires Inv(orc, s, g) && DestroysUnfinished(s)
    ensures Measure(orc, s, g) >= 1
  {
    TopIsOnTop(orc, s, g);
    var f := s.stack[0];
    TotalDrops(orc, s.heap, g, s.heap[f := Freed], g, f);
  }

  /** A tidy program never takes such a step. */
  lemma TidyDestroysFinished(orc: Oracle, s: State, g: seq<Spec>)
    requires Inv(orc, s, g) && AllTidy(g)
    ensures !DestroysUnfinished(s)
  {
    if s.stack != [] {
      TopIsOnTop(orc, s, g);
      var f := s.stack[0];
      if s.heap[f].frame.phase.Running? {
        forall i: nat | i < |s.heap[f].frame.slots| && !g[f].env[i].Pending?
          ensures !OwnsUnfinished(s, f, i)
        {
          assert SlotOk(s, g, f, i);
        }
      }
    }
  }
}
