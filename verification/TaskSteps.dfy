/** Every step of the task machine keeps the invariant and brings every run closer to its end. */
module TaskSteps {
  import opened Prelude
  import opened Coroutine
  import opened TaskMachine
  import opened TaskInvariant

  /** The coroutine about to run: on top of the stack, with the invariant in force. */
  ghost predicate OnTop(orc: Oracle, s: State, g: seq<Spec>, f: Id) {
    Inv(orc, s, g) && s.stack != [] && f == s.stack[0] && IsLive(s, f) && FrameOk(orc, s, g, f)
  }

  lemma TopIsOnTop(orc: Oracle, s: State, g: seq<Spec>)
    requires Inv(orc, s, g) && s.stack != []
    ensures OnTop(orc, s, g, s.stack[0])
    ensures s.heap[s.stack[0]].frame.phase in {Running, ResumingOp} || s.heap[s.stack[0]].frame.phase.ResumingTask?
  {
    assert IsLive(s, s.stack[0]);
    assert FrameOk(orc, s, g, s.stack[0]);
  }

  /** The locals of an involved frame that keep their place, task object and meaning. */
  lemma SlotsKept(orc: Oracle, s: State, g: seq<Spec>, s': State, g': seq<Spec>, f: Id, but: set<nat>)
    requires Inv(orc, s, g) && |g'| == |s'.heap| && IsLive(s, f) && IsLive(s', f) && !s.heap[f].frame.phase.Final?
    requires |s.heap[f].frame.slots| <= |s'.heap[f].frame.slots| && |g[f].env| <= |g'[f].env|
    requires |g[f].env| == |s.heap[f].frame.slots|
    requires forall i :: 0 <= i < |s.heap[f].frame.slots| && i !in but ==>
               && s'.heap[f].frame.slots[i] == s.heap[f].frame.slots[i] && g'[f].env[i] == g[f].env[i]
    requires forall i: nat, c: Id :: i !in but && OwnsAt(s, f, i, c) && IsLive(s, c) && g[c].owner == Parent(f, i) ==>
               SameView(s, g, s', g', c)
    ensures forall i :: 0 <= i < |s.heap[f].frame.slots| && i !in but ==> SlotOk(s', g', f, i)
  {
    assert FrameOk(orc, s, g, f);
    forall i | 0 <= i < |s.heap[f].frame.slots| && i !in but
      ensures SlotOk(s', g', f, i)
    {
      assert SlotOk(s, g, f, i);
      SlotKept(s, g, s', g', f, i);
    }
  }

  /** A state whose frames all satisfy the invariant again, given frame by frame. */
  lemma Assemble(orc: Oracle, s: State, g: seq<Spec>, s': State, g': seq<Spec>, actors: set<Id>)
    requires Inv(orc, s, g) && |g'| == |s'.heap| && |s.heap| <= |s'.heap| && s'.fault.None? && s'.heap[0].Live?
    requires StackOk(s') && RequestsOk(s', g')
    requires forall x :: 0 <= x < |s.heap| && x !in actors ==> Untouched(s, g, s', g', x)
    requires forall y: Id :: y in actors && IsLive(s, y) && g[y].owner.Parent? && g[y].owner.frame !in actors ==>
                           SameView(s, g, s', g', y)
    requires forall x: Id :: x !in actors && IsLive(s, x) && OwnerOk(s, g, x) && g[x].owner.Parent? && g[x].owner.frame in actors ==>
                           KeepsChild(s, s', g[x].owner.frame, g[x].owner.slot, x)
    requires forall y: Id :: y in actors && y < |s'.heap| ==> FrameOk(orc, s', g', y)
    requires forall y :: |s.heap| <= y < |s'.heap| ==> FrameOk(orc, s', g', y)
    ensures Inv(orc, s', g')
  {
    Bystanders(orc, s, g, s', g', actors);
  }

  /** The same for a step that neither starts, suspends nor resumes a coroutine, nor issues a request. */
  lemma AssembleQuiet(orc: Oracle, s: State, g: seq<Spec>, s': State, g': seq<Spec>, actors: set<Id>)
    requires Inv(orc, s, g) && |g'| == |s'.heap| == |s.heap| && s' == s.(heap := s'.heap) && s'.heap[0].Live?
    requires forall x :: 0 <= x < |s.heap| && x !in actors ==> s'.heap[x] == s.heap[x] && g'[x] == g[x]
    requires forall y: Id :: y in actors && IsLive(s, y) && y in s.stack ==> IsLive(s', y)
    requires forall y: Id :: y in actors && IsLive(s, y) && s.heap[y].frame.phase.WaitingOp? ==>
                           IsLive(s', y) && s'.heap[y].frame.phase.WaitingOp? && g'[y].request == g[y].request
    requires forall y: Id :: y in actors && IsLive(s, y) && g[y].owner.Parent? && g[y].owner.frame !in actors ==>
                           SameView(s, g, s', g', y)
    requires forall x: Id :: x !in actors && IsLive(s, x) && OwnerOk(s, g, x) && g[x].owner.Parent? && g[x].owner.frame in actors ==>
                           KeepsChild(s, s', g[x].owner.frame, g[x].owner.slot, x)
    requires forall y: Id :: y in actors && y < |s'.heap| ==> FrameOk(orc, s', g', y)
    ensures Inv(orc, s', g')
  {
    Assemble(orc, s, g, s', g', actors);
  }

  /** The stack without its top. */
  lemma PopKeepsStack(s: State, s': State)
    requires StackOk(s) && s.stack != [] && s'.stack == s.stack[1..]
    requires forall x: Id :: x in s.stack && x != s.stack[0] ==> IsLive(s', x)
    ensures StackOk(s') && s.stack[0] !in s'.stack
    ensures forall x :: x != s.stack[0] ==> (x in s'.stack <==> x in s.stack)
  {
    forall i | 0 <= i < |s'.stack|
      ensures IsLive(s', s'.stack[i]) && s'.stack[i] != s.stack[0]
    {
      assert s'.stack[i] == s.stack[i + 1] && s.stack[i + 1] in s.stack;
    }
    forall x | x in s.stack && x != s.stack[0]
      ensures x in s'.stack
    {
      var i :| 0 <= i < |s.stack| && s.stack[i] == x;
      assert s'.stack[i - 1] == x;
    }
  }

  /** The stack under a new coroutine. */
  lemma PushKeepsStack(s: State, s': State)
    requires StackOk(s) && |s'.heap| == |s.heap| + 1 && s'.heap[|s.heap|].Live? && s'.stack == [|s.heap|] + s.stack
    requires forall x: Id :: x in s.stack ==> IsLive(s', x)
    ensures StackOk(s')
    ensures forall x :: x != |s.heap| ==> (x in s'.stack <==> x in s.stack)
  {
    forall i | 0 <= i < |s'.stack|
      ensures IsLive(s', s'.stack[i]) && (i > 0 ==> s'.stack[i] == s.stack[i - 1] < |s.heap|)
    {
      assert i > 0 ==> s'.stack[i] == s.stack[i - 1] && s.stack[i - 1] in s.stack && IsLive(s, s.stack[i - 1]);
    }
  }

  /** The same for a step on a task object that leaves its coroutine `c` alive and where it is. */
  lemma AssembleOwned(orc: Oracle, s: State, g: seq<Spec>, s': State, g': seq<Spec>, f: Id, c: Id)
    requires Inv(orc, s, g) && IsLive(s, f) && IsLive(s, c) && f < c && IsLive(s', f) && IsLive(s', c)
    requires |g'| == |s'.heap| == |s.heap| && s' == s.(heap := s'.heap)
    requires forall x :: 0 <= x < |s.heap| && x != f && x != c ==> s'.heap[x] == s.heap[x] && g'[x] == g[x]
    requires s.heap[f].frame.phase in {Running, ResumingTask(c)} && s'.heap[f].frame.phase == Running
    requires SameView(s, g, s', g', f) && g[c].owner.Parent? && g[c].owner.frame == f
    requires s'.heap[c].frame.slots == s.heap[c].frame.slots && s'.heap[c].frame.phase == s.heap[c].frame.phase
    requires g'[c].request == g[c].request
    requires forall j: nat, x: Id :: x != c && OwnsAt(s, f, j, x) ==> OwnsAt(s', f, j, x)
    requires FrameOk(orc, s', g', f) && FrameOk(orc, s', g', c)
    ensures Inv(orc, s', g')
  {
    AssembleQuiet(orc, s, g, s', g', {f, c});
  }

  ghost function Started(orc: Oracle, g: seq<Spec>, f: Id, child: Body): seq<Spec>
    requires f < |g| && Eval(orc, child, []).Some?
  {
    var o := Eval(orc, child, []).value;
    g[f := g[f].(env := g[f].env + [Pending(o)])] + [Spec([], o, Parent(f, |g[f].env|), 0, g[f].tidy)]
  }

  lemma StartAdvances(orc: Oracle, s: State, g: seq<Spec>, f: Id, child: Body, next: Body) returns (g': seq<Spec>)
    requires OnTop(orc, s, g, f) && s.heap[f].frame.phase.Running? && s.heap[f].frame.pc == Start(child, next)
    ensures Advances(orc, s, g, StartTask(s, f, child, next), g')
  {
    g' := Started(orc, g, f, child);
    StartKeepsParent(orc, s, g, f, child, next);
    PushKeepsStack(s, StartTask(s, f, child, next));
    Assemble(orc, s, g, StartTask(s, f, child, next), g', {f});
    StartPays(orc, s, g, f, child, next);
  }

  lemma {:induction false} StartKeepsParent(orc: Oracle, s: State, g: seq<Spec>, f: Id, child: Body, next: Body)
    requires OnTop(orc, s, g, f) && s.heap[f].frame.phase.Running? && s.heap[f].frame.pc == Start(child, next)
    ensures Eval(orc, child, []).Some?
    ensures FrameOk(orc, StartTask(s, f, child, next), Started(orc, g, f, child), f)
    ensures FrameOk(orc, StartTask(s, f, child, next), Started(orc, g, f, child), |g|)
  {
    var s' := StartTask(s, f, child, next);
    var g' := Started(orc, g, f, child);
    SlotsKept(orc, s, g, s', g', f, {});
  }

  lemma {:induction false} StartPays(orc: Oracle, s: State, g: seq<Spec>, f: Id, child: Body, next: Body)
    requires |g| == |s.heap| && IsLive(s, f) && s.heap[f].frame.phase.Running? && s.heap[f].frame.pc == Start(child, next)
    requires Eval(orc, child, []).Some?
    ensures Measure(orc, StartTask(s, f, child, next), Started(orc, g, f, child)) < Measure(orc, s, g)
  {
    var s' := StartTask(s, f, child, next);
    var g' := Started(orc, g, f, child);
    var c := |s.heap|;
    assert s'.heap[..c] == s.heap[f := s'.heap[f]] && g'[..c] == g[f := g'[f]];
    TotalDrops(orc, s.heap, g, s'.heap[..c], g'[..c], f);
  }

  ghost function Moved(s: State, g: seq<Spec>, f: Id, i: nat): seq<Spec>
    requires |g| == |s.heap| && IsLive(s, f) && i < |g[f].env| && |g[f].env| == |s.heap[f].frame.slots|
    requires SlotOk(s, g, f, i)
  {
    var env := g[f].env;
    var g1 := g[f := g[f].(env := env[i := Released] + [env[i]])];
    if env[i].Pending? || env[i].Consumed? then
      var c := s.heap[f].frame.slots[i].task.h.value;
      g1[c := g1[c].(owner := Parent(f, |env|))]
    else g1
  }

  lemma MoveAdvances(orc: Oracle, s: State, g: seq<Spec>, f: Id, i: nat, next: Body) returns (g': seq<Spec>)
    requires OnTop(orc, s, g, f) && s.heap[f].frame.phase.Running? && s.heap[f].frame.pc == Move(i, next)
    ensures Advances(orc, s, g, MoveTask(s, f, i, next), g')
  {
    assert SlotOk(s, g, f, i);
    var s' := MoveTask(s, f, i, next);
    g' := Moved(s, g, f, i);
    MoveKeepsParent(orc, s, g, f, i, next);
    if g[f].env[i].Pending? || g[f].env[i].Consumed? {
      MoveKeepsChild(orc, s, g, f, i, next);
      AssembleOwned(orc, s, g, s', g', f, s.heap[f].frame.slots[i].task.h.value);
    } else {
      AssembleQuiet(orc, s, g, s', g', {f});
    }
    MovePays(orc, s, g, f, i, next);
  }

  lemma MovePays(orc: Oracle, s: State, g: seq<Spec>, f: Id, i: nat, next: Body)
    requires |g| == |s.heap| && IsLive(s, f) && s.heap[f].frame.phase.Running? && s.heap[f].frame.pc == Move(i, next)
    requires i < |g[f].env| && |g[f].env| == |s.heap[f].frame.slots| && SlotOk(s, g, f, i) && !g[f].env[i].Destroyed?
    ensures Measure(orc, MoveTask(s, f, i, next), Moved(s, g, f, i)) < Measure(orc, s, g)
  {
    TotalDrops(orc, s.heap, g, MoveTask(s, f, i, next).heap, Moved(s, g, f, i), f);
  }

  lemma MoveKeepsParent(orc: Oracle, s: State, g: seq<Spec>, f: Id, i: nat, next: Body)
    requires OnTop(orc, s, g, f) && s.heap[f].frame.phase.Running? && s.heap[f].frame.pc == Move(i, next)
    requires i < |g[f].env| && SlotOk(s, g, f, i)
    ensures FrameOk(orc, MoveTask(s, f, i, next), Moved(s, g, f, i), f)
  {
    var s' := MoveTask(s, f, i, next);
    var g' := Moved(s, g, f, i);
    SlotsKept(orc, s, g, s', g', f, {i});
    assert SlotOk(s', g', f, |g[f].env|);
  }

  lemma MoveKeepsChild(orc: Oracle, s: State, g: seq<Spec>, f: Id, i: nat, next: Body)
    requires OnTop(orc, s, g, f) && s.heap[f].frame.phase.Running? && s.heap[f].frame.pc == Move(i, next)
    requires i < |g[f].env| && SlotOk(s, g, f, i) && (g[f].env[i].Pending? || g[f].env[i].Consumed?)
    ensures FrameOk(orc, MoveTask(s, f, i, next), Moved(s, g, f, i), s.heap[f].frame.slots[i].task.h.value)
  {
    var c := s.heap[f].frame.slots[i].task.h.value;
    assert FrameOk(orc, s, g, c);
    if !s.heap[c].frame.phase.Final? {
      SlotsKept(orc, s, g, MoveTask(s, f, i, next), Moved(s, g, f, i), c, {});
    }
  }

  ghost function Detached(s: State, g: seq<Spec>, f: Id, i: nat): seq<Spec>
    requires |g| == |s.heap| && IsLive(s, f) && i < |g[f].env| && |g[f].env| == |s.heap[f].frame.slots|
    requires SlotOk(s, g, f, i) && (g[f].env[i].Pending? || g[f].env[i].Consumed?)
  {
    var c := s.heap[f].frame.slots[i].task.h.value;
    g[f := g[f].(env := g[f].env[i := Released])][c := g[c].(owner := Nobody)]
  }

  lemma DetachAdvances(orc: Oracle, s: State, g: seq<Spec>, f: Id, i: nat, next: Body) returns (g': seq<Spec>)
    requires OnTop(orc, s, g, f) && s.heap[f].frame.phase.Running? && s.heap[f].frame.pc == Detach(i, next)
    ensures Advances(orc, s, g, DetachTask(s, f, i, next), g')
  {
    assert SlotOk(s, g, f, i);
    g' := Detached(s, g, f, i);
    DetachKeepsParent(orc, s, g, f, i, next);
    DetachKeepsChild(orc, s, g, f, i, next);
    AssembleOwned(orc, s, g, DetachTask(s, f, i, next), g', f, s.heap[f].frame.slots[i].task.h.value);
    DetachPays(orc, s, g, f, i, next);
  }

  lemma DetachPays(orc: Oracle, s: State, g: seq<Spec>, f: Id, i: nat, next: Body)
    requires |g| == |s.heap| && IsLive(s, f) && s.heap[f].frame.phase.Running? && s.heap[f].frame.pc == Detach(i, next)
    requires i < |g[f].env| && |g[f].env| == |s.heap[f].frame.slots| && SlotOk(s, g, f, i)
    requires g[f].env[i].Pending? || g[f].env[i].Consumed?
    ensures Measure(orc, DetachTask(s, f, i, next), Detached(s, g, f, i)) < Measure(orc, s, g)
  {
    TotalDrops(orc, s.heap, g, DetachTask(s, f, i, next).heap, Detached(s, g, f, i), f);
  }

  lemma DetachKeepsParent(orc: Oracle, s: State, g: seq<Spec>, f: Id, i: nat, next: Body)
    requires OnTop(orc, s, g, f) && s.heap[f].frame.phase.Running? && s.heap[f].frame.pc == Detach(i, next)
    requires i < |g[f].env| && SlotOk(s, g, f, i)
    ensures FrameOk(orc, DetachTask(s, f, i, next), Detached(s, g, f, i), f)
  {
    SlotsKept(orc, s, g, DetachTask(s, f, i, next), Detached(s, g, f, i), f, {i});
  }

  lemma DetachKeepsChild(orc: Oracle, s: State, g: seq<Spec>, f: Id, i: nat, next: Body)
    requires OnTop(orc, s, g, f) && s.heap[f].frame.phase.Running? && s.heap[f].frame.pc == Detach(i, next)
    requires i < |g[f].env| && SlotOk(s, g, f, i)
    ensures FrameOk(orc, DetachTask(s, f, i, next), Detached(s, g, f, i), s.heap[f].frame.slots[i].task.h.value)
  {
    var c := s.heap[f].frame.slots[i].task.h.value;
    assert FrameOk(orc, s, g, c);
    if !s.heap[c].frame.phase.Final? {
      SlotsKept(orc, s, g, DetachTask(s, f, i, next), Detached(s, g, f, i), c, {});
    }
  }

  lemma DropAdvances(orc: Oracle, s: State, g: seq<Spec>, f: Id, i: nat, next: Body) returns (g': seq<Spec>)
    requires OnTop(orc, s, g, f) && s.heap[f].frame.phase.Running? && s.heap[f].frame.pc == Drop(i, next)
    requires !OwnsUnfinished(s, f, i)
    ensures Advances(orc, s, g, DropTask(s, f, i, next), g')
  {
    assert SlotOk(s, g, f, i);
    g' := g[f := g[f].(env := g[f].env[i := Destroyed])];
    DropKeepsInv(orc, s, g, f, i, next, g');
    DropPays(orc, s, g, f, i, next);
  }

  lemma DropKeepsInv(orc: Oracle, s: State, g: seq<Spec>, f: Id, i: nat, next: Body, g': seq<Spec>)
    requires OnTop(orc, s, g, f) && s.heap[f].frame.phase.Running? && s.heap[f].frame.pc == Drop(i, next)
    requires i < |g[f].env| && SlotOk(s, g, f, i) && !OwnsUnfinished(s, f, i)
    requires g' == g[f := g[f].(env := g[f].env[i := Destroyed])]
    ensures Inv(orc, DropTask(s, f, i, next), g')
  {
    DropKeepsParent(orc, s, g, f, i, next);
    if g[f].env[i].Pending? || g[f].env[i].Consumed? {
      DropFreesChild(orc, s, g, f, i, next);
      AssembleFreed(orc, s, g, DropTask(s, f, i, next), g', f, s.heap[f].frame.slots[i].task.h.value);
    } else {
      AssembleQuiet(orc, s, g, DropTask(s, f, i, next), g', {f});
    }
  }

  /** A step that destroys the finished coroutine `c` that `f` owns. */
  lemma AssembleFreed(orc: Oracle, s: State, g: seq<Spec>, s': State, g': seq<Spec>, f: Id, c: Id)
    requires Inv(orc, s, g) && IsLive(s, f) && IsLive(s, c) && f < c && c !in s.stack && IsLive(s', f)
    requires |g'| == |s'.heap| == |s.heap| && s' == s.(heap := s'.heap) && s'.heap[c].Freed?
    requires forall x :: 0 <= x < |s.heap| && x != f && x != c ==> s'.heap[x] == s.heap[x] && g'[x] == g[x]
    requires s.heap[f].frame.phase == Running && s'.heap[f].frame.phase == Running
    requires SameView(s, g, s', g', f) && g[c].owner.Parent? && g[c].owner.frame == f
    requires s.heap[c].frame.phase.Final? && s.heap[c].frame.slots == []
    requires forall j: nat, x: Id :: x != c && OwnsAt(s, f, j, x) ==> OwnsAt(s', f, j, x)
    requires FrameOk(orc, s', g', f)
    ensures Inv(orc, s', g')
  {
    AssembleQuiet(orc, s, g, s', g', {f, c});
  }

  lemma DropFreesChild(orc: Oracle, s: State, g: seq<Spec>, f: Id, i: nat, next: Body)
    requires OnTop(orc, s, g, f) && s.heap[f].frame.phase.Running? && s.heap[f].frame.pc == Drop(i, next)
    requires i < |g[f].env| && SlotOk(s, g, f, i) && (g[f].env[i].Pending? || g[f].env[i].Consumed?) && !OwnsUnfinished(s, f, i)
    ensures var c := s.heap[f].frame.slots[i].task.h.value;
            var s' := DropTask(s, f, i, next);
            && c != 0 && c !in s.stack && s.heap[c].frame.slots == [] && s.heap[c].frame.phase.Final?
            && g[c].owner == Parent(f, i)
            && s'.fault.None? && s'.heap == s.heap[f := s'.heap[f]][c := Freed]
  {
    var c := s.heap[f].frame.slots[i].task.h.value;
    assert FrameOk(orc, s, g, c);
  }

  lemma DropPays(orc: Oracle, s: State, g: seq<Spec>, f: Id, i: nat, next: Body)
    requires OnTop(orc, s, g, f) && s.heap[f].frame.phase.Running? && s.heap[f].frame.pc == Drop(i, next)
    requires i < |g[f].env| && SlotOk(s, g, f, i) && !OwnsUnfinished(s, f, i)
    ensures Measure(orc, DropTask(s, f, i, next), g[f := g[f].(env := g[f].env[i := Destroyed])]) < Measure(orc, s, g)
  {
    TotalDrops(orc, s.heap, g, DropTask(s, f, i, next).heap, g[f := g[f].(env := g[f].env[i := Destroyed])], f);
  }

  lemma DropKeepsParent(orc: Oracle, s: State, g: seq<Spec>, f: Id, i: nat, next: Body)
    requires OnTop(orc, s, g, f) && s.heap[f].frame.phase.Running? && s.heap[f].frame.pc == Drop(i, next)
    requires i < |g[f].env| && SlotOk(s, g, f, i) && !OwnsUnfinished(s, f, i)
    ensures FrameOk(orc, DropTask(s, f, i, next), g[f := g[f].(env := g[f].env[i := Destroyed])], f)
  {
    SlotsKept(orc, s, g, DropTask(s, f, i, next), g[f := g[f].(env := g[f].env[i := Destroyed])], f, {i});
  }

  lemma AwaitSuspends(orc: Oracle, s: State, g: seq<Spec>, f: Id, i: nat, k: imap<Outcome, Body>)
    requires OnTop(orc, s, g, f) && s.heap[f].frame.phase.Running? && s.heap[f].frame.pc == AwaitTask(i, k)
    requires i < |s.heap[f].frame.slots| && SlotOk(s, g, f, i) && g[f].env[i].Pending?
    requires !s.heap[s.heap[f].frame.slots[i].task.h.value].frame.phase.Final?
    ensures Advances(orc, s, g, AwaitChild(s, f, i, k), g)
  {
    AwaitKeepsChild(orc, s, g, f, i, k);
    AwaitKeepsParent(orc, s, g, f, i, k);
    PopKeepsStack(s, AwaitChild(s, f, i, k));
    Assemble(orc, s, g, AwaitChild(s, f, i, k), g, {f, s.heap[f].frame.slots[i].task.h.value});
    AwaitPays(orc, s, g, f, i, k);
  }

  lemma AwaitPays(orc: Oracle, s: State, g: seq<Spec>, f: Id, i: nat, k: imap<Outcome, Body>)
    requires |g| == |s.heap| && IsLive(s, f) && s.heap[f].frame.phase.Running? && s.heap[f].frame.pc == AwaitTask(i, k)
    requires i < |s.heap[f].frame.slots| && i < |g[f].env| && SlotOk(s, g, f, i) && g[f].env[i].Pending?
    requires !s.heap[s.heap[f].frame.slots[i].task.h.value].frame.phase.Final?
    ensures Measure(orc, AwaitChild(s, f, i, k), g) < Measure(orc, s, g)
  {
    AwaitUnfolds(orc, s.heap[f].frame.pc, g[f].env, g[f].env[i].outcome);
    TotalDrops(orc, s.heap, g, AwaitChild(s, f, i, k).heap, g, f);
  }

  lemma AwaitKeepsParent(orc: Oracle, s: State, g: seq<Spec>, f: Id, i: nat, k: imap<Outcome, Body>)
    requires OnTop(orc, s, g, f) && s.heap[f].frame.phase.Running? && s.heap[f].frame.pc == AwaitTask(i, k)
    requires i < |s.heap[f].frame.slots| && SlotOk(s, g, f, i) && g[f].env[i].Pending?
    requires !s.heap[s.heap[f].frame.slots[i].task.h.value].frame.phase.Final?
    ensures FrameOk(orc, AwaitChild(s, f, i, k), g, f)
  {
    var s' := AwaitChild(s, f, i, k);
    SlotsKept(orc, s, g, s', g, f, {i});
    assert SlotOk(s', g, f, i);
  }

  lemma AwaitKeepsChild(orc: Oracle, s: State, g: seq<Spec>, f: Id, i: nat, k: imap<Outcome, Body>)
    requires OnTop(orc, s, g, f) && s.heap[f].frame.phase.Running? && s.heap[f].frame.pc == AwaitTask(i, k)
    requires i < |s.heap[f].frame.slots| && SlotOk(s, g, f, i) && g[f].env[i].Pending?
    requires !s.heap[s.heap[f].frame.slots[i].task.h.value].frame.phase.Final?
    ensures FrameOk(orc, AwaitChild(s, f, i, k), g, s.heap[f].frame.slots[i].task.h.value)
  {
    var c := s.heap[f].frame.slots[i].task.h.value;
    assert FrameOk(orc, s, g, c);
    SlotsKept(orc, s, g, AwaitChild(s, f, i, k), g, c, {});
  }

  /** Reading a finished child's future: on the fast path of `co_await`, or after the transfer. */
  lemma TakeAdvances(orc: Oracle, s: State, g: seq<Spec>, f: Id, c: Id) returns (g': seq<Spec>)
    requires OnTop(orc, s, g, f) && s.heap[f].frame.pc.AwaitTask?
    requires s.heap[f].frame.phase in {Running, ResumingTask(c)}
    requires AwaitsTask(s, g, f, c) && s.heap[c].frame.phase.Final?
    ensures Advances(orc, s, g, TakeResult(s, f, c, s.heap[f].frame.pc.k), g')
  {
    var fr := s.heap[f].frame;
    var s' := TakeResult(s, f, c, fr.pc.k);
    g' := g[f := g[f].(env := g[f].env[fr.pc.slot := Consumed])];
    TakeKeepsBoth(orc, s, g, f, c);
    assert SlotOk(s, g, f, fr.pc.slot);
    AssembleOwned(orc, s, g, s', g', f, c);
    TakePays(orc, s, g, f, c);
  }

  lemma TakePays(orc: Oracle, s: State, g: seq<Spec>, f: Id, c: Id)
    requires |g| == |s.heap| && IsLive(s, f) && s.heap[f].frame.pc.AwaitTask?
    requires s.heap[f].frame.phase in {Running, ResumingTask(c)}
    requires AwaitsTask(s, g, f, c) && SlotOk(s, g, f, s.heap[f].frame.pc.slot)
    requires s.heap[c].frame.promise == Some(g[c].outcome) && s.heap[c].frame.phase.Final? && f != c
    ensures Measure(orc, TakeResult(s, f, c, s.heap[f].frame.pc.k),
                    g[f := g[f].(env := g[f].env[s.heap[f].frame.pc.slot := Consumed])]) < Measure(orc, s, g)
  {
    var fr := s.heap[f].frame;
    var g' := g[f := g[f].(env := g[f].env[fr.pc.slot := Consumed])];
    AwaitUnfolds(orc, fr.pc, g[f].env, g[f].env[fr.pc.slot].outcome);
    TotalDrops(orc, s.heap, g, TakeResult(s, f, c, fr.pc.k).heap, g', f);
  }

  lemma TakeKeepsBoth(orc: Oracle, s: State, g: seq<Spec>, f: Id, c: Id)
    requires OnTop(orc, s, g, f) && s.heap[f].frame.pc.AwaitTask?
    requires s.heap[f].frame.phase in {Running, ResumingTask(c)}
    requires AwaitsTask(s, g, f, c) && s.heap[c].frame.phase.Final?
    ensures var fr := s.heap[f].frame;
            var s' := TakeResult(s, f, c, fr.pc.k);
            var g' := g[f := g[f].(env := g[f].env[fr.pc.slot := Consumed])];
            && s'.fault == s.fault && |s'.heap| == |s.heap|
            && s'.heap[f].Live? && s'.heap[f].frame.pc == Continue(fr.pc.k, g[f].env[fr.pc.slot].outcome)
            && FrameOk(orc, s', g', f) && FrameOk(orc, s', g', c)
  {
    var fr := s.heap[f].frame;
    var s' := TakeResult(s, f, c, fr.pc.k);
    var i := fr.pc.slot;
    var g' := g[f := g[f].(env := g[f].env[i := Consumed])];
    assert SlotOk(s, g, f, i);
    assert FrameOk(orc, s, g, c);
    AwaitUnfolds(orc, fr.pc, g[f].env, g[f].env[i].outcome);
    SlotsKept(orc, s, g, s', g', f, {i});
    assert SlotOk(s', g', f, i);
  }

  /** A step that changes one unfinished frame, but neither its locals nor what its owner sees of it. */
  lemma SoloAdvances(orc: Oracle, s: State, g: seq<Spec>, s': State, g': seq<Spec>, f: Id)
    requires Inv(orc, s, g) && IsLive(s, f) && f < |g'| && g' == g[f := g[f].(request := g'[f].request)]
    requires f < |s'.heap| && s'.heap[f].Live? && s'.heap == s.heap[f := s'.heap[f]] && s'.fault.None?
    requires var fr, fr' := s.heap[f].frame, s'.heap[f].frame;
             && !fr.phase.Final? && !fr.phase.WaitingTask? && !fr'.phase.Final?
             && fr'.slots == fr.slots && fr'.promise == fr.promise && fr'.taken == fr.taken
             && fr'.continuation == fr.continuation && fr'.releaseDetached == fr.releaseDetached
             && Eval(orc, fr'.pc, g[f].env) == Some(g[f].outcome)
             && (g[f].tidy ==> Tidy(orc, fr'.pc, g[f].env))
    requires forall x :: x != f ==> (x in s'.stack <==> x in s.stack)
    requires forall r :: r in s.requests && s.requests[r].userData != f ==>
                           r in s'.requests && s'.requests[r] == s.requests[r]
    requires StackOk(s') && RequestsOk(s', g') && PhaseOk(orc, s', g', f)
    ensures Inv(orc, s', g')
  {
    SoloKeepsSelf(orc, s, g, s', g', f);
    Assemble(orc, s, g, s', g', {f});
  }

  lemma SoloKeepsSelf(orc: Oracle, s: State, g: seq<Spec>, s': State, g': seq<Spec>, f: Id)
    requires Inv(orc, s, g) && IsLive(s, f) && f < |g'| && g' == g[f := g[f].(request := g'[f].request)]
    requires f < |s'.heap| && s'.heap[f].Live? && s'.heap == s.heap[f := s'.heap[f]]
    requires var fr, fr' := s.heap[f].frame, s'.heap[f].frame;
             && !fr.phase.Final? && !fr.phase.WaitingTask? && !fr'.phase.Final?
             && fr'.slots == fr.slots && fr'.promise == fr.promise && fr'.taken == fr.taken
             && fr'.continuation == fr.continuation && fr'.releaseDetached == fr.releaseDetached
             && Eval(orc, fr'.pc, g[f].env) == Some(g[f].outcome)
             && (g[f].tidy ==> Tidy(orc, fr'.pc, g[f].env))
    requires PhaseOk(orc, s', g', f)
    ensures FrameOk(orc, s', g', f)
  {
    assert FrameOk(orc, s, g, f);
    SlotsKept(orc, s, g, s', g', f, {});
  }

  /** An operation that completes at once never suspends, and yields what it delivers. */
  lemma ImmediateAdvances(orc: Oracle, s: State, g: seq<Spec>, f: Id, op: Op, k: imap<Outcome, Body>)
    requires OnTop(orc, s, g, f) && s.heap[f].frame.phase.Running? && s.heap[f].frame.pc == AwaitOp(op, k)
    ensures Advances(orc, s, g, AwaitOperation(orc, s, f, op, k, Immediate), g)
  {
    ImmediateYields(orc, s, f, op, k);
    AwaitUnfolds(orc, s.heap[f].frame.pc, g[f].env, Delivered(op.kind, orc(op)));
    SoloAdvances(orc, s, g, AwaitOperation(orc, s, f, op, k, Immediate), g, f);
    ImmediatePays(orc, s, g, f, op, k);
  }

  lemma ImmediateYields(orc: Oracle, s: State, f: Id, op: Op, k: imap<Outcome, Body>)
    requires IsLive(s, f)
    ensures var s' := AwaitOperation(orc, s, f, op, k, Immediate);
            && s' == s.(heap := s'.heap) && f < |s'.heap| && s'.heap == s.heap[f := s'.heap[f]] && s'.heap[f].Live?
            && s'.heap[f].frame
               == s.heap[f].frame.(pc := Continue(k, Delivered(op.kind, orc(op))), awaitable := s'.heap[f].frame.awaitable)
  {
  }

  lemma ImmediatePays(orc: Oracle, s: State, g: seq<Spec>, f: Id, op: Op, k: imap<Outcome, Body>)
    requires |g| == |s.heap| && IsLive(s, f) && s.heap[f].frame.phase.Running? && s.heap[f].frame.pc == AwaitOp(op, k)
    ensures |AwaitOperation(orc, s, f, op, k, Immediate).heap| == |g|
    ensures Measure(orc, AwaitOperation(orc, s, f, op, k, Immediate), g) < Measure(orc, s, g)
  {
    ImmediateYields(orc, s, f, op, k);
    AwaitUnfolds(orc, s.heap[f].frame.pc, g[f].env, Delivered(op.kind, orc(op)));
    TotalDrops(orc, s.heap, g, AwaitOperation(orc, s, f, op, k, Immediate).heap, g, f);
  }

  /** A deferred operation suspends its coroutine under its own request, and remembers it in `h_`. */
  lemma DeferredAdvances(orc: Oracle, s: State, g: seq<Spec>, f: Id, op: Op, k: imap<Outcome, Body>, r: nat)
      returns (g': seq<Spec>)
    requires OnTop(orc, s, g, f) && s.heap[f].frame.phase.Running? && s.heap[f].frame.pc == AwaitOp(op, k)
    requires r !in s.requests
    ensures Advances(orc, s, g, AwaitOperation(orc, s, f, op, k, Deferred(r)), g')
  {
    var s' := AwaitOperation(orc, s, f, op, k, Deferred(r));
    g' := g[f := g[f].(request := r)];
    PopKeepsStack(s, s');
    SoloAdvances(orc, s, g, s', g', f);
    DeferredPays(orc, s, g, f, op, k, r);
  }

  lemma DeferredPays(orc: Oracle, s: State, g: seq<Spec>, f: Id, op: Op, k: imap<Outcome, Body>, r: nat)
    requires |g| == |s.heap| && IsLive(s, f) && s.heap[f].frame.phase.Running? && s.heap[f].frame.pc == AwaitOp(op, k)
    requires Eval(orc, s.heap[f].frame.pc, g[f].env).Some?
    ensures Measure(orc, AwaitOperation(orc, s, f, op, k, Deferred(r)), g[f := g[f].(request := r)]) < Measure(orc, s, g)
  {
    AwaitUnfolds(orc, s.heap[f].frame.pc, g[f].env, Delivered(op.kind, orc(op)));
    TotalDrops(orc, s.heap, g, AwaitOperation(orc, s, f, op, k, Deferred(r)).heap, g[f := g[f].(request := r)], f);
  }

  lemma ResumeOpAdvances(orc: Oracle, s: State, g: seq<Spec>, f: Id)
    requires OnTop(orc, s, g, f) && s.heap[f].frame.phase.ResumingOp?
    ensures Advances(orc, s, g, ResumeOperation(s, f), g)
  {
    var s' := ResumeOperation(s, f);
    var fr := s.heap[f].frame;
    AwaitUnfolds(orc, fr.pc, g[f].env, Delivered(fr.pc.op.kind, orc(fr.pc.op)));
    SoloAdvances(orc, s, g, s', g, f);
    TotalDrops(orc, s.heap, g, s'.heap, g, f);
  }

  /** A callback finds its coroutine alive and suspended, frees its request and resumes it. */
  lemma CallbackAdvances(orc: Oracle, s: State, g: seq<Spec>, r: nat)
    requires Inv(orc, s, g) && r in s.requests && s.stack == []
    ensures Advances(orc, s, g, FireCallback(orc, s, r), g)
  {
    CallbackResumes(orc, s, g, r);
    SoloAdvances(orc, s, g, FireCallback(orc, s, r), g, s.requests[r].userData);
    CallbackPays(orc, s, g, r);
  }

  lemma CallbackResumes(orc: Oracle, s: State, g: seq<Spec>, r: nat)
    requires Inv(orc, s, g) && r in s.requests && s.stack == []
    ensures var f := s.requests[r].userData;
            && IsLive(s, f) && s.heap[f].frame.phase.WaitingOp? && s.heap[f].frame.pc.AwaitOp?
            && Eval(orc, s.heap[f].frame.pc, g[f].env) == Some(g[f].outcome)
            && (g[f].tidy ==> Tidy(orc, s.heap[f].frame.pc, g[f].env))
            && var fr := s.heap[f].frame;
               var a := OnCompletion(fr.awaitable, orc(s.requests[r].op));
               && a.status != InProgress && AwaitResume(a) == Delivered(fr.pc.op.kind, orc(fr.pc.op))
               && FireCallback(orc, s, r)
                  == State(s.heap[f := Live(fr.(awaitable := a, phase := ResumingOp))], [f], s.requests - {r}, None)
  {
    assert FrameOk(orc, s, g, s.requests[r].userData);
  }

  lemma CallbackPays(orc: Oracle, s: State, g: seq<Spec>, r: nat)
    requires Inv(orc, s, g) && r in s.requests && s.stack == []
    ensures Measure(orc, FireCallback(orc, s, r), g) < Measure(orc, s, g)
  {
    CallbackResumes(orc, s, g, r);
    var f := s.requests[r].userData;
    var fr := s.heap[f].frame;
    AwaitUnfolds(orc, fr.pc, g[f].env, Delivered(fr.pc.op.kind, orc(fr.pc.op)));
    TotalDrops(orc, s.heap, g, FireCallback(orc, s, r).heap, g, f);
  }
}
