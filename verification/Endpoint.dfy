/**
  Closing an endpoint. Three parties compete for one UCX handle: the coroutine `close()`, the error
  callback that UCX may deliver, and the destructor. UCX may complete a close at once, take it and
  complete it later, or refuse it.
 */
module Endpoint {

  datatype Answer = Completed | Pending | Refused

  /** What UCX knows of the handle: no close accepted yet, one in progress, or closed. */
  datatype Handle = Open | Closing | Closed

  /**
    `hasHandle` and `hasRequest` say that `ep_` and `close_request_` are not null. `waiting` counts
    the `close()` coroutines that are suspended. The last five fields are the account of what was
    asked of UCX: `misuses` counts the closes of a null handle or of one whose close was accepted
    before, `byCoroutine` says that a `close()` has been accepted.
   */
  datatype State = State(
    hasHandle: bool,
    hasRequest: bool,
    handle: Handle,
    waiting: nat,
    errorSeen: bool,
    destroyed: bool,
    calls: nat,
    attempts: nat,
    accepted: nat,
    misuses: nat,
    byCoroutine: bool)

  const FRESH: State := State(true, false, Open, 0, false, false, 0, 0, 0, 0, false)

  datatype Event =
    | BeginClose(answer: Answer)  // `close()` is called and runs until it suspends or ends
    | EndClose(ok: bool)          // the callback of its request resumes it
    | Error(answer: Answer)       // UCX calls `error_cb`; the answer is used if it closes the handle
    | Settle                      // a close that no coroutine waits for completes
    | Destroy(answer: Answer)     // `~endpoint`

  /** UCX is asked to close a handle. */
  function AskUcx(s: State, valid: bool, answer: Answer): State {
    s.(attempts := s.attempts + 1,
       accepted := s.accepted + (if answer.Refused? then 0 else 1),
       misuses := s.misuses + (if valid && s.handle.Open? then 0 else 1),
       handle := match answer case Completed => Closed case Pending => Closing case Refused => s.handle)
  }

  /** `close()` up to its suspension: the awaitable's `await_ready`, and the end if it is ready. */
  function CloseReady(s: State, answer: Answer): State {
    var s' := AskUcx(s, s.hasHandle, answer).(calls := s.calls + 1, byCoroutine := s.byCoroutine || !answer.Refused?);
    match answer
    case Completed => s'.(hasHandle := false)
    case Pending => s'.(hasRequest := true, waiting := s.waiting + 1)
    case Refused => s'
  }

  /** The rest of `close()`: a failed close throws before `ep_` is cleared. */
  function CloseResumed(s: State, ok: bool): State
    requires s.waiting > 0
  {
    s.(waiting := s.waiting - 1, handle := Closed, hasHandle := s.hasHandle && !ok)
  }

  function ErrorCallback(s: State, answer: Answer): State {
    var s' := s.(errorSeen := true);
    if s.hasRequest then s'
    else match answer
         case Refused => AskUcx(s', true, answer).(hasRequest := false, hasHandle := false)
         case Pending => AskUcx(s', true, answer).(hasRequest := true)
         case Completed => AskUcx(s', true, answer).(hasRequest := false, hasHandle := false)
  }

  function Destructor(s: State, answer: Answer): State {
    var s' := s.(destroyed := true);
    if s.hasHandle && !s.hasRequest then AskUcx(s', true, answer) else s'
  }

  /**
    What may happen when: UCX reports at most one error and none for a closed handle, and whoever
    calls `close()` holds the endpoint until it returns.
   */
  predicate Enabled(s: State, e: Event) {
    match e
    case BeginClose(_) => !s.destroyed
    case EndClose(_) => s.waiting > 0
    case Error(_) => !s.destroyed && !s.errorSeen && !s.handle.Closed?
    case Settle => s.waiting == 0 && s.handle.Closing?
    case Destroy(_) => !s.destroyed && s.waiting == 0
  }

  function Step(s: State, e: Event): State
    requires Enabled(s, e)
  {
    match e
    case BeginClose(answer) => CloseReady(s, answer)
    case EndClose(ok) => CloseResumed(s, ok)
    case Error(answer) => ErrorCallback(s, answer)
    case Settle => s.(handle := Closed)
    case Destroy(answer) => Destructor(s, answer)
  }

  predicate IsRun(s: State, es: seq<Event>)
    decreases |es|
  {
    es == [] || (Enabled(s, es[0]) && IsRun(Step(s, es[0]), es[1..]))
  }

  function Exec(s: State, es: seq<Event>): State
    requires IsRun(s, es)
    decreases |es|
  {
    if es == [] then s else Exec(Step(s, es[0]), es[1..])
  }

  /** Every `close()` of the run begins before any error callback and before any accepted close. */
  predicate InTime(s: State, es: seq<Event>)
    requires IsRun(s, es)
    decreases |es|
  {
    es == [] || ((es[0].BeginClose? ==> !s.errorSeen && !s.byCoroutine) && InTime(Step(s, es[0]), es[1..]))
  }

  // ------------------------------------------------------------------------------------------------

  /** The destructor has nothing to do. */
  predicate Spent(s: State) {
    !s.hasHandle || s.hasRequest
  }

  ghost predicate Inv(s: State) {
    && s.misuses == 0 && s.accepted <= 1 && s.accepted <= s.attempts && s.waiting <= 1
    && (s.hasRequest ==> s.accepted == 1) && (s.handle.Closing? && !s.destroyed ==> s.hasRequest)
    && (s.handle.Open? <==> s.accepted == 0)
    && (s.waiting > 0 ==> s.byCoroutine && s.hasRequest && s.handle.Closing? && !s.destroyed)
    && (s.byCoroutine ==> s.accepted == 1 && s.attempts == s.calls && Spent(s))
    && (!s.byCoroutine && s.errorSeen ==> s.attempts == s.calls + 1 && Spent(s))
    && (!s.byCoroutine && !s.errorSeen ==>
          if s.destroyed then s.attempts == s.calls + 1
          else s.accepted == 0 && s.attempts == s.calls && s.hasHandle && !s.hasRequest)
  }

  /** One step misuses the handle exactly if it is a `close()` that comes too late. */
  lemma StepMisuses(s: State, e: Event)
    requires Inv(s) && Enabled(s, e)
    ensures var late := e.BeginClose? && (s.errorSeen || s.byCoroutine);
            && Step(s, e).misuses == (if late then 1 else 0)
            && (!late ==> Inv(Step(s, e)))
  {
  }

  /** Misuses are never taken back. */
  lemma {:induction false} MisusesGrow(s: State, es: seq<Event>)
    requires IsRun(s, es)
    ensures s.misuses <= Exec(s, es).misuses
    decreases |es|
  {
    if es != [] {
      MisusesGrow(Step(s, es[0]), es[1..]);
    }
  }

  lemma {:induction false} RunKeeps(s: State, es: seq<Event>)
    requires Inv(s) && IsRun(s, es)
    ensures Exec(s, es).misuses == 0 <==> InTime(s, es)
    ensures InTime(s, es) ==> Inv(Exec(s, es))
    decreases |es|
  {
    if es != [] {
      StepMisuses(s, es[0]);
      var s' := Step(s, es[0]);
      if s'.misuses == 0 {
        RunKeeps(s', es[1..]);
      } else {
        MisusesGrow(s', es[1..]);
      }
    }
  }

  /**
    Over every run, UCX is never asked to close a handle that is null or has an accepted close
    exactly if every `close()` began in time. Then at most one close is accepted, and an endpoint
    that has been destroyed asked once per `close()`, and once more exactly if none of these was
    accepted: so at least one close was attempted.
   */
  lemma {:induction false} CloseDiscipline(es: seq<Event>)
    requires IsRun(FRESH, es)
    ensures var s := Exec(FRESH, es);
            && (s.misuses == 0 <==> InTime(FRESH, es))
            && (InTime(FRESH, es) ==>
                  && s.accepted <= 1
                  && (s.destroyed ==> s.attempts == s.calls + (if s.byCoroutine then 0 else 1) >= 1))
  {
    RunKeeps(FRESH, es);
  }

  /**
    The destructor closes what is not closed yet, as it is documented to, except after an error: when
    UCX has refused the close that the error callback asked for, nobody asks again.
   */
  lemma {:induction false} DestructorAsksIff(es: seq<Event>, answer: Answer)
    requires IsRun(FRESH, es) && InTime(FRESH, es) && Enabled(Exec(FRESH, es), Destroy(answer))
    ensures var s := Exec(FRESH, es);
            Step(s, Destroy(answer)).attempts > s.attempts <==> s.handle.Open? && !s.errorSeen
  {
    RunKeeps(FRESH, es);
  }

  /** A `close()` begun after the error callback: UCX can be left with two closes of one handle. */
  lemma CloseAfterErrorClosesTwice()
    ensures exists es :: IsRun(FRESH, es) && |es| == 2 && Exec(FRESH, es).accepted == 2
  {
    var es := [Error(Pending), BeginClose(Pending)];
    var s1 := Step(FRESH, es[0]);
    var s2 := Step(s1, es[1]);
    assert es[1..][1..] == [] && IsRun(s2, []);
    assert IsRun(s1, es[1..]) && Exec(s1, es[1..]) == s2;
    assert IsRun(FRESH, es) && Exec(FRESH, es) == s2;
  }

  // ------------------------------------------------------------------------------------------------
  // What the two pointers tell

  /** A close has been taken by UCX to be completed later, for a coroutine or for the error callback. */
  predicate Requested(es: seq<Event>) {
    BeginClose(Pending) in es || Error(Pending) in es
  }

  /**
    The last event of a run ends the use of the handle: a `close()` that need not wait, or one that
    returns, or an error callback that finds no close request and need not wait either.
   */
  predicate Clears(es: seq<Event>, i: nat)
    requires i < |es|
  {
    match es[i]
    case BeginClose(answer) => answer.Completed?
    case EndClose(ok) => ok
    case Error(answer) => !answer.Pending? && !Requested(es[..i])
    case _ => false
  }

  predicate Cleared(es: seq<Event>) {
    exists i :: 0 <= i < |es| && Clears(es, i)
  }

  lemma {:induction false} ClearedExtends(es: seq<Event>, e: Event)
    ensures Cleared(es + [e]) <==> Cleared(es) || Clears(es + [e], |es|)
    ensures Requested(es + [e]) <==> Requested(es) || e == BeginClose(Pending) || e == Error(Pending)
  {
    var all := es + [e];
    forall i | 0 <= i < |es|
      ensures Clears(all, i) <==> Clears(es, i)
    {
      assert all[..i] == es[..i];
    }
    if Cleared(es) {
      var i :| 0 <= i < |es| && Clears(es, i);
      assert Clears(all, i);
    }
  }

  /**
    Over every run, in time or not: `close_request_` is set exactly if some close was taken to be
    completed later, and the handle is null exactly if a `close()` has succeeded or the error callback
    has disposed of the handle. So a `close()` that throws leaves the handle as it was.
   */
  lemma {:induction false} PointersTellHistory(es: seq<Event>, n: nat)
    requires IsRun(FRESH, es) && n == |es|
    ensures Exec(FRESH, es).hasRequest <==> Requested(es)
    ensures Exec(FRESH, es).hasHandle <==> !Cleared(es)
    decreases n
  {
    if n > 0 {
      var before, e := es[..n - 1], es[n - 1];
      assert es == before + [e];
      RunSplits(FRESH, before, e);
      PointersTellHistory(before, n - 1);
      ClearedExtends(before, e);
      assert es[..n - 1] == before;
    }
  }

  lemma {:induction false} RunSplits(s: State, es: seq<Event>, e: Event)
    requires IsRun(s, es + [e])
    ensures IsRun(s, es) && Enabled(Exec(s, es), e) && Exec(s, es + [e]) == Step(Exec(s, es), e)
    decreases |es|
  {
    if es == [] {
      assert es + [e] == [e] && [e][1..] == [];
      assert Exec(Step(s, e), []) == Step(s, e);
    } else {
      assert (es + [e])[1..] == es[1..] + [e] && (es + [e])[0] == es[0];
      RunSplits(Step(s, es[0]), es[1..], e);
    }
  }

  /** A close of the handle is complete with this event: UCX took it and had nothing to wait for, or is through. */
  predicate Completes(es: seq<Event>, i: nat)
    requires i < |es|
  {
    match es[i]
    case BeginClose(answer) => answer.Completed?
    case EndClose(_) => true
    case Error(answer) => answer.Completed? && !Requested(es[..i])
    case Settle => true
    case Destroy(answer) => answer.Completed? && !Requested(es[..i]) && !Cleared(es[..i])
  }

  predicate Completed(es: seq<Event>) {
    exists i :: 0 <= i < |es| && Completes(es, i)
  }

  lemma {:induction false} CompletedExtends(es: seq<Event>, e: Event)
    ensures Completed(es + [e]) <==> Completed(es) || Completes(es + [e], |es|)
  {
    var all := es + [e];
    forall i | 0 <= i < |es|
      ensures Completes(all, i) <==> Completes(es, i)
    {
      assert all[..i] == es[..i];
    }
    if Completed(es) {
      var i :| 0 <= i < |es| && Completes(es, i);
      assert Completes(all, i);
    }
  }

  lemma {:induction false} InTimeSplits(s: State, es: seq<Event>, e: Event)
    requires IsRun(s, es + [e]) && IsRun(s, es) && InTime(s, es + [e])
    ensures InTime(s, es) && (e.BeginClose? ==> !Exec(s, es).errorSeen && !Exec(s, es).byCoroutine)
    decreases |es|
  {
    if es == [] {
      assert es + [e] == [e];
    } else {
      assert (es + [e])[1..] == es[1..] + [e] && (es + [e])[0] == es[0];
      InTimeSplits(Step(s, es[0]), es[1..], e);
    }
  }

  /**
    In every run in which each `close()` began in time, UCX has the handle open exactly if it has
    accepted no close, and closed exactly if a close is complete.
   */
  lemma {:induction false} HandleTellsHistory(es: seq<Event>, n: nat)
    requires IsRun(FRESH, es) && InTime(FRESH, es) && n == |es|
    ensures Exec(FRESH, es).handle.Open? <==> Exec(FRESH, es).accepted == 0
    ensures Exec(FRESH, es).handle.Closed? <==> Completed(es)
    decreases n
  {
    RunKeeps(FRESH, es);
    if n > 0 {
      var before, e := es[..n - 1], es[n - 1];
      assert es == before + [e];
      RunSplits(FRESH, before, e);
      InTimeSplits(FRESH, before, e);
      RunKeeps(FRESH, before);
      HandleTellsHistory(before, n - 1);
      PointersTellHistory(before, n - 1);
      CompletedExtends(before, e);
      assert es[..n - 1] == before;
    }
  }

  /**
    An endpoint that nobody asks to close again: UCX refuses the close that the error callback asks
    for, and the destructor asks for nothing.
   */
  lemma RefusedCloseIsNotRepeated(answer: Answer)
    ensures exists es :: IsRun(FRESH, es) && InTime(FRESH, es)
                         && (var s := Exec(FRESH, es); s.destroyed && s.handle.Open? && s.attempts == 1 && s.accepted == 0)
  {
    var es := [Error(Refused), Destroy(answer)];
    var s1 := Step(FRESH, es[0]);
    var s2 := Step(s1, es[1]);
    assert es[1..][1..] == [] && IsRun(s2, []) && InTime(s2, []);
    assert IsRun(s1, es[1..]) && Exec(s1, es[1..]) == s2 && InTime(s1, es[1..]);
    assert IsRun(FRESH, es) && Exec(FRESH, es) == s2 && InTime(FRESH, es);
  }

  lemma {:induction false} RunExtends(s: State, es: seq<Event>, e: Event)
    requires IsRun(s, es) && Enabled(Exec(s, es), e)
    ensures IsRun(s, es + [e]) && Exec(s, es + [e]) == Step(Exec(s, es), e)
    decreases |es|
  {
    if es == [] {
      assert [e][1..] == [] && es + [e] == [e];
      assert Exec(Step(s, e), []) == Step(s, e);
    } else {
      assert (es + [e])[1..] == es[1..] + [e];
      RunExtends(Step(s, es[0]), es[1..], e);
    }
  }

  // ------------------------------------------------------------------------------------------------

  /** The endpoint object, with UCX's account of its handle beside its own two fields. */
  class Endpoint {
    var hasHandle: bool
    var hasRequest: bool
    var ucx: State

    constructor ()
      ensures Snapshot() == FRESH
    {
      hasHandle, hasRequest, ucx := true, false, FRESH;
    }

    function Snapshot(): State
      reads this
    {
      ucx.(hasHandle := hasHandle, hasRequest := hasRequest)
    }

    method Ask(valid: bool, answer: Answer)
      modifies this`ucx
      ensures Snapshot() == AskUcx(old(Snapshot()), valid, answer)
    {
      ucx := AskUcx(ucx, valid, answer);
    }

    /** `error_cb`. */
    method OnError(answer: Answer)
      modifies this
      ensures Snapshot() == ErrorCallback(old(Snapshot()), answer)
    {
      ucx := ucx.(errorSeen := true);
      if !hasRequest {
        Ask(true, answer);
        if answer.Refused? {
          hasRequest := false;
          hasHandle := false;
        } else if answer.Pending? {
          hasRequest := true;
        } else {
          hasRequest := false;
          hasHandle := false;
        }
      }
    }

    /** `ep_close_awaitable::await_ready`, and the end of `close()` if it need not wait. */
    method Close(answer: Answer) returns (ready: bool)
      modifies this
      ensures Snapshot() == CloseReady(old(Snapshot()), answer)
      ensures ready <==> !answer.Pending?
    {
      Ask(hasHandle, answer);
      ucx := ucx.(calls := ucx.calls + 1, byCoroutine := ucx.byCoroutine || !answer.Refused?);
      ready := !answer.Pending?;
      if ready {
        if answer.Completed? {
          hasHandle := false;
        }
      } else {
        hasRequest := true;
        ucx := ucx.(waiting := ucx.waiting + 1);
      }
    }

    /** `close()` from its suspension on. */
    method FinishClose(ok: bool)
      requires ucx.waiting > 0
      modifies this
      ensures Snapshot() == CloseResumed(old(Snapshot()), ok)
    {
      ucx := ucx.(waiting := ucx.waiting - 1, handle := Closed);
      if ok {
        hasHandle := false;
      }
    }

    /** `~endpoint`. */
    method Destruct(answer: Answer)
      modifies this
      ensures Snapshot() == Destructor(old(Snapshot()), answer)
    {
      ucx := ucx.(destroyed := true);
      if hasHandle && !hasRequest {
        Ask(true, answer);
      }
    }

    /** One thing that may happen to the object before it is destroyed, if anything is to happen. */
    method SomethingHappens(ghost trace: seq<Event>) returns (ghost trace': seq<Event>)
      requires IsRun(FRESH, trace) && Snapshot() == Exec(FRESH, trace) && !ucx.destroyed
      modifies this
      ensures IsRun(FRESH, trace') && Snapshot() == Exec(FRESH, trace') && !ucx.destroyed
    {
      trace' := trace;
      var answer: Answer, ok: bool := *, *;
      if
      case true =>
        RunExtends(FRESH, trace, BeginClose(answer));
        trace' := trace + [BeginClose(answer)];
        var ready := Close(answer);
      case ucx.waiting > 0 =>
        RunExtends(FRESH, trace, EndClose(ok));
        trace' := trace + [EndClose(ok)];
        FinishClose(ok);
      case !ucx.errorSeen && !ucx.handle.Closed? =>
        RunExtends(FRESH, trace, Error(answer));
        trace' := trace + [Error(answer)];
        OnError(answer);
      case ucx.waiting == 0 && ucx.handle.Closing? =>
        RunExtends(FRESH, trace, Settle);
        trace' := trace + [Settle];
        ucx := ucx.(handle := Closed);
      case true =>
    }

    /** The pending closes end one after the other. */
    method EndCloses(ghost trace: seq<Event>) returns (ghost trace': seq<Event>)
      requires IsRun(FRESH, trace) && Snapshot() == Exec(FRESH, trace) && !ucx.destroyed
      modifies this
      ensures IsRun(FRESH, trace') && Snapshot() == Exec(FRESH, trace') && !ucx.destroyed && ucx.waiting == 0
    {
      trace' := trace;
      while ucx.waiting > 0
        invariant IsRun(FRESH, trace') && Snapshot() == Exec(FRESH, trace') && !ucx.destroyed
        decreases ucx.waiting
      {
        var ok: bool := *;
        RunExtends(FRESH, trace', EndClose(ok));
        trace' := trace' + [EndClose(ok)];
        FinishClose(ok);
      }
    }

    /**
      The life of an endpoint, with whatever calls, errors and answers: it is a run, so it misuses its
      handle exactly if a `close()` came too late, and else asked UCX once for each `close()`, and once
      more exactly if none of these was accepted; and its two pointers tell what has happened.
     */
    method Live() returns (ghost trace: seq<Event>)
      requires Snapshot() == FRESH
      modifies this
      ensures IsRun(FRESH, trace) && Snapshot() == Exec(FRESH, trace) && ucx.destroyed
      ensures ucx.misuses == 0 <==> InTime(FRESH, trace)
      ensures InTime(FRESH, trace) ==>
                ucx.accepted <= 1 && ucx.attempts == ucx.calls + (if ucx.byCoroutine then 0 else 1) >= 1
      ensures (hasRequest <==> Requested(trace)) && (hasHandle <==> !Cleared(trace))
    {
      trace := [];
      var n: nat := *;
      while n > 0
        invariant IsRun(FRESH, trace) && Snapshot() == Exec(FRESH, trace) && !ucx.destroyed
      {
        trace := SomethingHappens(trace);
        n := n - 1;
      }
      trace := EndCloses(trace);
      var answer: Answer := *;
      RunExtends(FRESH, trace, Destroy(answer));
      trace := trace + [Destroy(answer)];
      Destruct(answer);
      CloseDiscipline(trace);
      PointersTellHistory(trace, |trace|);
    }
  }
}
