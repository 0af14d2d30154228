/**
  The event loop and its channels: a map from descriptors to weak channel pointers that must agree
  with the kernel's epoll set, while callbacks run in the middle of a batch of events.

  Only readiness events are modelled; error and hang-up events are not part of this model.
 */
module EventLoop {
  type Fd = nat

  type ChannelId = nat

  /** What a callback does when called, for instance resume one suspended coroutine. */
  type Token = nat

  /** The descriptor of the event that `close()` signals. */
  const CLOSE_FD: Fd := 0

  datatype Direction = Readable | Writable

  /** A channel object and the callbacks stored in it, which are never cleared. */
  datatype Channel = Channel(fd: Fd, readableCallback: Token, writableCallback: Token) {
    function Callback(d: Direction): Token {
      match d case Readable => readableCallback case Writable => writableCallback
    }

    function SetCallback(d: Direction, t: Token): Channel {
      match d case Readable => this.(readableCallback := t) case Writable => this.(writableCallback := t)
    }
  }

  /** One entry of `events_`. */
  datatype Ready = Ready(fd: Fd, direction: Direction)

  /** `batch` holds the events of the current `poll` still to be handled; `fault` a failed assertion. */
  datatype State = State(
    channels: map<Fd, ChannelId>, interest: map<Fd, Direction>, live: map<ChannelId, Channel>,
    batch: seq<Ready>, closeTriggered: bool, fault: bool)

  function Init(): State {
    State(map[], map[CLOSE_FD := Readable], map[], [], false, false)
  }

  /**
    `register_channel`: insert into the map, which keeps an existing entry, then add to the epoll
    set; when the descriptor is there already the call fails, the entry is erased and it throws.
   */
  function Register(s: State, id: ChannelId, d: Direction): (State, bool)
    requires id in s.live
  {
    var fd := s.live[id].fd;
    var inserted := if fd in s.channels then s.channels else s.channels[fd := id];
    if fd in s.interest then (s.(channels := inserted - {fd}), false)
    else (s.(channels := inserted, interest := s.interest[fd := d]), true)
  }

  /** `deregister`; a descriptor that is not in the epoll set is not an error. */
  function Deregister(s: State, fd: Fd): State {
    s.(interest := s.interest - {fd}, channels := s.channels - {fd})
  }

  /**
    What happens: `epoll_wait` returns a batch, the next event of a batch is handled, or code running
    in a callback or between polls opens a channel, waits on one with a new callback or with the one
    that is stored, or destroys one.
   */
  datatype Event =
    | Poll(events: seq<Ready>)
    | Dispatch
    | Open(id: ChannelId, fd: Fd)
    | Wait(id: ChannelId, direction: Direction, token: Token)
    | WaitAgain(id: ChannelId, direction: Direction)
    | Destroy(id: ChannelId)

  /** Handling one event: find the channel, deregister it, and only then call its callback. */
  function HandleEvent(s: State): State {
    if s.batch == [] then s
    else
      var fd, rest := s.batch[0].fd, s.(batch := s.batch[1..]);
      if fd == CLOSE_FD then rest.(closeTriggered := true)
      else if fd !in s.channels then rest.(fault := true)
      else if s.channels[fd] !in s.live then rest.(channels := s.channels - {fd})
      else Deregister(rest, s.live[s.channels[fd]].fd)
  }

  function Step(s: State, e: Event): State {
    match e
    case Poll(events) => s.(batch := events)
    case Dispatch => HandleEvent(s)
    case Open(id, fd) => s.(live := s.live[id := Channel(fd, 0, 0)])
    case Wait(id, d, t) =>
      if id !in s.live then s else Register(s.(live := s.live[id := s.live[id].SetCallback(d, t)]), id, d).0
    case WaitAgain(id, d) => if id !in s.live then s else Register(s, id, d).0
    case Destroy(id) => if id !in s.live then s else Deregister(s, s.live[id].fd).(live := s.live - {id})
  }

  /** The callback that handling the next event calls: which channel, and what was stored in it. */
  predicate Fires(s: State, e: Event, c: ChannelId, t: Token) {
    && e.Dispatch? && s.batch != []
    && s.batch[0].fd != CLOSE_FD && s.batch[0].fd in s.channels
    && s.channels[s.batch[0].fd] == c && c in s.live
    && s.live[c].Callback(s.batch[0].direction) == t
  }

  /**
    The kernel reports each registered descriptor at most once a batch, for what it is registered
    for. The client opens descriptors that are not open, waits on channels that are not waiting, and
    does not destroy a channel that has an event left in the current batch.
   */
  predicate Enabled(s: State, e: Event) {
    && !s.fault
    && match e
       case Poll(events) =>
         && s.batch == []
         && (forall i :: 0 <= i < |events| ==> events[i].fd in s.interest && s.interest[events[i].fd] == events[i].direction)
         && (forall i, j :: 0 <= i < j < |events| ==> events[i].fd != events[j].fd)
       case Dispatch => s.batch != []
       case Open(id, fd) => id !in s.live && fd != CLOSE_FD && forall c :: c in s.live ==> s.live[c].fd != fd
       case Wait(id, _, _) => id in s.live && s.live[id].fd !in s.interest
       case WaitAgain(id, _) => id in s.live && s.live[id].fd !in s.interest
       case Destroy(id) => id in s.live && forall i :: 0 <= i < |s.batch| ==> s.batch[i].fd != s.live[id].fd
  }

  predicate IsRun(s: State, es: seq<Event>)
    decreases |es|
  {
    es == [] || (Enabled(s, es[0]) && IsRun(Step(s, es[0]), es[1..]))
  }

  function Exec(s: State, es: seq<Event>): State
    decreases |es|
  {
    if es == [] then s else Exec(Step(s, es[0]), es[1..])
  }

  // ------------------------------------------------------------------------------------------------
  // Agreement

  /** The map and the epoll set hold the same descriptors, apart from the close event. */
  ghost predicate Agrees(s: State) {
    s.channels.Keys == s.interest.Keys - {CLOSE_FD}
  }

  ghost predicate Inv(s: State) {
    && !s.fault && Agrees(s) && CLOSE_FD in s.interest
    && (forall fd :: fd in s.channels ==> s.channels[fd] in s.live && s.live[s.channels[fd]].fd == fd)
    && (forall c :: c in s.live ==> s.live[c].fd != CLOSE_FD)
    && (forall c, d :: c in s.live && d in s.live && s.live[c].fd == s.live[d].fd ==> c == d)
    && (forall i :: 0 <= i < |s.batch| ==> s.batch[i].fd in s.interest && s.interest[s.batch[i].fd] == s.batch[i].direction)
    && (forall i, j :: 0 <= i < j < |s.batch| ==> s.batch[i].fd != s.batch[j].fd)
  }

  lemma DispatchKeeps(s: State)
    requires Inv(s) && s.batch != []
    ensures Inv(HandleEvent(s))
  {
    var fd, rest := s.batch[0].fd, s.batch[1..];
    assert fd == CLOSE_FD || fd in s.channels.Keys;
    forall i | 0 <= i < |rest|
      ensures rest[i] == s.batch[i + 1] && rest[i].fd != fd
    {
    }
  }

  lemma WaitKeeps(s: State, e: Event)
    requires Inv(s) && Enabled(s, e) && (e.Wait? || e.WaitAgain?)
    ensures Inv(Step(s, e))
  {
  }

  lemma DestroyKeeps(s: State, id: ChannelId)
    requires Inv(s) && Enabled(s, Destroy(id))
    ensures Inv(Step(s, Destroy(id)))
  {
  }

  lemma StepKeeps(s: State, e: Event)
    requires Inv(s) && Enabled(s, e)
    ensures Inv(Step(s, e))
  {
    match e
    case Dispatch => DispatchKeeps(s);
    case Wait(_, _, _) => WaitKeeps(s, e);
    case WaitAgain(_, _) => WaitKeeps(s, e);
    case Destroy(id) => DestroyKeeps(s, id);
    case _ =>
  }

  lemma {:induction false} RunKeeps(s: State, es: seq<Event>)
    requires Inv(s) && IsRun(s, es)
    ensures Inv(Exec(s, es))
    decreases |es|
  {
    if es != [] {
      StepKeeps(s, es[0]);
      RunKeeps(Step(s, es[0]), es[1..]);
    }
  }

  /**
    At every point of every run, inside callbacks too: the map agrees with the epoll set, and every
    event still to be handled finds its channel in the map, alive, on the descriptor it was reported
    for and waiting for what was reported. So the assertion in `poll` never fails.
   */
  lemma {:induction false} MapAgreesWithEpoll(es: seq<Event>, i: nat)
    requires IsRun(Init(), es)
    ensures var s := Exec(Init(), es);
            && !s.fault && Agrees(s)
            && (i < |s.batch| && s.batch[i].fd != CLOSE_FD ==>
                  var fd := s.batch[i].fd;
                  && fd in s.channels && s.channels[fd] in s.live && s.live[s.channels[fd]].fd == fd
                  && s.interest[fd] == s.batch[i].direction)
  {
    RunKeeps(Init(), es);
  }

  /** Registering keeps map and epoll set in agreement exactly when the descriptor was not registered. */
  lemma RegisterAgreesIff(s: State, id: ChannelId, d: Direction)
    requires Inv(s) && id in s.live
    ensures var (s', ok) := Register(s, id, d);
            && (ok <==> s.live[id].fd !in s.interest)
            && (Agrees(s') <==> s.live[id].fd !in s.interest)
  {
    var s' := Register(s, id, d).0;
    var fd := s.live[id].fd;
    if fd in s.interest {
      assert fd in s'.interest.Keys - {CLOSE_FD} && fd !in s'.channels.Keys;
    }
  }

  /**
    Why a callback must leave channels with events left in the batch alone: destroying one makes the
    lookup of its event fail, unless the descriptor is opened and registered again before.
   */
  lemma DestroyedWithEventPendingIff(s: State, id: ChannelId)
    requires Inv(s) && id in s.live && s.batch != []
    ensures Step(Step(s, Destroy(id)), Dispatch).fault <==> s.batch[0].fd == s.live[id].fd
  {
    var s' := Step(s, Destroy(id));
    if s.batch[0].fd != s.live[id].fd && s.batch[0].fd != CLOSE_FD {
      assert s.batch[0].fd in s.channels.Keys;
    }
  }

  // ------------------------------------------------------------------------------------------------
  // One-shot waits

  /** Channel `c` is waiting, and what it will call is `t`. */
  predicate Armed(s: State, c: ChannelId, t: Token) {
    && c in s.live && s.live[c].fd in s.interest
    && s.live[c].Callback(s.interest[s.live[c].fd]) == t
  }

  function Count(b: bool): nat {
    if b then 1 else 0
  }

  /** The event is a wait on `c` that is to call `t`: given with it, or stored before. */
  predicate WaitsWith(s: State, e: Event, c: ChannelId, t: Token) {
    || (e.Wait? && e.id == c && e.token == t)
    || (e.WaitAgain? && e.id == c && c in s.live && s.live[c].Callback(e.direction) == t)
  }

  function Waits(s: State, es: seq<Event>, c: ChannelId, t: Token): nat
    decreases |es|
  {
    if es == [] then 0 else Count(WaitsWith(s, es[0], c, t)) + Waits(Step(s, es[0]), es[1..], c, t)
  }

  function Callbacks(s: State, es: seq<Event>, c: ChannelId, t: Token): nat
    decreases |es|
  {
    if es == [] then 0 else Count(Fires(s, es[0], c, t)) + Callbacks(Step(s, es[0]), es[1..], c, t)
  }

  /** Waits given up because their channel was destroyed. */
  function Cancelled(s: State, es: seq<Event>, c: ChannelId, t: Token): nat
    decreases |es|
  {
    if es == [] then 0 else Count(es[0] == Destroy(c) && Armed(s, c, t)) + Cancelled(Step(s, es[0]), es[1..], c, t)
  }

  lemma StepArms(s: State, e: Event, c: ChannelId, t: Token)
    requires Inv(s) && Enabled(s, e)
    ensures Count(Armed(s, c, t)) + Count(WaitsWith(s, e, c, t))
         == Count(Armed(Step(s, e), c, t)) + Count(Fires(s, e, c, t)) + Count(e == Destroy(c) && Armed(s, c, t))
  {
    RegisteredHasChannel(s);
    match e
    case Open(id, fd) => assert fd !in s.channels;
    case _ =>
  }

  /** A registered descriptor is in the map under its own channel. */
  lemma RegisteredHasChannel(s: State)
    requires Inv(s)
    ensures forall fd :: fd in s.interest && fd != CLOSE_FD ==> fd in s.channels
    ensures forall c :: c in s.live && s.live[c].fd in s.interest ==> s.channels[s.live[c].fd] == c
  {
    forall fd | fd in s.interest && fd != CLOSE_FD
      ensures fd in s.channels
    {
      assert fd in s.channels.Keys;
    }
  }

  lemma {:induction false} WaitAccounting(s: State, es: seq<Event>, c: ChannelId, t: Token)
    requires Inv(s) && IsRun(s, es)
    ensures Count(Armed(s, c, t)) + Waits(s, es, c, t)
         == Count(Armed(Exec(s, es), c, t)) + Callbacks(s, es, c, t) + Cancelled(s, es, c, t)
    decreases |es|
  {
    if es != [] {
      StepArms(s, es[0], c, t);
      StepKeeps(s, es[0]);
      WaitAccounting(Step(s, es[0]), es[1..], c, t);
    }
  }

  /**
    Waits are one-shot: although callbacks stay stored, the callback of a wait is called once for that
    wait, or not at all when the wait is still pending or was given up.
   */
  lemma {:induction false} WaitsAreOneShot(es: seq<Event>, c: ChannelId, t: Token)
    requires IsRun(Init(), es)
    ensures Waits(Init(), es, c, t)
         == Callbacks(Init(), es, c, t) + Cancelled(Init(), es, c, t) + Count(Armed(Exec(Init(), es), c, t))
  {
    WaitAccounting(Init(), es, c, t);
  }

  /** The callback last given for a direction of a channel, or `t` if none is given. */
  function GivenAfter(t: Token, es: seq<Event>, c: ChannelId, d: Direction): Token
    decreases |es|
  {
    if es == [] then t
    else
      var e := es[0];
      GivenAfter(if e.Wait? && e.id == c && e.direction == d then e.token else if e.Open? && e.id == c then 0 else t,
                 es[1..], c, d)
  }

  lemma {:induction false} GivenIsStored(s: State, es: seq<Event>, c: ChannelId, d: Direction, t: Token)
    requires IsRun(s, es) && (c in s.live ==> s.live[c].Callback(d) == t)
    ensures c in Exec(s, es).live ==> Exec(s, es).live[c].Callback(d) == GivenAfter(t, es, c, d)
    decreases |es|
  {
    if es != [] {
      var e := es[0];
      GivenIsStored(Step(s, e), es[1..], c, d,
                    if e.Wait? && e.id == c && e.direction == d then e.token else if e.Open? && e.id == c then 0 else t);
    }
  }

  /**
    What a channel calls for a direction is what was last given for that direction, whatever was given
    for the other one and however often the channel has been waited on since.
   */
  lemma {:induction false} CallbacksStay(es: seq<Event>, c: ChannelId, d: Direction)
    requires IsRun(Init(), es) && c in Exec(Init(), es).live
    ensures Exec(Init(), es).live[c].Callback(d) == GivenAfter(0, es, c, d)
  {
    GivenIsStored(Init(), es, c, d, 0);
  }

  // ------------------------------------------------------------------------------------------------
  // What the kernel reports is handled

  /** All that `epoll_wait` has reported in a run, in order. */
  function Reported(es: seq<Event>): seq<Ready> {
    if es == [] then [] else (if es[0].Poll? then es[0].events else []) + Reported(es[1..])
  }

  /** The next event to be handled calls what the channel on its descriptor has stored for it. */
  ghost predicate Serves(s: State, ready: Ready) {
    exists c :: c in s.live && s.live[c].fd == ready.fd && Fires(s, Dispatch, c, s.live[c].Callback(ready.direction))
  }

  /**
    The run handles exactly these reports, each once and in this order: a report of a descriptor calls
    the callback stored in its channel at that point, and the close event calls none.
   */
  ghost predicate Handles(s: State, es: seq<Event>, reports: seq<Ready>)
    decreases |es|
  {
    if es == [] then reports == []
    else if es[0].Dispatch? then
      && reports != [] && (reports[0].fd != CLOSE_FD ==> Serves(s, reports[0]))
      && Handles(Step(s, es[0]), es[1..], reports[1..])
    else Handles(Step(s, es[0]), es[1..], reports)
  }

  predicate ReportsClose(reports: seq<Ready>) {
    reports != [] && (reports[0].fd == CLOSE_FD || ReportsClose(reports[1..]))
  }

  lemma NextIsServed(s: State)
    requires Inv(s) && s.batch != [] && s.batch[0].fd != CLOSE_FD
    ensures Serves(s, s.batch[0])
  {
    RegisteredHasChannel(s);
    var c := s.channels[s.batch[0].fd];
    assert Fires(s, Dispatch, c, s.live[c].Callback(s.batch[0].direction));
  }

  /** What one step takes off the batch and puts into it. */
  lemma BatchMoves(s: State, e: Event)
    requires Inv(s) && Enabled(s, e)
    ensures s.batch + Reported([e]) == (if e.Dispatch? then [s.batch[0]] else []) + Step(s, e).batch
    ensures Step(s, e).closeTriggered <==> s.closeTriggered || (e.Dispatch? && s.batch[0].fd == CLOSE_FD)
  {
    assert [e][1..] == [];
  }

  lemma {:induction false} Regroup(batch: seq<Ready>, news: seq<Ready>, done: seq<Ready>, batch': seq<Ready>,
                                   later: seq<Ready>, rest: seq<Ready>, left: seq<Ready>)
    requires batch + news == done + batch' && rest + left == batch' + later
    ensures (done + rest) + left == batch + (news + later)
  {
    assert (done + rest) + left == done + (rest + left) == (done + batch') + later == batch + (news + later);
  }

  lemma {:induction false} RunHandles(s: State, es: seq<Event>) returns (reports: seq<Ready>)
    requires Inv(s) && IsRun(s, es)
    ensures reports + Exec(s, es).batch == s.batch + Reported(es) && Handles(s, es, reports)
    ensures Exec(s, es).closeTriggered <==> s.closeTriggered || ReportsClose(reports)
    decreases |es|
  {
    if es == [] {
      reports := [];
    } else {
      var s1 := Step(s, es[0]);
      StepKeeps(s, es[0]);
      BatchMoves(s, es[0]);
      var rest := RunHandles(s1, es[1..]);
      var done := if es[0].Dispatch? then [s.batch[0]] else [];
      reports := done + rest;
      HandlesOne(s, es, rest);
      Regroup(s.batch, Reported([es[0]]), done, s1.batch, Reported(es[1..]), rest, Exec(s, es).batch);
      assert [es[0]][1..] == [];
    }
  }

  lemma {:induction false} HandlesOne(s: State, es: seq<Event>, rest: seq<Ready>)
    requires Inv(s) && es != [] && Enabled(s, es[0]) && Handles(Step(s, es[0]), es[1..], rest)
    ensures var reports := (if es[0].Dispatch? then [s.batch[0]] else []) + rest;
            && Handles(s, es, reports)
            && (ReportsClose(reports) <==> (es[0].Dispatch? && s.batch[0].fd == CLOSE_FD) || ReportsClose(rest))
  {
    if es[0].Dispatch? {
      assert ([s.batch[0]] + rest)[1..] == rest;
      if s.batch[0].fd != CLOSE_FD {
        NextIsServed(s);
      }
    } else {
      assert [] + rest == rest;
    }
  }

  /**
    Over every run, whatever callbacks do meanwhile: what the kernel has reported is what has been
    handled, once each and in the order of the reports, and then what is left of the current batch; and
    the loop has been told to end exactly if the close event has been handled.
   */
  lemma {:induction false} ReportsAreHandled(es: seq<Event>)
    requires IsRun(Init(), es)
    ensures exists reports ::
              && Handles(Init(), es, reports) && reports + Exec(Init(), es).batch == Reported(es)
              && (Exec(Init(), es).closeTriggered <==> ReportsClose(reports))
  {
    var reports := RunHandles(Init(), es);
    assert Init().batch + Reported(es) == Reported(es);
  }
}
