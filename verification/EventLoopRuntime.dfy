/**
  The event loop as a running object: its map, the kernel's epoll set and the channels are fields
  updated in place, and `poll` walks its buffer of events, calling callbacks that may register,
  open and destroy channels meanwhile.
 */
module EventLoopRuntime {
  import opened EventLoop

  class Loop {
    var channels: map<Fd, ChannelId>
    var interest: map<Fd, Direction>
    var live: map<ChannelId, Channel>
    var events: seq<Ready>
    var closeTriggered: bool
    var fault: bool

    function Snapshot(): State
      reads this
    {
      State(channels, interest, live, events, closeTriggered, fault)
    }

    constructor ()
      ensures Snapshot() == Init()
    {
      channels, interest, live, events := map[], map[CLOSE_FD := Readable], map[], [];
      closeTriggered, fault := false, false;
    }

    /** `register_channel`; `ok` is false when it throws. */
    method RegisterChannel(id: ChannelId, d: Direction) returns (ok: bool)
      requires id in live
      modifies this`channels, this`interest
      ensures (Snapshot(), ok) == Register(old(Snapshot()), id, d)
    {
      var fd := live[id].fd;
      if fd !in channels {
        channels := channels[fd := id];
      }
      if fd in interest {
        channels := channels - {fd};
        return false;
      }
      interest := interest[fd := d];
      return true;
    }

    method RemoveChannel(fd: Fd)
      modifies this`channels, this`interest
      ensures Snapshot() == Deregister(old(Snapshot()), fd)
    {
      interest := interest - {fd};
      channels := channels - {fd};
    }

    /** `set_readable_callback` and `wait_readable`, or their writable counterparts. */
    method WaitFor(id: ChannelId, d: Direction, t: Token)
      requires id in live && live[id].fd !in interest
      modifies this`live, this`channels, this`interest
      ensures Snapshot() == Step(old(Snapshot()), Wait(id, d, t))
    {
      live := live[id := live[id].SetCallback(d, t)];
      var ok := RegisterChannel(id, d);
    }

    /** `wait_readable` or `wait_writable` alone: the callback is the one stored before. */
    method WaitAgainFor(id: ChannelId, d: Direction)
      requires id in live && live[id].fd !in interest
      modifies this`channels, this`interest
      ensures Snapshot() == Step(old(Snapshot()), WaitAgain(id, d))
    {
      var ok := RegisterChannel(id, d);
    }

    /** `channel::~channel`. */
    method DestroyChannel(id: ChannelId)
      requires id in live
      modifies this`live, this`channels, this`interest
      ensures Snapshot() == Step(old(Snapshot()), Destroy(id))
    {
      RemoveChannel(live[id].fd);
      live := live - {id};
    }

    /**
      Code of the client, in a callback or between polls: any number of channels opened, waited on
      and destroyed within the limits of `Enabled`. It extends the run recorded so far.
     */
    method ClientActs(ghost start: State, ghost before: seq<Event>) returns (ghost trace: seq<Event>)
      requires Inv(start) && IsRun(start, before) && Snapshot() == Exec(start, before)
      modifies this`live, this`channels, this`interest
      ensures IsRun(start, trace) && Snapshot() == Exec(start, trace)
      ensures before <= trace && Reported(trace) == Reported(before)
    {
      trace := before;
      var steps: nat :| true;
      while steps > 0
        invariant IsRun(start, trace) && Snapshot() == Exec(start, trace)
        invariant before <= trace && Reported(trace) == Reported(before)
        invariant events == old(events) && closeTriggered == old(closeTriggered) && fault == old(fault)
      {
        steps := steps - 1;
        var id: ChannelId, fd: Fd, d: Direction, t: Token := *, *, *, *;
        ghost var e: Event;
        if !Enabled(Snapshot(), Wait(id, d, t)) && !Enabled(Snapshot(), Destroy(id)) && !Enabled(Snapshot(), Open(id, fd)) {
          continue;
        }
        if Enabled(Snapshot(), Open(id, fd)) {
          e := Open(id, fd);
          live := live[id := Channel(fd, 0, 0)];
        } else if Enabled(Snapshot(), Wait(id, d, t)) {
          var again: bool := *;
          if again {
            e := WaitAgain(id, d);
            WaitAgainFor(id, d);
          } else {
            e := Wait(id, d, t);
            WaitFor(id, d, t);
          }
        } else {
          e := Destroy(id);
          DestroyChannel(id);
        }
        RunExtends(start, trace, e);
        ReportedExtends(trace, e);
        trace := trace + [e];
      }
    }

    /**
      `poll`: handles the batch that `epoll_wait` returned, which is empty when it was interrupted.
      It performs a run of the machine that starts with this batch, so every lookup succeeds. Of the
      batch it handles each event, once and in order, by the callback stored for it at that point, and
      it tells the loop to end exactly if the close event is among them.
     */
    method PollOnce(batch: seq<Ready>) returns (ghost trace: seq<Event>)
      requires Inv(Snapshot()) && Enabled(Snapshot(), Poll(batch))
      modifies this
      ensures trace != [] && trace[0] == Poll(batch)
      ensures IsRun(old(Snapshot()), trace) && Snapshot() == Exec(old(Snapshot()), trace)
      ensures Inv(Snapshot()) && events == []
      ensures Handles(old(Snapshot()), trace, batch)
      ensures closeTriggered <==> old(closeTriggered) || ReportsClose(batch)
    {
      ghost var start := Snapshot();
      trace := [];
      RunExtends(start, trace, Poll(batch));
      ReportedExtends(trace, Poll(batch));
      trace := trace + [Poll(batch)];
      events := batch;
      while events != []
        invariant IsRun(start, trace) && Snapshot() == Exec(start, trace) && Inv(Snapshot())
        invariant trace != [] && trace[0] == Poll(batch) && Reported(trace) == batch
        decreases |events|
      {
        var event := events[0];
        RunExtends(start, trace, Dispatch);
        ReportedExtends(trace, Dispatch);
        events := events[1..];
        if event.fd == CLOSE_FD {
          closeTriggered := true;
        } else {
          assert event.fd in channels.Keys;
          var channel := channels[event.fd];
          RemoveChannel(live[channel].fd);
        }
        trace := trace + [Dispatch];
        if event.fd != CLOSE_FD {
          trace := ClientActs(start, trace);
        }
        RunKeeps(start, trace);
      }
      ghost var reports := RunHandles(start, trace);
      assert reports == reports + events == start.batch + batch == batch;
    }
  }

  lemma {:induction false} RunExtends(s: State, es: seq<Event>, e: Event)
    requires IsRun(s, es)
    ensures Exec(s, es + [e]) == Step(Exec(s, es), e)
    ensures IsRun(s, es + [e]) <==> Enabled(Exec(s, es), e)
    decreases |es|
  {
    if es == [] {
      assert [e][1..] == [];
    } else {
      assert (es + [e])[1..] == es[1..] + [e];
      RunExtends(Step(s, es[0]), es[1..], e);
    }
  }

  lemma {:induction false} ReportedExtends(es: seq<Event>, e: Event)
    ensures Reported(es + [e]) == Reported(es) + if e.Poll? then e.events else []
    decreases |es|
  {
    if es == [] {
      assert [e][1..] == [] && es + [e] == [e];
    } else {
      assert (es + [e])[1..] == es[1..] + [e];
      ReportedExtends(es[1..], e);
      var first, last := if es[0].Poll? then es[0].events else [], if e.Poll? then e.events else [];
      assert first + (Reported(es[1..]) + last) == (first + Reported(es[1..])) + last;
    }
  }
}
