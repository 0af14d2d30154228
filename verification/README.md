# A verified model of ucxpp's coroutine protocols

ucxpp wraps the UCX communication library in C++20 coroutines. Between UCX's completion callbacks and
the coroutines that wait for them there is a concurrent protocol: eagerly started tasks that own their
frames, awaitables that issue a request and may suspend, callbacks that resume. On top of it, the
examples build an event loop, an address handshake over TCP, shared-counter benchmarks and a session
with remote atomic operations. This project models these protocols in Dafny and proves what they keep
over every run. UCX, epoll and the kernel are environments: whatever their contracts allow may happen.

| files | component |
|---|---|
| Coroutine, TaskMachine, TaskRuntime | coroutine bodies and their direct-style meaning; tasks, promises, awaitables and callbacks as functions on states; the same as an object updated in place |
| TaskInvariant, TaskSteps, TaskFinish, TaskBlocking, TaskTheorems, TaskLifetime, TaskObjects, TaskExamples | the invariant of the task machine, its preservation, when a destructor blocks, the theorems about runs, frames, handles and futures, and small programs that show what can become of a task nobody awaits |
| EventLoop, EventLoopRuntime, WorkerWakeup | the channel map against the epoll set, one-shot waits, and the drain-then-arm callback of a worker |
| SequentialTasks, SequentialOrder, Driver | programs that await each task as they start it, and the order of their operations; the event loop driving the task machine |
| Codec, Framing, Transmission | network byte order, the address frame, and the loops that send and receive it |
| Handshake, HandshakeTasks, HandshakeDriven | connector and acceptor over bounded buffers; the handshake coroutines on the task machine; the same driven by the event loop |
| HandshakeOrder, HandshakePair, HandshakePairTheorems | both handshake coroutines at once, each on its own task machine, over the bounded buffers between them |
| PerfTest, PerfMatching | one side of the benchmark, and both sides together |
| Atomics, AtomicsRuntime, Session, SessionTheorems, HelloWorld | the shared word as a value and updated in place, sessions of two programs, their general theorems, and the helloworld session |
| Endpoint | `close()`, the error callback and the destructor around one UCX handle |

Each imperative part of the source appears twice: as a function on states, about which the theorems
are proved, and as a class with the source's fields whose methods are proved to do what the functions
say (`TaskRuntime.Runtime`, `EventLoopRuntime.Loop`, `WorkerWakeup.Worker`, `Endpoint.Endpoint`, ...).

How to read the main results:

* A coroutine is the tree of what it may do (`Coroutine.Body`). `Eval` is its direct-style meaning: a
  child is evaluated where it is started and an operation where it is awaited. `Eval` has no value for
  a body that breaks the client discipline: a task is awaited at most once and not used after `detach`.
  The theorems about the task machine hold for every body with a value; no other assumption is made on
  programs. In particular a task object may be destroyed at any time: when that blocks the thread is a
  fact about the state, and is part of every theorem about runs. `Tidy` says of a body that it destroys
  no task object before the task was awaited, detached or moved from.
* The result of an operation is fixed by an oracle that knows the operation but not when it completes.
  Whether it completes at once or later, under which request id (ids are reused), and in which order
  callbacks fire is chosen freely at every step.
* "Stuck" and "quiescent" states have no enabled step. Where runs are shown to be bounded as well, every
  way of going on ends in such a state.

Where the code and its documentation differ, the model follows the code:

* include/ucxpp/endpoint.h:136-139 says that the destructor closes an endpoint that is not closed yet.
  After an error callback whose close was refused it does not (`Endpoint.DestructorAsksIff`,
  `Endpoint.RefusedCloseIsNotRepeated`).
* `~task` (include/ucxpp/task.h:86-88) makes an undetached, unfinished coroutine release itself and then
  waits for its future; on the single thread of a worker nothing can fulfil it. The machine reports this
  as the fault `BlockedForever`, which ends a run exactly if its last step destroys a task object that
  owns an unfinished coroutine (`TaskTheorems.AwaitTransparency`); the timing of an operation can decide
  it (`TaskExamples.CarelessBlocksByTiming`).
* Detaching a coroutine that has already finished frees nothing (include/ucxpp/task.h:102-106):
  `TaskLifetime.FramesDestroyedOnce` says exactly which frames this leaks, and
  `TaskExamples.LateDetachLeaks` shows one.
* The first wait of `register_loop` (examples/worker_epoll.cc:24) is not preceded by `arm`:
  `WorkerWakeup.FirstWaitMayMissEvents` shows that an event arriving then wakes nobody, and
  `WorkerWakeup.WaitIsSafeIff` and `WorkerWakeup.WaitEndsWellIff` say exactly when a wait is safe.
* With equal parameters on both ends, perftest's tag benchmark can be left with a side that waits for
  ever (`PerfMatching.HangsIff`): with several coroutines, each side may overshoot by a different
  amount. It takes operations that complete at once; else the phases match
  (`PerfMatching.PhasesMatch`).

## Model

| member | source | states |
|---|---|---|
| TaskTheorems.AwaitTransparency | include/ucxpp/task.h:26-93 | For every program with a direct-style outcome and every run: at most `Cost` steps, and the thread is blocked for ever exactly if the last step destroys a task object that owns an unfinished coroutine. Otherwise there is no fault, the root's promise never holds anything else, and a run that cannot go on has put exactly that outcome there |
| TaskTheorems.TidyNeverBlocks | include/ucxpp/task.h:84-93 | A program that destroys no task object before awaiting, detaching or moving it is never blocked, whatever the timing |
| TaskBlocking.StepBlocks | include/ucxpp/task.h:86-88 | Leaving a scope or destroying a local that owns an unfinished coroutine blocks: in the destructor of the first such object to be destroyed, after it has told its coroutine to release itself |
| TaskExamples.CarelessBlocksByTiming | include/ucxpp/task.h:84-93 | One program, and one run of it that is blocked and one that ends well: a task that is not awaited blocks its owner or not by whether its operation completes at once |
| TaskRuntime.Runtime.Drive | include/ucxpp/task.h:26-106 | The program loop over the in-place machine performs a run and always ends, whatever completes when: blocked exactly as `AwaitTransparency` says, never if the program is tidy, and otherwise with nothing running, no request in flight and the direct-style outcome in the root's promise |
| TaskTheorems.RequestBijection | include/ucxpp/awaitable.h:27-68 | In every reachable state, outstanding requests and coroutines suspended on UCX awaitables correspond one to one, and each awaitable's `h_` is its own coroutine |
| TaskTheorems.ResumedNeverInProgress | include/ucxpp/awaitable.h:239-273 | A coroutine resumed from an operation never sees `UCS_INPROGRESS`: `await_resume` throws the error of one that failed, and else yields the length and buffer, or the length and tag, that were reported |
| TaskTheorems.CancelNamesOwnRequest | include/ucxpp/awaitable.h:318-353 | Whenever `cancel()` on a tag receive has a request to cancel, it is in flight and that receive's own; the awaitable names none before and after |
| TaskTheorems.CallbackResumesWaiter | include/ucxpp/awaitable.h:307-346 | A callback resumes the coroutine that issued the request, frees the request, and changes no other frame |
| TaskTheorems.EachRequestCompletesOnce | include/ucxpp/awaitable.h:46-51 | Over every run, a request id is issued as often as it is completed and freed, plus once if it is in flight |
| TaskTheorems.StepAdvances | include/ucxpp/task.h:26-106 | Every step, callbacks that issue new operations included, keeps the invariant and makes the measure of the remaining evaluation smaller |
| TaskTheorems.IdleMeansDone | include/ucxpp/task.h:70-78 | With nothing running and nothing in flight, no coroutine is left waiting for another one |
| TaskLifetime.FramesDestroyedOnce | include/ucxpp/task.h:84-106 | In every run without a blocked destructor no frame is destroyed twice; at rest, every frame but the root's has been destroyed exactly once, awaited or not, unless it was detached after it finished, and then never |
| TaskLifetime.StepLeaks | include/ucxpp/task.h:102-106 | A frame becomes leaked by `detach` after it has finished and in no other way |
| TaskExamples.LateDetachLeaks | include/ucxpp/task.h:102-106 | A program and a run that ends at rest with a frame that nobody will ever destroy |
| TaskObjects.OneObjectPerTask | include/ucxpp/task.h:94-96 | In every reachable state no two task objects hold the handle of one coroutine: a move takes it along |
| TaskObjects.FutureReadOnce | include/ucxpp/task.h:77-77 | Over every run no future is read twice, and a promise is marked as read exactly if an await has read it |
| TaskFinish.DestroyLocalsFrees | include/ucxpp/task.h:84-93 | Leaving a scope whose task objects own no unfinished coroutine destroys exactly the frames they still own, each once, awaited or not |
| TaskFinish.FinishAdvances | include/ucxpp/task.h:29-47 | The final suspension transfers to the continuation or frees the detached frame, and keeps the invariant of every other frame |
| TaskSteps.MoveAdvances | include/ucxpp/task.h:94-96 | Moving a task object hands its frame on to exactly one new owner |
| TaskSteps.DetachAdvances | include/ucxpp/task.h:102-106 | Detaching gives the frame to its coroutine; the run stays correct |
| TaskSteps.AwaitSuspends | include/ucxpp/task.h:73-76 | Awaiting an unfinished task makes the awaiting coroutine its only continuation |
| TaskSteps.TakeAdvances | include/ucxpp/task.h:77-77 | Reading the future of a finished task yields the direct-style outcome, on the fast path and after a transfer |
| TaskSteps.ImmediateAdvances | include/ucxpp/awaitable.h:27-44 | An operation that completes or fails at once never suspends and yields what it delivers |
| TaskSteps.DeferredAdvances | include/ucxpp/awaitable.h:63-66 | A deferred operation suspends its coroutine under its own request and remembers it |
| TaskSteps.CallbackAdvances | include/ucxpp/awaitable.h:46-51 | A callback finds its coroutine alive and suspended, sets the status, frees the request and resumes it |
| TaskRuntime.Runtime.constructor | include/ucxpp/task.h:27-28 | The root coroutine starts eagerly |
| TaskRuntime.Runtime.ReachFinalSuspend | include/ucxpp/task.h:29-47 | In place: transfer to the continuation, or free a detached frame, or stop |
| TaskRuntime.Runtime.ResumeHandle | include/ucxpp/awaitable.h:50-50 | In place: `resume` of a suspended coroutine; anything else is a fault |
| TaskRuntime.Runtime.DestroyHandle | include/ucxpp/task.h:90-90 | In place: `destroy` of a live frame; anything else is a fault |
| TaskRuntime.Runtime.StoreOutcome | include/ucxpp/task.h:59-61 | In place: the promise takes one outcome |
| TaskRuntime.Runtime.DestructTask | include/ucxpp/task.h:84-93 | In place: the destructor's three cases |
| TaskRuntime.Runtime.ExitScope | include/ucxpp/task.h:84-93 | In place: a loop that destroys a coroutine's locals, the youngest first |
| TaskRuntime.Runtime.CallCoroutine | include/ucxpp/task.h:28-28 | In place: a new frame on top of its caller, owned by a new task object |
| TaskRuntime.Runtime.MoveConstruct | include/ucxpp/task.h:94-96 | In place: the new object takes the handle, the old one is null and detached |
| TaskRuntime.Runtime.CallDetach | include/ucxpp/task.h:102-106 | In place: the frame will release itself, the object will not |
| TaskRuntime.Runtime.EndLocal | include/ucxpp/task.h:84-93 | In place: a task object whose scope ends before its coroutine does |
| TaskRuntime.Runtime.ReadFuture | include/ucxpp/task.h:77-77 | In place: the future is read once, after the promise is set |
| TaskRuntime.Runtime.AwaitTaskObject | include/ucxpp/task.h:70-78 | In place: go on at once with a finished child, else become its continuation |
| TaskRuntime.Runtime.AwaitUcx | include/ucxpp/awaitable.h:27-68 | In place: `await_ready`, `check_request_ready` and `await_suspend` |
| TaskRuntime.Runtime.FinishAwait | include/ucxpp/awaitable.h:68-68 | In place: `await_resume` after the callback |
| TaskRuntime.Runtime.RunCoroutine | include/ucxpp/task.h:26-106 | In place: one step of the coroutine on top of the stack |
| TaskRuntime.Runtime.CompletionCallback | include/ucxpp/awaitable.h:239-246 | In place: fill the awaitable, free the request, resume |
| EventLoop.MapAgreesWithEpoll | examples/socket/event_loop.cc:115-156 | At every point of every run, inside callbacks too, the map's keys are the epoll set without the close event, and every event left in the batch finds its live channel, registered for what was reported |
| EventLoop.ReportsAreHandled | examples/socket/event_loop.cc:115-156 | Over every run, what `epoll_wait` has reported is what has been handled, each event once and in the order of the reports, by the callback stored for it at that point, and then what is left of the current batch; the loop has been told to end exactly if the close event has been handled |
| EventLoop.CallbacksStay | examples/socket/channel.cc:56-62 | What a channel calls for a direction is what was last given for that direction, whatever was given for the other one and however often it has been waited on since |
| EventLoop.RegisterAgreesIff | examples/socket/event_loop.cc:68-85 | Registering keeps map and epoll set in agreement exactly when the descriptor was not registered |
| EventLoop.DestroyedWithEventPendingIff | examples/socket/event_loop.cc:130-135 | Destroying a channel in the middle of a batch makes the next lookup fail exactly if the next event is that channel's |
| EventLoop.WaitsAreOneShot | examples/socket/channel.cc:38-62 | Over every run, a callback is called once per wait that is to call it, be it given with the wait or stored before, less the waits still pending or given up, although stored callbacks are never cleared |
| EventLoopRuntime.Loop.RegisterChannel | examples/socket/event_loop.cc:68-85 | In place: insert, add to epoll, and erase and throw if that fails |
| EventLoopRuntime.Loop.RemoveChannel | examples/socket/event_loop.cc:101-113 | In place: leaves epoll set and map without the descriptor |
| EventLoopRuntime.Loop.WaitFor | examples/socket/channel.cc:48-62 | In place: store the callback, then register |
| EventLoopRuntime.Loop.WaitAgainFor | examples/socket/channel.cc:48-54 | In place: register with the callback that is stored |
| EventLoopRuntime.Loop.DestroyChannel | examples/socket/channel.cc:66-70 | In place: deregister, then gone |
| EventLoopRuntime.Loop.ClientActs | examples/socket/channel.cc:48-80 | Whatever a callback does within the limits extends the run of the machine |
| EventLoopRuntime.Loop.PollOnce | examples/socket/event_loop.cc:115-156 | One `poll` over a batch with re-entrant callbacks performs a run of the machine that handles each event of the batch once and in order, by the callback stored for it at that point, keeps the agreement, and tells the loop to end exactly if the close event is in the batch |
| WorkerWakeup.NoLostWakeup | examples/worker_epoll.cc:12-23 | From the first callback on: a sleeping loop with a pending event has a signalled descriptor, every run is finite, the loop stops exactly when it finds that nobody else holds the worker, and unless it does, a run that cannot go on ends in a wait with every event handled, each once |
| WorkerWakeup.StopsIff | examples/worker_epoll.cc:17-22 | A loop that has not stopped stops in a run exactly if it finds, once drained and armed, that nobody else holds the worker |
| WorkerWakeup.FirstWaitMayMissEvents | examples/worker_epoll.cc:24-24 | Events that arrive during the first wait, which no `arm` precedes, never wake the loop |
| WorkerWakeup.WaitIsSafeIff | src/worker.cc:57-64 | Through all runs from a wait on, of any length and through later waits: the loop never sleeps over a pending event without a signalled descriptor, exactly if at the start a pending event has signalled it and an event to come will |
| WorkerWakeup.WaitEndsWellIff | examples/worker_epoll.cc:12-24 | Runs from a wait on are finite, and all that cannot go on and in which others always hold the worker end in a wait with every event handled, exactly if the first wait starts signalled, or armed with events to come, or with none pending and none to come |
| WorkerWakeup.Worker.ProgressOnce | src/worker.cc:51-51 | `progress` handles some pending events and says whether there were any |
| WorkerWakeup.Worker.ArmOnce | src/worker.cc:57-64 | `arm` is busy while there are events, else it arms |
| WorkerWakeup.Worker.EventsArrive | src/worker.cc:51-64 | Any number of events arrive between two calls; the first one signals an armed worker |
| WorkerWakeup.Worker.ReadableCallback | examples/worker_epoll.cc:12-23 | The nested drain loop performs a run of the machine that ends whatever arrives meanwhile, leaves the worker watched, and waits again exactly if others hold it |
| Codec.SerializeIsNetworkOrder | include/ucxpp/detail/serdes.h:24-29 | On a host of either byte order, the bytes are the base-256 digits, the most significant first (Appendix B of RFC 791) |
| Codec.CodecRoundTrip | include/ucxpp/detail/serdes.h:24-37 | `deserialize` inverts `serialize` for every value of every width, between hosts of any two byte orders |
| Codec.CodecRoundTripBack | include/ucxpp/detail/serdes.h:31-37 | `serialize` inverts `deserialize` for all bytes |
| Codec.Buffer.Serialize | include/ucxpp/detail/serdes.h:24-29 | Appends exactly the network-order bytes |
| Codec.Cursor.Deserialize | include/ucxpp/detail/serdes.h:31-37 | Advances by exactly the width and yields the value whose network-order bytes were there |
| Framing.FrameRoundTrip | examples/ep_transmission.cc:10-35 | A frame is read back exactly, whatever follows it, and what follows is left unread |
| Framing.TruncatedFrameFails | examples/ep_transmission.cc:16-18 | A stream that ends inside a frame is an error, never a partial address |
| Framing.ReceivedMeansFrame | examples/ep_transmission.cc:21-34 | An address is returned only for a stream that starts with its frame |
| Framing.FramesArePrefixFree | src/address.cc:35-41 | No frame is a proper prefix of another |
| Transmission.SerializeAddress | src/address.cc:35-41 | The buffer is the frame of the address |
| Transmission.Socket.Read | examples/socket/tcp_connection.cc:105-113 | A non-blocking `read` takes the next bytes of the stream, none only at its end |
| Transmission.Socket.Write | examples/socket/tcp_connection.cc:105-113 | A non-blocking `write` appends what it reports and blocks only when the buffer is full |
| Transmission.RwAwaitable.DoIo | examples/socket/tcp_connection.cc:105-113 | One call moves exactly the bytes it reports, and nothing if it fails or would block |
| Transmission.RwAwaitable.Ready | examples/socket/tcp_connection.cc:115-126 | The first try, at any moment of the peer's activity |
| Transmission.RwAwaitable.Retry | examples/socket/tcp_connection.cc:128-145 | The try after the wake-up never finds the socket unready |
| Transmission.RwAwaitable.Await | examples/socket/tcp_connection.cc:115-145 | Through try, suspension and retry, an await moves exactly the bytes it reports; it throws only if the socket failed |
| Transmission.SendAddress | examples/ep_transmission.cc:38-50 | Every byte of the frame goes out once and in order; if the socket fails, a proper prefix has gone out |
| Transmission.Fill | examples/ep_transmission.cc:26-33 | A receive loop fills its buffer with the next bytes, however they are cut into reads, and stops early only at the end or on failure |
| Transmission.FromTcpConnection | examples/ep_transmission.cc:7-36 | The result is that of parsing all the peer sends, independent of the cuts, and nothing past the frame is read |
| Handshake.HandshakeCompletes | examples/connector.cc:15-21 | Any addresses, any positive buffers, any cuts and timing: no await throws, runs are bounded, and a run that cannot go on has left each side with exactly the other's address and nothing unread |
| Handshake.DeadlockIff | examples/acceptor.cc:15-21 | For all orders of the two sides: the handshake can deadlock exactly if both receive first, or both send first and neither frame fits its buffer |
| Handshake.StepKeeps | examples/ep_transmission.cc:7-50 | What has been read and what is buffered are always the first bytes of the peer's frame, and no party meets a closed connection |
| Handshake.NeedsRestOfFrame | examples/ep_transmission.cc:12-33 | The receive loops never ask for a byte past the peer's frame |
| HandshakeTasks.HandshakeTaskParses | examples/ep_transmission.cc:7-50 | `accept` and `connect` on the task machine end with what the peer's bytes mean, or with the first error of an operation, for every way the kernel cuts the streams or fails and every mix of immediate and suspended I/O; no destructor blocks |
| HandshakeTasks.HandshakeTaskEndsWithPeerAddress | examples/acceptor.cc:15-21 | When the peer's stream starts with its frame they end with the peer's address or the error of an operation, and with the address if none fails |
| HandshakeTasks.HandshakeTaskThrowsOnTruncation | examples/ep_transmission.cc:16-18 | They throw when the peer closes inside its frame, whatever the timing and the errors |
| HandshakeTasks.HandshakeEvaluates | examples/ep_transmission.cc:7-50 | The loops as coroutine bodies, which know nothing of the stream, evaluate to the parse of all the peer sends, or to the first error |
| HandshakeTasks.HandshakeIsSequential | examples/acceptor.cc:15-21 | Both coroutines await each child as they start it |
| Driver.DrivenProgramEnds | examples/socket/tcp_connection.cc:128-145 | The event loop drives a program: an operation that would block registers its channel, an event resumes its coroutine. Polls apart, a driven run takes at most `Cost` steps; the loop never faults and its map agrees with the epoll set; the task machine faults exactly as it does alone; and when nothing runs and no channel waits, the root's promise holds the direct-style outcome |
| Driver.ReportsAreDispatched | examples/socket/event_loop.cc:115-156 | A driven run handles what the kernel reports, each event once and in order; only what is left of the current batch is not handled yet |
| Driver.WaitsMatchCoroutines | examples/socket/tcp_connection.cc:128-137 | In every reachable joint state, registered channels and suspended coroutines correspond one to one, with the right direction and callback |
| Driver.EventResumesWaiter | examples/socket/channel.cc:38-46 | Handling an event resumes exactly the coroutine that waits on its channel, with its operation's result |
| Driver.NeverRegistersTwice | examples/socket/event_loop.cc:77-84 | A program that awaits each task as it starts it never waits on a channel that is being waited on, so registering never throws |
| Driver.DrivenKeeps | examples/socket/event_loop.cc:115-156 | A joint run is a run of the task machine and a run of the event loop, and keeps requests and waits in correspondence |
| SequentialTasks.StepKeepsChain | include/ucxpp/task.h:70-78 | In a program that awaits each task as it starts it, all unfinished coroutines but the youngest are blocked, at every step |
| SequentialTasks.IssuesAlone | include/ucxpp/task.h:70-78 | Such a program issues an operation only when no other one is in flight |
| SequentialTasks.SequentialRuns | include/ucxpp/task.h:70-93 | In every run of such a program nothing goes wrong: no destructor blocks |
| SequentialOrder.OperationsInOrder | include/ucxpp/task.h:26-82 | Whatever completes when, such a program performs its operations in direct-style order: those completed are the first of them, the one in flight is the next, and a run that cannot go on has completed all |
| HandshakeDriven.DrivenHandshakeParses | examples/ep_transmission.cc:7-50 | The handshake coroutines on the task machine, driven by the event loop over one channel: no registration fails, nothing faults, and they end with what the peer's bytes mean or with the first error of an operation |
| HandshakeDriven.DrivenHandshakeEndsWithPeerAddress | examples/connector.cc:15-21 | When the peer's stream starts with its frame they end with exactly its address, or with the error of an operation |
| HandshakeDriven.WaitsTheRightWay | examples/socket/tcp_connection.cc:128-137 | In every state of the driven handshake a coroutine that waits in a `recv` has the connection registered for reading, one that waits in a `send` for writing, whatever waits is one of these, and nothing else is registered but the close event |
| HandshakePairTheorems.PairCompletes | examples/connector.cc:15-21 | Both coroutines, each on its own task machine, over the bounded buffers between them: for any addresses, positive buffers, cuts, timing and mix of immediate and suspended I/O, neither machine faults, sessions are bounded by the lengths of the frames, no promise ever holds anything but the other side's address, and a session that cannot go on has put it into both and left nothing unread |
| HandshakePairTheorems.SomeForesee | examples/socket/tcp_connection.cc:105-145 | Every session of the two, in which results depend on what the peer has done, has been foreseen by two oracles within the kernel's contract: no read meets the end of the stream and no write a closed peer |
| HandshakePair.TurnKeeps | examples/ep_transmission.cc:7-50 | A step of one side keeps both streams and both sides, and completes only the read or write that direct-style evaluation comes to next |
| HandshakePairTheorems.RunningMoves | examples/socket/tcp_connection.cc:115-137 | A running coroutine always has a step: its operation completes if the socket is ready and suspends it if not |
| HandshakeOrder.WholeHandshake | examples/ep_transmission.cc:7-50 | The operations of a handshake that does not fail are those of one frame read and one frame written, in the order of its side |
| PerfTest.OvershootIsBounded | examples/perftest.cc:103-183 | Every schedule that finishes a phase ends with a counter from the target N to N - 1 + c times the largest step: N + c - 1 for tag messages, T - 1 + c m bytes for streams |
| PerfTest.OvershootIsReached | examples/perftest.cc:159-199 | No smaller bound holds, for either phase: some schedule ends it exactly at the ceiling |
| PerfTest.BothPhases | examples/perftest.cc:190-213 | A side that is through has performed the operations of both phases, each within its bounds |
| PerfTest.Benchmark.constructor | examples/perftest.cc:130-133 | A side starts with all its coroutines to be started and a counter of zero |
| PerfTest.Benchmark.LoopCondition | examples/perftest.cc:109-109 | In place: a coroutine reads the shared counter and goes on or finishes |
| PerfTest.Benchmark.StartOne | examples/perftest.cc:131-133 | In place: one coroutine starts, as the machine says, and keeps the counter's invariant |
| PerfTest.Benchmark.CompleteOne | examples/perftest.cc:169-170 | In place: one completion, as the machine says, raises the counter, never past the ceiling |
| PerfTest.Benchmark.RunPhase | examples/perftest.cc:192-199 | A phase performs a run that ends under any schedule, within the bounds |
| PerfTest.Benchmark.RunBoth | examples/perftest.cc:190-213 | Warm-up, reset and measured phase perform a run through both phases: when the counter is reset the warm-up has finished within its bounds, the second phase counts within its own, and the operations of both have been performed |
| PerfMatching.PhasesMatch | examples/perftest.cc:123-222 | With equal parameters and one coroutine on each side, or operations that never complete at once: for all counts and timings, sessions are finite, the first messages, as many as the warm-up's ceiling, are those of the client's warm-up and those the server's warm-up receives, and a session that cannot go on is over on both sides with exactly the ceilings of both phases sent and received |
| PerfMatching.HangsIff | examples/perftest.cc:123-222 | Some session leaves a side waiting for ever exactly if there are several coroutines, anything to send, and sends complete at once, or receives do while sends wait for them |
| SessionTheorems.NeverStuck | examples/helloworld.cc:40-198 | Two programs that are the sides of one orderly protocol are always both through or able to go on, even if no send completes before its message is received, and every run is bounded |
| SessionTheorems.ActionsAreSerial | examples/helloworld.cc:73-193 | The two are never both about to touch the word, and whoever is finds it as the earlier actions of the protocol, in its order, have made it |
| SessionTheorems.OutcomeIsSerial | examples/helloworld.cc:73-193 | A completed run has performed all actions in the order of the protocol |
| SessionTheorems.MessagesArrive | examples/helloworld.cc:19-38 | Each party has received the first of the messages that the protocol sends it, whole and in order, and once it is through, all of them |
| SessionTheorems.StepKeeps | examples/helloworld.cc:19-38 | Channels hold what was sent and not received, nothing is received before it is sent, and a partial read loses nothing |
| SessionTheorems.StepPays | examples/helloworld.cc:31-35 | Every move makes the remaining effort smaller |
| HelloWorld.ProgramsAreSides | examples/helloworld.cc:40-198 | The client's and the server's programs, written as the source has them, are the two sides of one protocol |
| HelloWorld.WholeIsOrderly | examples/helloworld.cc:73-193 | In that protocol the bells hand the word over between any two actions of different parties |
| HelloWorld.SessionCompletes | examples/helloworld.cc:40-198 | Every reachable state of the session is final or has an enabled step, and every run is bounded |
| HelloWorld.KeyIsExact | examples/helloworld.cc:19-38 | However the key is cut into reads, the client holds exactly the word's address in network order and the server's key when it starts on the word |
| HelloWorld.EverythingArrives | examples/helloworld.cc:40-198 | At any point each party holds the first of what it is to receive: the greetings, the addresses and key lengths in network order, the keys, and the bells; once it is through, all of it |
| HelloWorld.ServerSeesLastOperation | examples/helloworld.cc:171-193 | Whenever the server is about to print the word, the client is not about to operate on it, and the word is exactly what the client's last operation made of it |
| HelloWorld.SessionOutcome | examples/helloworld.cc:73-119 | For every 64-bit word and addend: the compare-and-swap succeeds, each reply is the previous word, the printed values are the words after each operation, and the final word is 0 |
| HelloWorld.StreamEnd.ReceiveMr | examples/helloworld.cc:19-38 | `receive_mr` reads exactly what `send_mr` sent, whatever the pieces, and leaves later bytes unread |
| HelloWorld.StreamEnd.ReceiveKey | examples/helloworld.cc:29-35 | The loop reads exactly the announced number of bytes |
| HelloWorld.StreamEnd.ReceiveInteger | examples/helloworld.cc:23-28 | A header read whole and converted is the integer that was sent |
| Atomics.MaskedOut | examples/helloworld.cc:100-117 | AND, OR and XOR with one mask leave zero of any word |
| AtomicsRuntime.Word.WorkOnWord | examples/helloworld.cc:73-119 | In place: for every word and addend, the server's set, the client's six operations and the server's six prints leave the word 0, and exactly these replies and prints |
| Endpoint.CloseDiscipline | src/endpoint.cc:20-98 | Over all interleavings: UCX is never asked to close a null or already closed handle exactly if every `close()` began before any error callback and before any accepted close; then at most one close is accepted, and a destroyed endpoint asked once per `close()` and once more exactly if none was accepted |
| Endpoint.PointersTellHistory | src/endpoint.cc:20-98 | Over every run, in time or not: `close_request_` is set exactly if some close was taken to be completed later, and the handle is null exactly if a `close()` has succeeded or the error callback has disposed of it |
| Endpoint.HandleTellsHistory | src/endpoint.cc:20-98 | In every run whose closes begin in time, the handle is open at UCX exactly if no close was accepted, and closed exactly if one is complete |
| Endpoint.DestructorAsksIff | src/endpoint.cc:91-98 | The destructor asks exactly if no close was accepted and no error was reported |
| Endpoint.RefusedCloseIsNotRepeated | src/endpoint.cc:20-39 | A run in which UCX refuses the close that the error callback asks for: the endpoint is destroyed with its handle open and one close attempted |
| Endpoint.CloseAfterErrorClosesTwice | src/endpoint.cc:79-83 | A `close()` begun after the error callback can leave UCX with two closes of one handle |
| Endpoint.StepMisuses | src/endpoint.cc:20-98 | A single step misuses the handle exactly if it is a `close()` that comes too late |
| Endpoint.Endpoint.constructor | src/endpoint.cc:41-51 | A new endpoint has a handle and no close request |
| Endpoint.Endpoint.Live | src/endpoint.cc:20-98 | In place: a life of any calls, errors, answers and completions, to its destruction, is a run, misuses the handle exactly if a `close()` came too late, and else asked once per `close()` and once more exactly if none was accepted; at its end its two pointers tell what happened |

## Left out

- UCX's transports, RMA transfers and remote visibility of `put`: the put at examples/helloworld.cc:68 has no flush, so nothing is claimed about the buffer the server prints at line 163; get and put are no steps of the session.
- What a thread does after `~task` has blocked it: include/ucxpp/task.h:86-88 waits for a future on the only thread, so a run ends with the fault.
- Task objects handed from one coroutine to another: each task is awaited, moved, detached or destroyed by the coroutine that started it; the root's task object stays with code outside the machine.
- Operations whose result depends on when they complete: the oracle fixes each operation's result, except in HandshakePair.
- Multi-threaded use of a worker and the mutex of the event loop: workers are created in single-thread mode (src/worker.cc:25).
- EPOLLERR, EPOLLHUP and EPOLLPRI in `poll`: the error path at examples/socket/event_loop.cc:137-150 calls both callbacks and erases entries made by them.
- Registering a descriptor twice, and callbacks that destroy another channel of the batch: excluded from runs; EventLoop.RegisterAgreesIff and EventLoop.DestroyedWithEventPendingIff say what goes wrong.
- `set_event_loop(nullptr)` and the release of the last worker reference (examples/worker_epoll.cc:19-22): modelled only as the loop having stopped.
- What `cancel()` makes UCX do, and cancelling a stream receive, whose `request_` is not initialized (include/ucxpp/awaitable.h:229-237) nor cleared: TaskTheorems.CancelNamesOwnRequest says which request a tag receive names.
- `close_request_` is taken as null at first: the constructor at src/endpoint.cc:41-51 does not set it, but src/endpoint.cc:24 and src/endpoint.cc:92 rely on it. An error reported after the endpoint is destroyed is not part of this model.
- Truncation of `ssize_t` to `int` in examples/socket/tcp_connection.cc:105-113, and overflow of the benchmark's `size_t` counter.
- Allocation: a reader can allocate up to a `limit`, which stands for the `bad_alloc` of a vector that is too large; other allocations succeed.
- HandshakePairTheorems.PairCompletes: the network itself does not fail, and a side whose I/O would block is woken by the readiness of its socket rather than through an event loop of its own; HandshakeDriven puts the loop and failing operations around one side.
- Driver.DrivenProgramEnds: coroutines do not wait on a channel on which another one is waiting, the scope in which map and epoll set agree; Driver.NeverRegistersTwice shows that sequential programs stay within it.
- The benchmarks and the helloworld session as coroutine bodies: a body has no state shared with others, such as a counter passed by reference, so these are machines of their own.
- PerfTest.OvershootIsBounded: coroutines may start in any order relative to completions, which allows more schedules than the vector loop at examples/perftest.cc:131-133 does; PerfMatching tells apart what may complete before that loop is over.
- Stream mode of the two-sided benchmark: a side's byte counts are bounded, but both sides together are modelled for tag messages only.
- HelloWorld.SessionCompletes: each header `stream_recv` returns its full length, as the source assumes without asking UCX to wait for all of it; the final flush and close are left to Endpoint.
- Several helloworld clients on one server worker: their bells share one tag, so the session results hold for one client.
- `ucxpp::context`, `config`, memory handles, address resolution, socket creation, logging, reports, CPU binding and argument parsing: thin wrappers.
