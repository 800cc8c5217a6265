# Socket manager: a verified model

The socket manager moves bytes between a C++ caller and TCP sockets. A `MsgSender` fills a chain of ring
buffers that a writer task drains to the socket; a reader task fills a buffer from the socket and hands it
to the `on_msg` callback; a handler task per connection joins the two and reports events. This project
models that core in Dafny and proves what it keeps under every interleaving.

Concurrency is modelled by step systems. A state is a value, a step is one atomic action of one party, and
a run is a sequence of steps (`Exec`). A theorem about runs therefore covers every schedule, every short
write, every tick, every `Pending`, every error and every abort. The code that updates things in place is
modelled a second time as it is written, by classes with loops whose every atomic action is a step of the
step system, with the other party free to run in between; the log that these classes keep is a run.

| file | contents |
|---|---|
| `Base.dfy` | bytes, size constants |
| `SendPath.dfy` | sender and writer as a step system over a heap of rings |
| `SendInvariant.dfy`, `SendTheorems.dfy` | its invariant; conservation, chain shape, clean shutdown, wakeups |
| `SendProgress.dfy` | a measure that bounds the writer's work, the two-select bound, when the writer is blocked, when a parked sender is woken |
| `MsgSender.dfy`, `WriterTask.dfy` | the sender's calls and the writer's loops as classes |
| `Receive.dfy`, `ReaderTask.dfy` | the receive path as a step system and as a class over an array |
| `EndToEnd.dfy`, `EndToEndProgress.dfy` | sender, writer and the peer's reader joined by a byte pipe; everything arrives |
| `ConnFence.dfy`, `ConnCalls.dfy` | racing `start_connection` and `close` calls |
| `ManagerJoin.dfy` | racing `join`, `abort` and `drop` calls on the socket manager |
| `JoinTasks.dfy` | the select loop of `join_reader_writer` |
| `Lifecycle.dfy`, `LifecycleInvariant.dfy`, `LifecycleTheorems.dfy` | any number of connections, callers and tasks, and the stopper registry |
| `LifecycleProgress.dfy` | a connection attempt comes to its documented end |
| `WakerRefs.dfy` | waker references held by C++ objects |

## Assumptions about the environment

- A ring is a bounded FIFO. `push_slice` takes min(free, offered) bytes. A non-empty ring has a non-empty
  left slice. A dropped end stays dropped. `wait_occupied(n)` resolves when n bytes are there or the
  producer is gone. Moving the read index and dropping the consumer each wake the registered waker, as a
  separate action afterwards.
- Atomic actions are sequentially consistent.
- A successful socket write of a non-empty slice takes at least one byte.
- Handlers that are alive at the same time have different address pairs.
- `Ok` from a send means that the bytes are in the accepted stream. `burst_write` does not test for
  closure, so after a failure of the writer they may never reach the wire.
- What `poll_write` reports on a closed ring is left open: a poll in `SendBlock` may fail at any time.
- `abort()` is a request. A task that was asked to abort may still take steps.
- Dropping the write half of a socket ends the stream for the peer like a shutdown does. So a peer's reader
  can end cleanly after a writer that failed, having received only what was on the wire.

## Where documentation and code differ

- The diagram at `src/lib.rs:268-274` has no `OnRemoteClose`. The code may emit it once between `OnConnect`
  and `OnConnectionClose`, and the model follows the code.
- `close` is documented to work again after the `on_connect` callback. In the code it works again once the
  handler has registered its stopper, which is later. `CloseInWindowIsLost` is a run in which a close is
  begun after the callback has returned, completes, and the connection goes on; `CloseTakesEffect` gives the
  exact condition, for every run.
- `close` removes the registry entry under the caller's address pair, whoever owns it. A `Conn` that has
  outlived its handler can therefore stop a newer connection with the same pair:
  `StaleCloseStopsNewcomer` is such a run and `CloseStopsAnother` gives the exact condition.
- `stop_all` is said to stop all connections. It changes exactly the registered ones and readies the stop
  branch of exactly those in their join (`StopAllReach`); `StopAllMissesSpawned` is a run in which a handler
  registers after it and is not stopped.
- `abort` with `wait` set is said to wait for the background threads to finish. It does so in every run if
  and only if its compare-exchange finds that nobody has joined before or that the thread has ended
  (`WaitsIffFirst`); `AbortReturnsEarly` is a run in which it returns while the thread is running.
- Without automatic flushing small messages stay behind, as documented; `ShortMessageStays` and
  `NoStuckBytes` say exactly which.

## Model

| member | source | states |
|---|---|---|
| SendTheorems.SendConservation | src/msg_sender.rs:72-168 | after every step of any interleaving, the accepted stream is the wire, then the unread bytes of the writer's ring, then the queued rings in channel order; after a failure the wire still is a prefix of it |
| SendTheorems.ChainShape | src/msg_sender.rs:109-121 | outside the swap exactly the last ring of the chain is open and it is the one pushed to; inside the swap its successor is already queued; rings out of the chain are closed and empty |
| SendTheorems.ClosedRingIsFinal | src/write.rs:42-58 | a ring once closed stays closed and only loses bytes from its front, so draining after seeing it closed loses nothing |
| SendTheorems.CleanShutdown | src/write.rs:59-62 | shutdown is reached only with the sender gone and every accepted byte on the wire, in both writer modes |
| SendTheorems.NoLostWakeup | src/msg_sender.rs:127-155 | after `Pending` the ring is full and open with the waker registered, or the wake is in flight, or it has happened; once the writer is gone it has happened |
| SendInvariant.StepKeepsInv | src/write.rs:34-59 | every step of either side keeps the chain, which ends of which ring are held, conservation and the wakeup condition |
| SendInvariant.InitInv | src/msg_sender.rs:18-30 | what make_sender leaves behind satisfies the invariant |
| SendInvariant.RunKeepsInv | src/msg_sender.rs:48-168 | so does every state that any run of sender and writer steps leads to from one that does |
| SendProgress.TwoSelects | src/write.rs:35-58 | whatever the sender does meanwhile, the bytes in the held ring at a select are on the wire before the select resolves a third time, and before it resolves a second time if tick_flush was set; until then the writer stays with that ring and every resolution uses up one that its phase allows |
| SendProgress.BoundedProgress | src/write.rs:35-58 | whatever the sender does meanwhile, after Debt(s, n) writer steps the wire starts with the first n accepted bytes, across all queued rings and in both modes |
| SendProgress.DebtBound | src/write.rs:87-101 | that debt is at most four steps a byte plus sixteen a ring plus twelve; for bytes of the held ring four a byte plus ten |
| SendProgress.WriterLowersDebt | src/write.rs:36-58 | every writer step before the target is reached lowers the debt |
| SendProgress.SenderKeepsDebt | src/msg_sender.rs:72-168 | no sender step changes the debt |
| SendProgress.NoStuckBytes | src/write.rs:37-54 | outside the swap of rings, a blocked auto-flush writer has written everything, and without auto flush it may leave fewer than MIN_MSG_BUFFER_SIZE bytes, all in the ring the sender is filling; inside the swap the sender's next step unblocks it |
| SendProgress.DropFinishes | src/write.rs:34-62 | once the sender is dropped, at most Todo(s) steps remain in any run, the writer is blocked only at its end, and it ends cleanly with every accepted byte on the wire |
| SendProgress.BlockedShape | src/write.rs:34-54 | a running writer is blocked if and only if it waits for a ring with the sender alive, or at a select for more bytes of an open ring with no tick to come, or has ended |
| SendProgress.ShortRingWaits | src/write.rs:37-54 | as long as no tick fires and the sender adds nothing, an open ring below the threshold is not written and the writer stays at its select, in both modes |
| SendProgress.ShortMessageStays | src/write.rs:71-75 | every message shorter than the threshold is left behind by a writer without auto flush |
| SendProgress.ParkedIsWoken | src/msg_sender.rs:127-155 | after `Pending` the writer is never blocked before it has woken the sender, and has woken it after Debt(s, everything accepted) + 2 of its own steps |
| Sender.OverflowRingHoldsAll | src/msg_sender.rs:109-112 | the ring made on overflow takes all that is left of the message, so the ignored count is the whole remainder; it is larger than the standard size only as far as needed |
| Sender.MsgSender.BurstWrite | src/msg_sender.rs:49-66 | appends exactly bytes[start..offset], at least what there was room for, and stops before the end only at a full ring; terminates, with the writer running in between |
| Sender.MsgSender.SendNonblock | src/msg_sender.rs:100-122 | Ok: the whole message appended once and in order; Err: a strict prefix, and the receiver is gone; a message that fits goes into the current ring and succeeds, and at most one new ring is made |
| Sender.MsgSender.SendAsync | src/msg_sender.rs:127-155 | empty message gives 0; a ring whose consumer is gone at the call gives Err, and Err only if it is gone; Ok(n) has n of at least 1, took what there was room for, and less than the message only up to a full ring; Pending and Err appended nothing; Pending only if there was no room, with the waker registered or woken already |
| Sender.MsgSender.SendBlock | src/msg_sender.rs:72-93 | Sent: the whole message appended; otherwise a strict prefix; a message that fits is sent |
| Sender.MsgSender.PollWrite | src/msg_sender.rs:84-88 | a poll without an error takes what there is room for; one that takes nothing leaves the waker registered |
| Sender.MsgSender.ReplaceRing | src/msg_sender.rs:113-121 | the new ring, holding the rest, is sent before the old producer is dropped; if the send fails nothing is accepted and the receiver is gone |
| Sender.MsgSender.Flush | src/msg_sender.rs:157-168 | accepts nothing and moves the sender to a fresh ring, or fails with the receiver gone |
| Sender.MsgSender.Drop | src/msg_sender.rs:36-41 | the producer is dropped before the channel, and then the sender is gone |
| WriterTask.Writer.Drain | src/write.rs:57-58 | the flush of a closed ring terminates and writes exactly the bytes left in it, or fails |
| WriterTask.Writer.Flush | src/write.rs:87-101 | when it ends, or has made as many turns as there were bytes in the ring at its start, all of those bytes are on the wire, in order |
| WriterTask.Writer.OnOccupied | src/write.rs:41-48 | a closed ring leads to the drain; an open one is flushed at once if it has reached the threshold at the comparison, and otherwise left to the tick |
| WriterTask.Writer.WriteLeft | src/write.rs:92-96 | a write that takes bytes moves the read index by as many and goes on, one that fails ends the flush; no byte is lost or repeated |
| WriterTask.Writer.SelectOnce | src/write.rs:36-54 | one turn of the select writes nothing; an abort ends it; a ring closed at its start leads to the drain; with tick_flush set a tick or the threshold leads to a flush, and without a tick only the threshold does; tick_flush is set afterwards exactly if it was or the ring has bytes |
| WriterTask.Writer.SelectLoop | src/write.rs:35-56 | the loop ends only with the ring seen closed or with an error, and does end if the ring is closed at its start |
| WriterTask.Writer.WaitOnce | src/write.rs:71-75 | one turn without ticks: an open ring is flushed exactly from the threshold on |
| WriterTask.Writer.WaitLoop | src/write.rs:70-76 | ends as SelectLoop does |
| WriterTask.Writer.HandleWriter | src/write.rs:12-83 | a clean end means the sender is gone and the wire equals the accepted stream; an error unwinds ring, receiver and queue; with the sender gone and no ring left it ends |
| Receive.ClampBufferSize | src/read.rs:23-26 | a size below the lower limit becomes that limit, one above the upper limit becomes that one, any other stays |
| Receive.StepKeepsInv | src/buf_read_write.rs:32-120 | every poll, read, tick, dropped future and error keeps the offsets in range and each byte accounted for |
| Receive.CancellationSafe | src/buf_read_write.rs:27-53 | delivered bytes followed by buf[r_offset..w_offset] equal all bytes read, for every sequence of polls and cancellations |
| Receive.NoStrandedBytes | src/read.rs:48-65 | with has_data false every select starts with an empty buffer, even after a cancelled inner flush |
| Receive.CalledForABatch | src/read.rs:48-86 | the callback is called only for a full buffer, after the end of the stream or on a tick, and without an interval there are no ticks |
| Receive.ZeroMeansEnd | src/buf_read_write.rs:34-40 | read is never given an empty slice, so 0 bytes always is the end of the stream |
| Receive.CleanEnd | src/read.rs:54-69 | a reader that returns Ok has seen the end, has delivered everything and takes no further step |
| Receive.TicksOnlyChunk | src/read.rs:36-86 | with and without ticks, a clean end on the same input delivers the same stream |
| ReaderTask.Reader.constructor | src/buf_read_write.rs:16-25 | an empty buffer of the clamped size |
| ReaderTask.Reader.CallbackPoll | src/c_api/on_msg.rs:66-77 | the poll result says what the callback said: an error exactly if it set one, the count it returned, a panic exactly for an over-report; through the C API Pending exactly for a number up to 0 |
| ReaderTask.Reader.Deliver | src/buf_read_write.rs:90-114 | the callback has been given exactly buf[r_offset..pos], where pos advances by what the calls say they took; through the C API the loop stops short only with Pending, an error or an over-report |
| ReaderTask.Reader.Poll | src/buf_read_write.rs:87-120 | one poll is exactly one step: offsets advanced by what was delivered, or both reset when all was; it is pending exactly when the callback is; an error of the callback fails the flush and ends the reader; through the C API WriteZero is never returned |
| ReaderTask.Reader.FillFlush | src/buf_read_write.rs:32-41 | a full buffer is delivered first and reading starts at 0, otherwise at w_offset; what the socket has is read as far as there is room, extends what was received and lies in front of the new w_offset; dropped at any await it leaves a valid run that has received nothing |
| ReaderTask.Reader.Store | src/buf_read_write.rs:38-39 | the bytes land behind w_offset and nothing else changes |
| ReaderTask.Reader.OnTick | src/read.rs:60-64 | a completed tick flush has delivered everything received, leaves the buffer empty and the tick disarmed |
| ReaderTask.Reader.Round | src/read.rs:48-66 | one turn of the select: bytes set has_data; a pending read with has_data set is dropped for a flush; 0 bytes lead to the last flush; the reader waits only for the callback or, with no tick to come, for the socket |
| ReaderTask.Reader.HandleReader | src/read.rs:36-86 | Finished if and only if the stream has ended and everything was delivered, Error if and only if something failed; at every return what was delivered is a prefix of what was received |
| EndToEnd.EndToEndDelivery | src/read.rs:36-86 | delivered is a prefix of received, that of the wire, that of the accepted stream; once both tasks return Ok delivered equals accepted |
| EndToEnd.StepKeepsInv | src/write.rs:87-101 | every step of sender, writer and peer keeps the pipe FIFO and its end behind the last byte |
| EndToEndProgress.EverythingArrives | src/read.rs:36-86 | from the drop of the sender on, in any schedule without a failure, writer and reader make at most Left(s) useful steps, one is possible until the reader has returned, and then delivered equals accepted |
| EndToEndProgress.StepLowersLeft | src/buf_read_write.rs:32-120 | every writer step and every reader step but a poll that takes nothing lowers that bound |
| EndToEndProgress.ReaderCanGoOn | src/read.rs:48-69 | once the peer has shut down, a reader that has not returned or failed always has a useful step |
| ConnFence.StepKeepsInv | src/conn.rs:51-90 | every atomic action of any number of calls keeps a single owner of the configuration sender |
| ConnFence.StartCloseRace | src/conn.rs:51-90 | no unwrap fails, at most one start succeeds, exactly when the configuration was delivered, and never after a close that won |
| ConnFence.SetterIsFinal | src/conn.rs:60-82 | a delivered or dropped configuration sender stays so |
| ConnFence.NoStartAfterDrop | src/conn.rs:61-68 | once the handler no longer waits for the configuration, no start succeeds in any run |
| ConnFence.Consumer | src/conn.rs:51-82 | a consumed connection was consumed by the compare-exchange of some call |
| ConnCalls.Conn.StartConnection | src/conn.rs:51-71 | Ok only for the call that found the connection unconsumed, with the handler waiting, and then the configuration is delivered; an error only if another call came first or the handler no longer waits |
| ConnCalls.Conn.Close | src/conn.rs:76-90 | a close that won leaves a connection that has not started |
| ManagerJoin.StepKeepsInv | src/lib.rs:192-227 | every atomic action of any number of join, abort and drop calls keeps a single owner of the join handle |
| ManagerJoin.JoinRace | src/lib.rs:206-220 | join_handle.take().unwrap() never fails, at most one call joins the thread and it returns the thread's own result, a clean one only after an abort |
| ManagerJoin.DropOutlivesThread | src/lib.rs:223-227 | when a drop has returned, the thread has ended and some call has joined it |
| ManagerJoin.WaitsIffFirst | src/lib.rs:192-220 | a join or a waiting abort returns only after the thread's end in every continuation of the run, if and only if its compare-exchange finds has_joined false or the thread ended |
| ManagerJoin.AbortReturnsEarly | src/lib.rs:192-198 | a run in which abort(true) returns while the thread is running |
| ManagerJoin.SocketManager.Join | src/lib.rs:206-220 | a call after the first one returns Ok; an error means that the thread panicked |
| ManagerJoin.SocketManager.Abort | src/lib.rs:192-198 | the command is sent in any case; the same for the result |
| ManagerJoin.SocketManager.Drop | src/lib.rs:223-227 | once it has returned the thread has ended |
| JoinTasks.JoinPicks | src/conn_handle.rs:105-168 | at most two selects, no completed handle polled again, each task ended or asked to abort, a clean end of one half alone does not end the join |
| JoinTasks.JoinReaderWriter | src/conn_handle.rs:100-169 | the loop terminates and its flags, aborts and OnRemoteClose count are those of the branches taken |
| LifecycleInvariant.StepKeepsInv | src/conn_handle.rs:48-84 | every step of any connection, task, caller or of stop_all keeps events, stages, tasks and registry in agreement |
| LifecycleTheorems.EventLanguage | src/lib.rs:262-319 | the events of an attempt are a prefix of OnConnectError or of OnConnect, perhaps OnRemoteClose, OnConnectionClose; the close event exactly at the handler's end |
| LifecycleTheorems.EventsHaveSteps | src/lib.rs:262-319 | OnConnectError is emitted if and only if the connect failed, OnConnect if and only if the callback was invoked, OnConnectionClose if and only if the handler came to its end |
| LifecycleTheorems.ConnectedGoesOn | src/lib.rs:303-313 | a connect that succeeds leads to OnConnect under the addresses of its stream and no longer to OnConnectError |
| LifecycleTheorems.HandlerWaitsOnlyForOthers | src/conn_handle.rs:31-84 | a handler none of whose own moves is possible waits for the user or for a task; with no call under way, for an existing unused Conn |
| LifecycleProgress.AttemptReachesItsEnd | src/lib.rs:262-319 | in every run an attempt makes at most nine moves of its own; none is possible once its events are OnConnectError or end in OnConnectionClose, and before that one is possible unless it waits for the user or for a task |
| LifecycleProgress.StepLowersRank | src/conn_handle.rs:31-84 | every own move lowers the rank, and nobody else's step raises it |
| LifecycleTheorems.DeliveryBarrier | src/conn_handle.rs:138-150 | after OnRemoteClose on_msg has accepted exactly what was received before the end of the stream and is never called again |
| LifecycleTheorems.OnReaderEnd | src/conn_handle.rs:138-166 | a clean end of the reader emits OnRemoteClose and leaves the writer running, over only if that had ended; any other end aborts the writer and emits nothing |
| LifecycleTheorems.OnWriterEnd | src/conn_handle.rs:112-137 | a clean end of the writer leaves the reader running, over only if that had ended; any other end aborts the reader |
| LifecycleTheorems.AbortHasCause | src/conn_handle.rs:105-168 | a task is asked to abort only because of the stop signal, which goes to both, or because the other failed; the branch of a task is ready exactly if the task can take no further step |
| LifecycleTheorems.JoinLeavesNothingBehind | src/conn_handle.rs:105-168 | after the join each task has ended or was asked to abort; if none was asked, all accepted bytes are on the wire and all received are delivered |
| LifecycleTheorems.SpawnedMeansStarted | src/conn_handle.rs:41-57 | reader and writer exist only after exactly one successful start and never after a close that won |
| LifecycleTheorems.RegistryAgreement | src/conn_handle.rs:58-76 | an entry belongs to a handler between insert and removal; in the join a missing entry means that the stop branch is ready, and only then |
| LifecycleTheorems.OnlyRemovalReleases | src/conn_handle.rs:58-76 | a registered stopper is released by stop_all, by its handler's own removal and by a close under the same address pair, and by no other step |
| LifecycleTheorems.CloseBeforeInsertIsNoop | src/conn.rs:73-90 | a close between start and insert changes nothing but its own record |
| LifecycleTheorems.CloseTakesEffect | src/conn.rs:73-90 | a close readies the stop branch of its own handler if and only if that was registered in its join; it leaves the connection running if and only if the handler is between the OnConnect callback and the insert and the configuration was not dropped; a close that won always takes effect |
| LifecycleTheorems.CloseInWindowIsLost | src/conn.rs:73-90 | a run in which a close begun after the callback has no effect |
| LifecycleTheorems.CloseEffect | src/conn.rs:84-88 | the removal stops what is registered under the caller's address pair and changes nothing else |
| LifecycleTheorems.LiveCloseIsOwn | src/conn.rs:84-88 | while its handler lives, a close concerns no other connection |
| LifecycleTheorems.CloseStopsAnother | src/conn.rs:84-88 | a close changes another connection if and only if that one is registered under the same pair, and then the caller's handler has ended |
| LifecycleTheorems.StaleCloseStopsNewcomer | src/conn.rs:84-88 | a run in which this happens |
| LifecycleTheorems.StopAllReach | src/lib.rs:103-109 | stop_all changes a connection if and only if its stopper is registered, and afterwards the stop branch is ready if and only if the handler is in its join |
| LifecycleTheorems.StopAllMissesSpawned | src/lib.rs:103-109 | a run in which a handler between spawn and insert registers after stop_all and is not stopped |
| WakerRefs.StepKeepsInv | socket_manager/waker.cc:5-34 | construction, moves (self-move included), wakes and destruction keep references and holders equal |
| WakerRefs.WakersBalance | socket_manager/waker.cc:5-34 | in every run no reference is freed twice or woken after release, outstanding references match holders, none is left once all objects are destroyed |
| WakerRefs.NullDataLeaks | socket_manager/waker.cc:15-17 | a reference whose raw waker has a null pointer is never freed |
| WakerRefs.Wakers.FromWaker | src/c_api/async_ffi/waker.rs:36-45 | the new object holds the waker and there is one more reference to it |
| WakerRefs.Wakers.MoveConstruct | socket_manager/waker.cc:9-12 | the new object holds what the source held, the source is empty, no reference is made or freed |
| WakerRefs.Wakers.AssignFrom | socket_manager/waker.cc:14-22 | the old reference is freed, the other's taken over, the other emptied; a self-move frees once and leaves the object empty |
| WakerRefs.Wakers.WakeUp | socket_manager/waker.cc:24-28 | wakes exactly when a reference is held, and that reference is outstanding |
| WakerRefs.Wakers.Destruct | socket_manager/waker.cc:30-34 | frees what is held, once, and leaves the object empty |

## Left out

- WriterTask.Writer.HandleWriter: takes a budget, because a select loop need not end; the budget only limits how long a run is observed, and the run theorems have no such limit.
- ReaderTask.Reader.HandleReader: takes a budget of rounds and polls for the same reason; it covers both reader modes, and `hasData` is kept also in the mode that has no ticks, where nothing reads it.
- Sender.MsgSender.SendBlock: takes a budget of polls and does not claim that it returns, because a full ring may stay full.
- WriterTask.Writer.Flush: takes a budget of turns, because the sender may fill the ring as fast as it is written; the bytes that were there at the start need no more turns than they are many.
- WriterTask.Writer.SelectLoop: takes a budget, because the loop need not end while the sender keeps the ring open.
- WriterTask.Writer.WaitLoop: takes a budget for the same reason.
- ManagerJoin.SocketManager.Join: does not claim that it returns, because the thread may run for ever; the same holds for Abort and Drop.
- The handler task, `connect_to_addr` and the registry are steps of a state machine, not statements of a method, since other connections act between any two of them.
- The command loop of `main` beyond connect, accept and abort, and the listener with its cancellation.
- Runtime start-up and shutdown: a run may stop anywhere, so a close event is claimed only for handlers that run to their end.
- Ring buffer, channel, map and waker internals and memory orderings, which are outside the repository.
- Real time: a tick may fire at any moment.
- The C API wrappers, address parsing, logging and the C++ map that keeps connections alive.
