# libanet: reactor, timers, logging, calendar and zone files

A Dafny model of the stateful core of libanet, a reactor-style TCP library, with proofs about every run of it.

Each component is modelled twice where the source changes state. A step machine over values (`Connection`,
`Timers`, `Pollers`, ...) says what one atomic step does; the theorems quantify over all sequences of steps, all
outcomes of the system calls and all scripts of user callbacks. A class in the source's own form (`TcpConnection`,
`TimerQueue`, `PollPoller`, ...) is proved method by method to take exactly those steps, with the source's
assertions proved, or made the recorded failure, where they stand. Pure arithmetic (`Date`, `CivilTime`) is
functions with lemmas.

- **Connections** (`Buffer`, `Channel`, `Connection`, `Delivery`, `Effects`, `GracefulClose`, `Lifecycle`,
  `LateHangup`, `Orphans`, `TcpConnection`, `TcpServer`, `ChannelCalls`): what the user sends is what enters the byte
  stream, told from the calls and reports alone, and the stream is conserved over any run; half-close is graceful if
  and only if no functor of another thread comes too late, and so always for calls on the loop thread; the life of a
  connection is regular unless one of four hazards is recorded. The hazards are PRI or
  RDHUP beside HUP without IN where the read finds end of stream (`oddHangup`); a startRead after the close, or a
  stopRead after connectDestroyed (`lateRead`); a disconnecting connection at server destruction (`tornDown`); and a
  hang-up reported after the close (`lateHangup`). The poller in use is a parameter, and so is whether the user keeps
  a shared pointer of its own (`kept`). The conditions under which a report of the poller, connectDestroyed or the
  server's destructor fails an assertion are exact.
- **Timers** (`TimerQueue`, `TimerQueueObject`, `TimerDispatch`): two ordered indices over the same timers, deferred
  cancellation, reused addresses, and an alarm that is never late; a timer waits until it is due, runs once in the
  dispatch that finds it due, and waits again if it repeats. Nothing is assumed of the deadlines.
- **EventLoop**: interleaved steps of the loop thread and any number of others; no lost wake-up, and first in,
  first out execution of exactly what is handed to queueInLoop.
- **AsyncLogging**: conservation of the log and the safety of the refills.
- **Pollers** (`Pollers`, `PollerObjects`): the dense array and the three-state mark both implement one map from
  descriptors to interests; they differ in the hang-ups they report, and exactly where is proved.
- **Calendar** (`Date`, `CivilTime`): the Julian day bijection, its exact range and its 32-bit safety; civil time and
  zone lookup.
- **Zone files** (`TzFile`, `TzReader`, `TzEncoding`): exact conditions for a file to be read, the skip over the
  version-1 block, and round trips.
- **Monitors** (`Monitor`): the bounded queue and the thread pool as one step system with a set of sleepers and a set
  of woken threads per condition variable.

Where the code departs from its evident intent, the model follows the code:

- `findLocalTime` for a local time passes CompareUtcTime with a UTC time of zero (base/TimeZone.cc:309-311). The
  comparator is a parameter of the model, and so is postTransition: `CodeRoundTrip` gives the exact condition for the
  code's choice, `CodeRoundTripFails` an input that fails, and `LocalRoundTrip` and `EarlierRoundTrip` the exact
  conditions for the comparator that is defined but unused.
- `readUint8` applies be64toh to one byte (base/TimeZone.cc:136), which is zero on a little-endian host. The byte
  order is a parameter; `HostsAgree` and `MeantIsRead` say exactly which files are unharmed, and
  `LittleEndianOneOffset` what is left of a zone on such a host.
- EPollPoller answers an update without interest to a channel it has deleted by adding it again with an empty mask
  (net/EpollPoller.cc:87-98), and the kernel reports hang-ups for it. A connection whose interest is emptied twice, by
  a close that found it empty or by a stopRead after the close, is so exposed to a second close until
  connectDestroyed runs: `FatalPolls`, `CloseExposes`, `HangupAfterCloseFails`. PollPoller does not do this.
- PollPoller does not reset the index of a removed channel (net/PollPoller.cc:84-110), EPollPoller does
  (net/EpollPoller.cc:131), so a channel can be used again only with the latter.
- A version byte other than "2", "3" included, is read as version 1 (base/TimeZone.cc:225-238).
- The timerfd is on the monotonic clock (net/TimerQueue.cc:20) while delays come from Timestamp::now, which is not part
  of this model; one clock is modelled.
- `quit` called before `loop()` is overwritten (net/EventLoop.cc:83): `QuitBeforeLoopLost`, while `QuitHeeded` covers
  one stored later.
- `shutdown` and `send` called on another thread test `state_` there and act in a functor (net/TcpConnection.cc:73-78,
  152-169), which may find the write side shut down, or the connection closed with bytes unsent: `HalfCloseExact`.
- `connectDestroyed` leaves a disconnecting channel enabled (net/TcpConnection.cc:264-273), and `startReadInLoop` can
  enable reading after the close (net/TcpConnection.cc:230-236): the hazards above.
- `connectDestroyed` leaves a disconnecting connection disconnecting, too, while the server drops what is often its last
  reference (net/TcpServer.cc:28-33), and the destructor asserts that it is disconnected (net/TcpConnection.cc:46). The
  step `Release` stands for that; queued functors that own the connection (forceCloseInLoop, connectDestroyed, and the
  write-complete and high-water callbacks) put it off: `TeardownFails`, `TornDownForGood`, `OrphansFail`.
- `isLockedByThisThread` has an empty body (base/Mutex.h:28) and is taken to mean what its name says; a Buffer
  assertion misspells a method name (net/Buffer.h:28) and is read as the one meant.

## Model

| member | source | states |
|---|---|---|
| `Delivery.StreamConserved` | net/TcpConnection.cc:63-150 | Every run, any thread, any partial write: the messages that enter the stream are exactly those the user sends while connected, whole and in order, at once on the loop thread or when the loop takes up the functor of another thread before the disconnect, and the others sent from other threads are still queued; wire bytes followed by the output buffer are these messages (those lost whole to a broken pipe excepted); the wire is always a prefix of them; while not disconnected the buffer is non-empty exactly when write interest is on, and afterwards write interest is off |
| `Delivery.OnlyBrokenPipesDrop` | net/TcpConnection.cc:67-81 | A send while connected makes one message of the bytes given, marked lost only if nothing was waiting and the direct write met a broken pipe; from another thread the same bytes are queued |
| `Delivery.SendFunctorAccepts` | net/TcpConnection.cc:100-111 | The functor of a send from another thread makes one message of its bytes unless the connection is disconnected |
| `Connection.TransmitBytes` | net/TcpConnection.cc:111-149 | One sendInLoop: the wire grows and wire plus buffer gain exactly the message, or nothing when disconnected or when a direct write meets a broken pipe |
| `Effects.SendWrites` | net/TcpConnection.cc:116-145 | With nothing waiting the socket is asked for the whole message and the rest is buffered; else the message is only buffered |
| `Effects.SendNotifies` | net/TcpConnection.cc:120-143 | A send queues the high-water callback exactly if it lifts the buffer from below the mark to it or above, the write-complete callback exactly if the message went out whole at once, and nothing else |
| `Connection.DrainBytes` | net/TcpConnection.cc:292-320 | One handleWrite: bytes move from the buffer to the wire and none is lost, added or reordered; interest ends exactly with the buffer |
| `Effects.WritableWrites` | net/TcpConnection.cc:291-320 | A live connection found writable tries its whole output buffer and keeps what is not taken; exactly when that empties it interest ends, the write-complete callback is queued and a pending shutdown is issued |
| `Effects.WriteComesLast` | net/Channel.cc:59-90 | In one dispatch the write callback comes after the read callback: it does what a separate report would do next |
| `Effects.ReadSwitches` | net/TcpConnection.cc:224-250 | startRead leaves reading on and stopRead leaves it off, at once or when the functor of another thread runs |
| `Effects.QueueInOrder` | net/EventLoop.cc:217-230 | A connection's functors have their turn first in, first out, whatever is queued behind them meanwhile |
| `Effects.ForceCloseCloses` | net/TcpConnection.cc:171-201 | forceClose on a live connection, from any thread and in every continuation: once the functors queued before it and its own have had their turn the connection is disconnected, or an assertion has failed |
| `GracefulClose.GracefulHalfClose` | net/TcpConnection.cc:152-169 | With send and shutdown called on the loop thread only nothing comes too late: shutdownWrite is issued at most once, nothing reaches the socket after it, then the buffer is empty and every accepted byte is on the wire; while the shutdown is pending it has been issued exactly if the buffer is empty |
| `GracefulClose.HalfCloseExact` | net/TcpConnection.cc:152-169 | Over every run, whichever threads call: shutdownWrite is the last thing asked of the socket, with an empty buffer and every accepted byte on the wire, if and only if no functor came too late, which is a test on the state it starts in; and then a requested shutdown is issued or still queued whenever the buffer is empty |
| `GracefulClose.RemoteShutdownTwice` | net/TcpConnection.cc:158-158 | First way to come too late: a run in which a shutdown from another thread is issued twice |
| `GracefulClose.RemoteSendAfterShutdown` | net/TcpConnection.cc:73-78 | Second way: a run in which a send queued by another thread writes after shutdownWrite |
| `GracefulClose.RemoteShutdownAfterClose` | net/TcpConnection.cc:162-169 | Third way: a run in which a shutdown queued by another thread is issued after a close has left bytes in the buffer |
| `GracefulClose.StepMannered` | net/TcpConnection.cc:297-308 | Each step that does not come too late keeps the discipline of the half-close, whichever thread calls |
| `GracefulClose.LateIsRude` | net/TcpConnection.cc:162-169 | Each functor that comes too late breaks it |
| `GracefulClose.RudeStays` | net/TcpConnection.cc:152-169 | What is broken stays broken, whatever the next step does to the output path |
| `Lifecycle.ConnectionLife` | net/TcpConnection.cc:252-335 | Every run, under either poller, unless one of four recorded hazards occurred: no assertion fails; UP once, DOWN once after the close; the server entry exists exactly until the close; connectDestroyed has run or is queued exactly once after the close, never before; no interest is left; the calls to the poller are legal |
| `Lifecycle.StateMovesForward` | net/TcpConnection.h:121-134 | Between any two moments of a run state_ has only moved forward, a recorded hazard stays recorded, and an erased server entry does not come back |
| `Lifecycle.DispatchSound` | net/Channel.cc:59-90 | Of all that a poller may report for a sound connection, exactly these fail an assertion: for a live one HUP without IN together with PRI or RDHUP where the read finds end of stream; for a closed one any HUP without IN |
| `Lifecycle.DestroyedSound` | net/TcpConnection.cc:263-273 | connectDestroyed fails its assertion on the channel if and only if the connection was connected and the last startRead or stopRead of its DOWN callback is a startRead, or it was not connected and has interest |
| `Lifecycle.TeardownFails` | net/TcpServer.cc:25-34 | For every DOWN callback: destroying the server under a sound connection fails an assertion if and only if the connection is disconnecting and has interest left or no owner but the server (neither the user nor a queued functor holds a shared pointer), or it is connected and the callback ends reading |
| `Orphans.TornDownForGood` | net/TcpServer.cc:28-33 | Whatever follows the destruction of the server under a disconnecting connection: it is never disconnected again; an assertion fails, or it stays disconnecting and the user or a queued functor still owns it; without the user one has failed by the time its functors have run |
| `Orphans.OrphansFail` | net/TcpConnection.cc:43-47 | Two ends of such a connection: with the last pointer gone the destructor's assertion fails at once; with a force-close under way the table's assertion fails when its functor runs |
| `Lifecycle.BlameIsReal` | net/TcpConnection.cc:229-236 | Three of the four hazards do break an assertion on some run |
| `Lifecycle.HandleCloseSound` | net/TcpConnection.cc:322-335 | A close of a sound live connection passes its assertions whatever the DOWN callback does and leaves a sound disconnected connection |
| `LateHangup.FatalPolls` | net/EpollPoller.cc:81-112 | Over every run not yet spoiled: a poll fails an assertion if and only if it is the odd hang-up of a live connection, or a hang-up of a closed, undestroyed one whose interest was emptied twice under epoll |
| `LateHangup.CloseExposes` | net/TcpConnection.cc:322-335 | A close leaves the descriptor in epoll's set, with an empty mask, if and only if it found the interest empty already, or found reading on and the DOWN callback stops it |
| `LateHangup.NeverStoppingIsSafe` | net/TcpConnection.cc:243-250 | Over every run without a stopRead in any call, functor or callback: epoll never holds a closed connection, and until one of the hazards occurs only the odd hang-up of a live connection is fatal |
| `LateHangup.HangupAfterCloseFails` | net/EpollPoller.cc:87-107 | The fourth hazard: stopRead, force-close, then a hang-up before connectDestroyed fails an assertion under epoll and changes nothing under poll |
| `TcpConnectionObject.TcpConnection.SendInLoop` | net/TcpConnection.cc:105-150 | The object, step by step: its new state is the transmission step of the model |
| `TcpConnectionObject.TcpConnection.HandleWrite` | net/TcpConnection.cc:291-320 | The object takes the drain step |
| `TcpConnectionObject.TcpConnection.TakeDown` | net/TcpConnection.cc:328-332 | The part of handleClose that stays with the object: disconnected, no interest, the poller told, DOWN and its callback; the close callback is in the server's row |
| `TcpConnectionObject.TcpConnection.ConnectEstablished` | net/TcpConnection.cc:252-261 | The object takes the opening step and runs the UP callback |
| `TcpConnectionObject.TcpConnection.ConnectDestroyed` | net/TcpConnection.cc:263-273 | The object takes the destruction step, including the failing assertion |
| `TcpConnectionObject.TcpConnection.Release` | net/TcpConnection.cc:43-47 | The last shared pointer goes: the destructor's assertion fails exactly if the connection is not disconnected |
| `TcpConnectionObject.TcpConnection.HandleEvent` | net/Channel.cc:59-90 | The callbacks of one event, in the fixed order close, read, write, are the dispatch of the model |
| `TcpConnectionObject.TcpConnection.HandleRead` | net/TcpConnection.cc:275-289 | Data runs the message callback, end of stream closes, an error changes nothing |
| `TcpConnectionObject.TcpConnection.ForceCloseInLoop` | net/TcpConnection.cc:194-201 | Closes exactly a connection that is still live |
| `TcpConnectionObject.SendInTwoHalves` | net/TcpConnection.cc:111-149 | The direct write followed by the buffering of the rest is the one transmission step, with the same notices queued |
| `NetChannel.Channel.EnableWriting` | net/Channel.h:63-66 | Sets the write bit only, marks the channel as added, and tells the poller the new interest |
| `NetChannel.Channel.DisableAll` | net/Channel.h:72-75 | Clears both bits and tells the poller |
| `NetChannel.Channel.Remove` | net/Channel.cc:39-44 | Needs an empty interest; the channel is no longer added, and the poller is told to forget it |
| `TcpServer.ServerKeepsConnections` | net/TcpServer.cc:51-91 | Over every run of a server: each connection carries its stream intact and, if unblamed, is in the table exactly while it is up, was told UP once and DOWN once at the end, and is destroyed once |
| `TcpServer.ErasedForGood` | net/TcpServer.cc:81-91 | Connection numbers are never reused and an entry erased from the table never comes back |
| `TcpServer.EveryConnectionReached` | net/TcpServer.cc:51-74 | Numbers in use are below the next one, and every connection in a server is one that a run of a single connection reaches |
| `TcpServer.EachIsItsOwnRun` | net/TcpServer.cc:25-91 | Connections do not disturb each other: each is what its own share of the events makes of it, from the arguments it was accepted with, the destruction of the server with its own callback included |
| `TcpServer.EachAccountIsKept` | net/TcpServer.cc:51-91 | Over every run of a server: the messages each connection has accepted are those its own calls and reports account for |
| `TcpServer.TcpServer.NewConnection` | net/TcpServer.cc:51-74 | The next number gets an entry with a fresh connection, established with its UP callback; all other entries untouched |
| `TcpServer.TcpServer.RemoveConnectionInLoop` | net/TcpServer.cc:81-91 | Exactly the one entry is erased and its destruction is queued; HandleClose composes it with the taking down |
| `TcpServer.TcpServer.HandleClose` | net/TcpConnection.cc:322-335 | handleClose with the close callback bound to the server: the connection takes the close step of the model and exactly its entry is erased; a second close is the failed assertion and erases nothing |
| `TcpServer.TcpServer.Destroy` | net/TcpServer.cc:25-34 | The loop of the destructor takes every entry down by the model's step, its last reference and the assertion behind it included, each once and without disturbing another |
| `Timers.TimersConsistent` | net/TimerQueue.cc:154-202 | Over every run: no assertion fails and no deleted timer is touched; the two sets hold the same timers, each keyed by its current expiration, strictly ordered; every Timer object is owned exactly once, by the sets, the batch, or a pending add |
| `Timers.NoLateTimer` | net/TimerQueue.cc:107-114 | Over every run: between dispatches, while a timer waits, the timerfd is armed for the earliest expiration or earlier, or for the least delay of 100 microseconds after it was set |
| `Timers.DispatchIsExact` | net/TimerQueue.cc:154-173 | A dispatch takes exactly the timers with expiration at most now, in order, and leaves exactly the later ones |
| `Timers.CancelledNeverRunsAgain` | net/TimerQueue.cc:116-132 | Once cancelInLoop has processed the id of a live timer, waiting or in the batch being dispatched, that timer runs in no later batch, whatever follows |
| `Timers.CancelledWaitingNeverRuns` | net/TimerQueue.cc:122-127 | A waiting timer that is cancelled never runs again, not even in the batch being dispatched |
| `Timers.StaleCancelHarmless` | net/TimerQueue.cc:128-130 | Cancelling an id that names no live timer, its address reused or not, changes nothing of any later state but the set of deferred marks |
| `Timers.TimespecIsDelay` | net/TimerQueue.cc:27-42 | The timespec is normalised, never zero, and is the delay to the deadline, at least 100 microseconds |
| `Timers.StepKeeps` | net/TimerQueue.cc:116-226 | Every step keeps the whole invariant of the queue |
| `Timers.PutAgrees` | net/TimerQueue.cc:175-202 | insert: both insertions succeed and the two sets stay in agreement |
| `Timers.DropAgrees` | net/TimerQueue.cc:122-127 | cancelling an active timer removes exactly it from both sets and from the heap |
| `Timers.DueSplits` | net/TimerQueue.cc:158-162 | lower_bound on (now, greatest address) separates the due from the later |
| `Timers.TakeAgrees` | net/TimerQueue.cc:154-173 | getExpired: every erase finds its timer, and the sets left agree |
| `Timers.SizesAgree` | net/TimerQueue.cc:119-119 | The asserted equality of the sizes of the two sets |
| `Timers.ResetOwned` | net/TimerQueue.cc:208-217 | A round of reset finds its object, which is in neither set, and afterwards every object is still owned once and the batch is one entry shorter |
| `TimerDispatch.AddedTimerWaits` | net/TimerQueue.cc:94-114 | An added timer waits in both sets with the time and interval given and the next sequence number |
| `TimerDispatch.WaitsUntilDue` | net/TimerQueue.cc:116-226 | Through any events a waiting timer waits on with the same deadline, unless its id is cancelled or a dispatch comes at or after its deadline |
| `TimerDispatch.ResetOneExact` | net/TimerQueue.cc:208-217 | One round of reset: a timer with a positive interval that no callback has cancelled waits again at now plus the interval, with the same sequence number; any other is deleted |
| `TimerDispatch.DueTimersRun` | net/TimerQueue.cc:134-152 | A whole dispatch, any callbacks: exactly the due timers run, each once and in the order of their deadlines |
| `TimerDispatch.DueTimersRepeat` | net/TimerQueue.cc:134-226 | A whole dispatch, any callbacks: a due timer waits again for now plus its interval if it repeats and no callback cancels it, and its object is deleted otherwise |
| `TimerDispatch.LaterTimersWaitOn` | net/TimerQueue.cc:134-152 | A whole dispatch leaves a timer that is not due waiting as it was, unless a callback cancels it |
| `TimerDispatch.AlarmMoves` | net/TimerQueue.cc:107-226 | The timerfd is set exactly for an added timer earlier than all waiting and at the end of a dispatch for the earliest of valid time, to its deadline or 100 microseconds from then if that is later; a dispatch reads it if it has gone off |
| `TimerQueueObject.TimerQueue.HandleRead` | net/TimerQueue.cc:134-152 | The object: the due timers leave, their callbacks run in order with whatever they add and cancel, the batch is reset; the result is that sequence of steps and the invariant holds |
| `TimerQueueObject.TimerQueue.AddTimerInLoop` | net/TimerQueue.cc:107-114 | The object takes the add step; the alarm moves exactly if the new timer is the earliest |
| `TimerQueueObject.TimerQueue.CancelInLoop` | net/TimerQueue.cc:116-132 | The object takes the cancel step, now or deferred |
| `TimerQueueObject.TimerQueue.GetExpired` | net/TimerQueue.cc:154-173 | Removes and returns the due prefix from both sets, with its assertions proved in place |
| `TimerQueueObject.TimerQueue.InsertTimer` | net/TimerQueue.cc:175-202 | Inserts into both sets and says exactly whether the earliest changed |
| `TimerQueueObject.TimerQueue.Reset` | net/TimerQueue.cc:204-226 | The loop over the batch and the re-arming by the earliest valid expiration |
| `TimerQueueObject.TimerQueue.NewTimer` | net/Timer.h:14-16 | A new object at a free address gets the next sequence number |
| `TimerQueueObject.TimerQueue.Restart` | net/Timer.cc:8-15 | The expiration becomes now plus the interval for a repeating timer and the invalid time for any other |
| `TimerQueueObject.TimerQueue.Reinsert` | net/TimerQueue.cc:210-213 | A repeating timer of the batch is restarted and put back into both sets |
| `TimerQueueObject.ResetAllIsSteps` | net/TimerQueue.cc:208-217 | The loop of reset is one step per batch entry, so what holds of every run holds of it |
| `EventLoop.NoLostWakeup` | net/EventLoop.cc:78-134 | In every interleaving: when the loop is about to block in poll with functors pending, not all of them queued by the loop thread outside loop(), or with quit asked for, the eventfd is readable or a thread is between its push or store and its wakeup |
| `EventLoop.StrayPushSleeps` | net/EventLoop.cc:131-133 | That proviso is needed: a functor queued on the loop thread before loop() leaves the loop asleep |
| `EventLoop.QuitBeforeLoopLost` | net/EventLoop.cc:79-86 | A quit asked for before loop() is overwritten, and the loop goes on to poll |
| `EventLoop.QuitStored` | net/EventLoop.cc:108-114 | quit is stored wherever it is called; another thread is then on its way to wake the loop |
| `EventLoop.QuitHeeded` | net/EventLoop.cc:86-114 | A quit stored once loop() has begun, in every continuation: the loop has left, or has taken at most the one batch it was on its way to and leaves at its next check |
| `EventLoop.FunctorsInOrder` | net/EventLoop.cc:217-230 | In every interleaving: functors executed, the rest of the batch and those pending are exactly the functors handed to queueInLoop by any thread, from outside loop(), an event callback or a functor, in the order of the calls; each runs at most once and in a batch taken after it was queued |
| `EventLoop.StepPushes` | net/EventLoop.cc:125-134 | One call of queueInLoop, by another thread or by the loop thread in each place it can call from, records exactly its functor, and nothing else does |
| `EventLoop.BatchesComplete` | net/EventLoop.cc:217-230 | Outside a batch the functors executed are a prefix of those handed over, exactly those queued before the last batch was taken |
| `EventLoop.RoundRunsPending` | net/EventLoop.cc:86-102 | In every interleaving: once another batch has been taken and finished, all that was handed to queueInLoop before has been executed |
| `EventLoop.SoloRoundRunsPending` | net/EventLoop.cc:86-102 | And the loop can get there alone: once poll returns, its own next steps execute all that was handed over before, read the eventfd, and bring it back to poll, or out of loop() if it has been told to quit |
| `EventLoop.StepAwake` | net/EventLoop.cc:197-215 | Every step of any thread keeps the wake-up invariant |
| `EventLoop.WakeupArrives` | net/EventLoop.cc:197-205 | A thread on its way to wake the loop arrives with its next step, and the eventfd is readable |
| `AsyncLogging.RefillsNeverFail` | base/AsyncLogging.cc:90-102 | Over every interleaving no assertion of the back end fails; a missing nextBuffer_ means a buffer is queued |
| `AsyncLogging.LogConserved` | base/AsyncLogging.cc:50-106 | At every moment: the lines appended that fit a buffer are, in order and whole, in the batches, the queued buffers and the current one; what is written followed by what is in flight is, batch by batch in order, all buffers of the batch, or of more than 25 a note with the number lost and the first two |
| `AsyncLogging.CutKeeps` | base/AsyncLogging.cc:70-84 | Of a batch of more than 25 buffers the note with the number lost and the first two are written, of any other all |
| `AsyncLogging.OnePassWritesAll` | base/AsyncLogging.cc:50-106 | Whenever the back end waits, one pass of it alone brings everything appended so far into a batch and the batch into the file |
| `AsyncLogging.AppendSwitches` | base/AsyncLogging.cc:22-37 | A line goes to the current buffer exactly if it leaves a byte of its 4000000 free; else that buffer is queued and the line opens the next, if it fits |
| `AsyncLogging.SparesMove` | base/AsyncLogging.cc:27-102 | No buffer is in two places: a switch uses up nextBuffer_ if there is one, a collection one spare buffer, and a refill takes back what is missing |
| `AsyncLogging.AcceptedLines` | base/AsyncLogging.cc:21-37 | Over every run the lines accepted are exactly the lines appended that are shorter than a buffer |
| `AsyncLogging.StepStocked` | base/AsyncLogging.cc:60-66 | Every step keeps the stock of empty buffers that the refill needs |
| `AsyncLogging.FixedBuffer.Append` | base/LogStream.h:26-31 | The bytes go in whole if at least one byte stays free, and not at all otherwise, over a real array; a buffer that holds the bytes of some lines then holds those of the lines the model puts in |
| `AsyncLogging.PutText` | base/LogStream.h:26-31 | Putting a line into a buffer of lines appends exactly its bytes, or nothing if it does not leave a byte free |
| `AsyncLogging.FixedBuffer.Reset` | base/LogStream.h:53-55 | The buffer is empty and all of it is available |
| `AsyncLogging.Logger.Append` | base/AsyncLogging.cc:21-37 | The front end takes the append step of the model |
| `AsyncLogging.Logger.CollectBuffers` | base/AsyncLogging.cc:51-66 | The critical section takes the collect step, with the assertions before it proved |
| `AsyncLogging.Logger.WriteBuffers` | base/AsyncLogging.cc:68-84 | The file gains all buffers of the batch in order, or, of more than 25, the note and the first two |
| `AsyncLogging.Logger.RefillBuffers` | base/AsyncLogging.cc:86-104 | The two spare buffers are refilled, with both assertions proved in place |
| `Pollers.PollersAgree` | net/PollPoller.cc:54-110 | On every run legal for both, poll(2) and epoll watch the same descriptors for the same events, namely the registered channels with non-empty interest; epoll_ctl is never refused and the array is dense |
| `Pollers.HangupsReported` | net/EpollPoller.cc:81-132 | Where the two still differ: poll reports hang-ups of a registered channel if and only if it has interest or was first registered without; epoll of every descriptor in its set, which an empty update puts in if it was out, and then with an empty mask |
| `Pollers.PollKeepsDense` | net/PollPoller.cc:54-110 | Updates and swap-removals keep array, map and channel indices in bijection, the entry at a channel's index holding its descriptor or the negated form |
| `Pollers.PollAssertsExact` | net/PollPoller.cc:84-110 | For a channel known to the poller, the assertions of updateChannel never fail and those of removeChannel hold exactly for a registered channel without interest that was not first registered so |
| `Pollers.EpollKeepsMirror` | net/EpollPoller.cc:81-168 | The kernel set holds exactly the channels marked added, with their current interest; ADD only for absent and MOD or DEL only for present descriptors |
| `Pollers.RawRemovalDiffers` | net/PollPoller.cc:57-67 | Where the pollers part: a channel first registered without interest can be removed from one and not from the other |
| `PollerObjects.PollPoller.UpdateChannel` | net/PollPoller.cc:54-82 | The object takes the update step, with its assertions proved in place |
| `PollerObjects.PollPoller.RemoveChannel` | net/PollPoller.cc:84-110 | The object takes the swap-removal step; the index of the removed channel is not reset, so that using the channel again would fail the assertion of updateChannel |
| `PollerObjects.PollPoller.FillActiveChannels` | net/PollPoller.cc:37-52 | The active channels are exactly those reported, in array order, and each is told its own events |
| `PollerObjects.ReportedExact` | net/PollPoller.cc:37-52 | A descriptor is reported exactly if an entry of it has a positive answer |
| `PollerObjects.ReportedPrefix` | net/PollPoller.cc:39-41 | Reports are found in array order, so stopping at the counted number misses none |
| `PollerObjects.EPollPoller.UpdateChannel` | net/EpollPoller.cc:81-112 | The object takes the update step of the three-state mark |
| `PollerObjects.EPollPoller.RemoveChannel` | net/EpollPoller.cc:114-132 | The object takes the removal step; the mark is new again, so that the channel can be used again |
| `ChannelCalls.ConnectionWatched` | net/TcpConnection.cc:252-335 | Any run of an unblamed connection makes calls that are legal for both pollers; both watch its descriptor for exactly its interest; epoll's set holds it if and only if it has interest or was emptied twice |
| `ChannelCalls.PhaseIsRegistry` | net/Channel.cc:33-44 | The phase of a channel is what the registry of the pollers says of it |
| `ChannelCalls.HeldIsHolds` | net/EpollPoller.cc:81-132 | The connection's account of epoll's set is that of the poller |
| `NetBuffer.Buffer.Append` | net/Buffer.h:133-137 | The contents gain the bytes at the end |
| `NetBuffer.Buffer.Prepend` | net/Buffer.h:253-258 | The contents gain the bytes in front, given room |
| `NetBuffer.Buffer.Retrieve` | net/Buffer.h:78-85 | The contents lose exactly the first bytes |
| `NetBuffer.Buffer.RetrieveAsString` | net/Buffer.h:118-123 | The bytes retrieved are returned |
| `NetBuffer.Buffer.Unwrite` | net/Buffer.h:159-162 | The contents lose exactly the last bytes |
| `NetBuffer.Buffer.MakeSpace` | net/Buffer.h:282-294 | The contents are unchanged and the room asked for is there; the compaction assertion holds |
| `NetBuffer.Buffer.EnsureWritableBytes` | net/Buffer.h:143-148 | The contents are unchanged and the room asked for is there |
| `NetBuffer.Buffer.Shrink` | net/Buffer.h:260-265 | The contents are unchanged, with at least the reserve writable and the standard room in front |
| `NetBuffer.Buffer.ReadInt` | net/Buffer.h:210-232 | Reads the big-endian integer at the front and retrieves it |
| `NetBuffer.Buffer.AppendInt` | net/Buffer.h:164-181 | The contents gain the big-endian octets of the integer |
| `NetBuffer.Buffer.PrependInt` | net/Buffer.h:234-251 | The contents gain the octets of the integer in front |
| `Bytes.IntegersReadBack` | net/Buffer.h:164-232 | Any mix of appended integers of any widths, with anything behind them, reads back in order |
| `Bytes.IntRoundTrip` | net/Endian.h:15-44 | A signed integer survives conversion to network order and back |
| `Bytes.OctetsRoundTrip` | net/Endian.h:15-44 | Octets survive conversion to a host integer and back |
| `Date.DayIsDate` | base/Date.cc:21-34 | Every day number from -32044 on yields a valid proleptic Gregorian date, on or after 1 March 4801 BC, whose day number it is |
| `Date.DateRoundTrip` | base/Date.cc:11-34 | A valid date survives the trip to its day number and back if and only if it is on or after 1 March 4801 BC |
| `Date.DatesAreFrom` | base/Date.cc:21-34 | getYearMonthDay yields a valid date if and only if the day number is at least -32044 |
| `Date.NextDay` | base/Date.cc:21-34 | Successive day numbers are successive dates of the calendar |
| `Date.NextDateIsNextDay` | base/Date.cc:11-19 | The date after a date has the next day number |
| `Date.DayFitsExactly` | base/Date.cc:22-32 | From -32044 on, no subexpression of getYearMonthDay leaves 32 bits if and only if the day number is at most 536838867 |
| `Date.DateOfDayFits` | base/Date.cc:14-18 | On the dates of that range no subexpression of getJulianDayNumber leaves 32 bits |
| `Date.SplitOfYear` | base/Date.cc:23-28 | The two divisions recover the year and the day in it |
| `Date.MonthLengths` | base/Date.cc:17-17 | The rounding formula gives the starts of the months, for common and leap years |
| `CivilTime.JulianDayOf1970` | base/Date.cc:36-36 | The value of the constant for 1 January 1970 |
| `CivilTime.BreakTimeInverse` | base/TimeZone.cc:256-275 | fromUtcTime inverts BreakTime, and the time is valid, for negative and positive seconds from the first day of the calendar on |
| `CivilTime.FromUtcTimeInverse` | base/TimeZone.cc:406-412 | BreakTime inverts fromUtcTime on exactly the valid times dated on or after 1 March 4801 BC |
| `CivilTime.TimesAreFrom` | base/TimeZone.cc:256-275 | BreakTime yields a valid time if and only if the second is in the calendar |
| `CivilTime.TimeFitsExactly` | base/TimeZone.cc:259-268 | From there on the casts to int and the arithmetic of BreakTime fit in 32 bits exactly up to the last second of day 536838867 |
| `CivilTime.UpperBoundIsScan` | base/TimeZone.cc:287-288 | On ascending transitions the binary search finds what a linear scan finds |
| `CivilTime.UtcLookupIsScan` | base/TimeZone.cc:280-299 | The lookup gives the type of the last transition not after t, or the first type, and its assertion holds |
| `CivilTime.CivilRoundTrip` | base/TimeZone.cc:370-385 | In every non-empty zone with ascending transitions, fromUtcTime of toLocalTime less the offset is the time |
| `CivilTime.FoundIsEpoch` | base/TimeZone.cc:309-311 | With the comparator the code passes, the search finds the era of second 0 whatever local time is asked for |
| `CivilTime.LocalLookupAborts` | base/TimeZone.cc:312-312 | That assertion fails, under either setting of postTransition, if and only if the local time is not before the first transition and the first transition is after 1970 |
| `CivilTime.CodeRoundTrip` | base/TimeZone.cc:301-345 | With that comparator, under either setting of postTransition, a time comes back from its local time if and only if its offset is that of one fixed type: the first, or, k being the number of transitions up to second 0, that of transition k, k - 1 or k - 2 by where the local time lies |
| `CivilTime.LookupByTypes` | base/TimeZone.cc:309-345 | The offset the second lookup takes, in the types around the position found, in each of its branches |
| `CivilTime.CodeGap` | base/TimeZone.cc:309-327 | The code reads a local time past the end of the era of second 0 by the type after that era under postTransition and by its own otherwise |
| `CivilTime.LocalGap` | base/TimeZone.cc:317-327 | The unused comparator reads a skipped local time by the later type under postTransition and by the earlier otherwise |
| `CivilTime.CodeRoundTripFails` | base/TimeZone.cc:309-311 | A zone and a time where it does not, under either setting, while the unused comparator gives the time back |
| `CivilTime.LocalRoundTrip` | base/TimeZone.cc:321-344 | With the comparator for local times and postTransition, a time comes back if and only if its local time is before that of the next transition |
| `CivilTime.EarlierRoundTrip` | base/TimeZone.cc:329-342 | Without postTransition, the exact condition: overlaps are read as the earlier time except at the first and the last transition |
| `CivilTime.LocalTimeShown` | base/TimeZone.cc:321-327 | A local time read and shown again is itself if and only if it was not skipped by a transition, under either setting |
| `CivilTime.FixedOffsetRoundTrip` | base/TimeZone.cc:364-368 | A zone without transitions gives every time back under either comparator |
| `CivilTime.ReadBack` | base/TimeZone.cc:387-399 | fromLocalTime after toLocalTime is the lookup by local seconds that the lemmas above decide, under either setting |
| `TzReader.LoadZoneFile` | base/TimeZone.cc:352-360 | There is a zone if and only if the file can be opened and is readable in the sense of the format functions, and then it is what they say |
| `TzReader.ReadTimeZoneFile` | base/TimeZone.cc:207-246 | Succeeds exactly on the readable files, with the data of the second block for version 2 and of the first otherwise |
| `TzReader.ReadDataBlock` | base/TimeZone.cc:147-205 | Succeeds exactly if the counts are acceptable, the block is complete and every index names a type, and then fills in the data of the block |
| `TzReader.ReadTimes` | base/TimeZone.cc:164-172 | Reads the times of 4 or 8 bytes, or fails exactly if they are not all there |
| `TzReader.ReadIndices` | base/TimeZone.cc:174-179 | Reads the one-byte indices, or fails exactly if they are not all there |
| `TzReader.ReadTypes` | base/TimeZone.cc:181-188 | Reads the types of 6 bytes, or fails exactly if they are not all there |
| `TzReader.AddTransitions` | base/TimeZone.cc:190-193 | Fails exactly if an index is out of range |
| `TzReader.File.ReadToEnd` | base/TimeZone.cc:98-107 | Everything that is left, read in pieces |
| `TzReader.File.ReadUint8` | base/TimeZone.cc:129-137 | The byte as be64toh and the cut to 8 bits leave it |
| `TzReader.File.Skip` | base/TimeZone.cc:139-141 | Moves the position, also past the end; before the start it fails and moves nothing |
| `TzReader.Data.AddTransition` | base/TimeZone.cc:41-45 | Adds a transition with the offset of its type, or fails on an index out of range |
| `TzFile.DecodedZone` | base/TimeZone.cc:41-45 | On success every transition has an index in range and the local time of its type; a zone with a type can be looked up in |
| `TzFile.FirstBlockSkipped` | base/TimeZone.cc:225-235 | For version 2 the skip is exactly the first block: the result is that of what follows, whatever the block holds |
| `TzFile.WholeIntegers` | base/TimeZone.cc:109-127 | The 4- and 8-byte integers read are the big-endian ones of the file, on both kinds of host |
| `TzFile.OctetIs` | base/TimeZone.cc:129-137 | be64toh on one byte: the byte on a big-endian host, zero on a little-endian one |
| `TzFile.HostsAgree` | base/TimeZone.cc:147-205 | The two kinds of host read the same data from a block if and only if all its one-byte fields are zero |
| `TzFile.LittleEndianOneOffset` | base/TimeZone.cc:129-137 | On a little-endian host every zone read from a file has one offset at all times, that of its first type |
| `TzEncoding.FileRoundTrip` | base/TimeZone.cc:207-246 | A version-2 file written by the format reads back as the zone of its second block, its abbreviations and its footer, for any first block |
| `TzEncoding.SummerZoneFromFile` | base/TimeZone.cc:207-246 | The zone on which the local lookup fails is the zone of a file if and only if the host is big-endian |
| `TzEncoding.FirstVersionRoundTrip` | base/TimeZone.cc:236-239 | A file of any other version reads back as the zone of its first block, whatever follows |
| `TzEncoding.BlockRoundTrip` | base/TimeZone.cc:147-205 | A data block written by the format reads back |
| `TzEncoding.MeantIsRead` | base/TimeZone.cc:176-188 | The zone read back is the zone written if and only if the host is big-endian or every one-byte field is zero |
| `Monitor.FifoAndBounded` | base/BoundedBlockingQueue.h:18-50 | Over every interleaving: items taken, then queued, are those handed to the puts that came through, in order, and each take that came through has taken one; never more than the capacity |
| `Monitor.WaitersSleep` | base/BoundedBlockingQueue.h:18-50 | A put on a full queue and a take on an empty one go to sleep and change nothing else |
| `Monitor.SleepersAttended` | base/BoundedBlockingQueue.h:39-50 | While a consumer sleeps, queued items are no more than woken consumers; dually for producers and free slots |
| `Monitor.NotAllAsleep` | base/ThreadPool.cc:36-48 | With positive capacity no state has everybody asleep; after stop nobody sleeps |
| `Monitor.DeadlockIffNoCapacity` | base/BoundedBlockingQueue.h:15-16 | Everybody can be asleep in the bounded queue if and only if its capacity is zero |
| `Monitor.StoppedForGood` | base/ThreadPool.cc:56-96 | After stop, run adds nothing and take returns at once |
| `Monitor.StepKeeps` | base/ThreadPool.cc:56-90 | Every critical section, signal and spurious wake-up keeps the invariant of either monitor |

## Left out

- Socket, SocketOps, Acceptor, InetAddress and the real poll, epoll, timerfd and eventfd calls: system-call wrappers; their outcomes are parameters of the steps, the kernel's sets and counters are model state.
- Object lifetime: the destructor's assertion is modelled (`Release`), the use of a dead object is not: queued functors that hold a raw `this` (net/TcpConnection.cc:75, 92, 158, 226, 240) are taken to run on a live object. A functor lets go of its shared pointer when it has run, in the source when its whole batch has (net/EventLoop.cc:217-230); and the user keeps its own throughout or not at all.
- A server destroyed inside an event callback of one of several active connections, which meets the assertion of removeChannel on the active channels (net/EventLoop.cc:175-179): the destruction of the server is a step of its own here, outside any dispatch.
- Public calls from other threads are atomic at the check of `state_` (net/TcpConnection.cc:154-156, 173-175); data races on plain fields are not modelled.
- Several loops: `setThreadNum` has an empty body (net/EventLoopThreadPool.h:22), so every connection is on the server's loop. A connection's functors are one queue per connection, in order; functors of different connections interleave freely.
- Connection names: the number that makes the name stands for it.
- TcpConnectionObject.TcpConnection.HandleClose: in this class the close callback is only the clearing of the entry's mark and the queued destruction, because a connection does not know its server here; `TcpServer.TcpServer.HandleClose` binds it to the server's table.
- TcpServer.TcpServer.RemoveConnectionInLoop: the events of a connection are dispatched to the connection, not through the server, so the class erases an entry only through `TcpServer.TcpServer.HandleClose`; the server's steps over values cover every event.
- The poller behind a channel is not part of the connection's objects: a channel records the calls it makes, and ChannelCalls hands the record to the pollers.
- Reports of the poller for a live connection are not filtered by its interest, since they may be older than it; for a closed one they are.
- EventLoop, BoundedBlockingQueue and ThreadPool are step systems of interleaved threads rather than classes: their properties are about interleavings, and one critical section or one call is one step.
- The weak callback of `forceCloseWithDelay` is only its change of state; the later force-close is another step of a run.
- The timeout and order in which poll reports channels, the time a flush takes, and `AsyncLogging::stop` with the last flush.
- Buffer indices, sequence numbers and log sizes are unbounded; the store of a Buffer is a sequence, so aliasing with the caller's bytes is not modelled. `findCRLF`, `findEOL` and `readFd` are left out; readFd and the input buffer appear as the outcome of a read.
- Intervals are whole microseconds and a timer repeats when its interval is positive; an interval below a microsecond, which repeats with step zero (base/Timestamp.h:78-83), is not expressible.
- The heap of Timer objects is a map from addresses; a callback runs as the sequence of adds and cancels it makes.
- A channel's interest is two bits: reading stands for IN and PRI together, as the source's mask sets them together.
- `handleError` and the POLLERR and POLLNVAL callbacks: they only log.
- Seconds and offsets are unbounded integers; the 64-bit sums in `addTransition` and `toLocalTime` are not checked for overflow. `TimeFits` and `DayFits` do state the 32-bit range.
- The products 6 * typecnt and 8 * leapcnt are unbounded (base/TimeZone.cc:227), where 32 bits would overflow, a negative character count, undefined in the source, is a failed read, and running out of memory in reserve is not modelled.
- `FindByLocal`: an empty zone, whose `front()` is undefined in the source, is excluded by `Usable`; `DecodedZone` says that a readable file gives one only if it has no type at all.
- Number formatting, Logging, LogFile, FileUtil, ProcessInfo, CountDownLatch, EventLoopThread, Singleton, ThreadLocal, WeakCallback: text, files or small wrappers that would add only easy members.
