# Polly, verified protocols

Polly is a small reactor-style network library. Its parts are short, but each rests on an
invariant the code does not write down. This project models those parts in Dafny and proves
their invariants over all runs: all interleavings of threads, all answers of the kernel, all
readings of the clock, and all callbacks that re-enter the code that called them.

Each module has a value model (a datatype, one function per operation, runs as lists of
operations), the theorems about its runs, and a class in the form of the source whose methods are
proved to do what the model's functions say.

| file | source | models |
|---|---|---|
| `Buffer.dfy` | util/buffer.h, util/buffer.cc | the byte queue with prepend space, compaction, growth and scatter reads |
| `TcpConnection.dfy` | net/tcp_connection.cc | sending, draining and half-closing, with write-complete callbacks that re-enter |
| `EventLoop.dfy` | net/eventloop.cc, net/eventloop.h | the cross-thread task queue and its eventfd wake-up |
| `AsyncLogging.dfy` | log/async_logging.cc | appenders and worker exchanging buffers under a mutex |
| `LogFile.dfy` | log/log_file.cc, log/file.cc | rolling by size and by day over a partial-write loop |
| `TimerQueue.dfy` | net/timer_queue.cc, util/timer.h | the timer multimap and its one-shot alarm |
| `Poller.dfy` | net/poller.cc | poll entries, the channel map and the channels' indices |
| `TcpServer.dfy` | net/tcp_server.cc, net/tcp_connection.cc, net/poller.cc | names and lives of connections, and their channels in the poller |
| `Bytes.dfy` | | shared vocabulary |

How the environment appears: `write`, `fwrite`, `readv`, `poll`, the eventfd, the timerfd and the
clock are parameters that may take any value within their own bounds; a callback is an arbitrary
finite tree of the calls it makes. Data that flows past the model (bytes on a socket, tasks run,
slices accepted) is kept in history fields.

Six results say that the code does less, or other, than one might expect. Each has an input that
shows it and, where the property holds some of the time, the exact condition for it:

- Removing a poll entry that is not the last one leaves every later channel with an index that is
  too high. `Pollers.IndexIsOffByRemovals` says by how much over every run, and so which updates
  trip an assert; `Pollers.StaleIndexExample` is an input.
- A server therefore stops at an assert when an older connection ends before a newer one, or when
  its destructor finds two live connections with numbers of the same length.
  `TcpServers.TwoConnectionsAbort` gives both inputs, `TcpServers.LivesAreSound` and
  `TcpServers.DestructorEndsAll` the conditions. `EnableWriting` and `DisableWriting` in
  `TcpConnection.dfy` are updates of the same poller: the results there are for runs in which
  these pass, which is the condition of `TcpServers.PassesWhenClean`.
- `StopWorker` does not drain. `AsyncLoggings.StopLosesWhatCameAfterTheLastSwap` says what is in
  the file and when that is the whole log, `AsyncLoggings.LosingRun` is an input.
- A quit strands the tasks that are still queued when loop() is left:
  `EventLoops.LeavingStrandsTheQueue`, with `EventLoops.StrandedTask` as an input.
  `EventLoops.QueueIsServedExactlyWhen` says for which states every continuation runs what is
  queued, whoever quits and when: those between the test of the flag and the swap.
- A `Shutdown` from another thread can overtake the `Send` before it, whose message is then lost:
  the state changes at once and the message waits for its task. `TcpConnections.QueuedSendIsLost`
  is an input, `TcpConnections.QueuedSendIsLostWhen` the condition where nothing new is sent
  meanwhile, and `TcpConnections.MessagesArriveInOrder` the one for all runs.
- The timer alarm is set after every round even when no timer is left, because
  `Timestamp::valid` is always true: `TimerQueues.RoundAlwaysSetsTheAlarm`, with
  `TimerQueues.EmptyTableIsArmed` as an input. The comment at
  net/timer_queue.h:57 says that a second timer for the same time is refused, but the table is a
  multimap and keeps both: `TimerQueues.EqualTimesBothFire`.

The storage of a buffer is bounded more tightly than doubling suggests: `Buffers.CapacityBound`
proves max(8 + initial, 8 + peak, 2 * peak + 6), and `Buffers.CeilingIsReached` that this is
attained for every peak from two on.

## Model

| member | source | states |
|---|---|---|
| `Buffers.MakeSpace` | util/buffer.h:126-139 | room for the request is made and no readable byte is gained or lost; the storage grows if and only if it could not hold the bytes behind the prepend mark, by exactly what is needed and without moving them; otherwise they move to the mark, from beyond it, which is the source's assert before compacting |
| `Buffers.ReadCapacity` | util/buffer.cc:17-27 | a read is offered all the free space and at least 65536 bytes; below 65536 free bytes the overflow area comes on top, which makes at most 131071 |
| `Buffers.One` | util/buffer.h:83-113 | every operation changes the number of readable bytes by exactly its length, and an empty buffer has its indices at the prepend mark |
| `Buffers.OneKeeps` | util/buffer.h:83-113 | no operation shrinks the storage, and growth stays under the ceiling of the bytes then held |
| `Buffers.CapacityBound` | util/buffer.h:98-139 | over every legal run on any number of buffers, each storage, followed through swaps, never shrinks, and every buffer stays under the ceiling of the largest content ever held, itself at most max(8 + initial, 2 * peak + 7) |
| `Buffers.CeilingIsReached` | util/buffer.h:126-139 | for every peak of two or more some run ends with exactly the ceiling |
| `Buffers.Buffer.constructor` | util/buffer.h:60-66 | an empty buffer of the requested size |
| `Buffers.Buffer.Swap` | util/buffer.h:72-76 | the two buffers exchange contents and shapes, also when they are the same buffer |
| `Buffers.Buffer.Retrieve` | util/buffer.h:83-90 | drops exactly the first bytes |
| `Buffers.Buffer.Compact` | util/buffer.h:130-138 | the overlapping move preserves the contents |
| `Buffers.Buffer.MakeRoom` | util/buffer.h:126-139 | growing and compacting preserve the contents and reach the stated shape |
| `Buffers.Buffer.Append` | util/buffer.h:98-105 | contents become old contents followed by the new bytes |
| `Buffers.Buffer.Prepend` | util/buffer.h:108-113 | contents become the new bytes followed by old contents |
| `Buffers.Buffer.ReadFd` | util/buffer.cc:13-40 | the scatter read has the effect of appending the bytes received; it returns 0 if and only if nothing has arrived or the kernel gives nothing, and takes up to 65536 bytes whatever room is left; an error changes nothing |
| `TcpConnections.StepKeeps` | net/tcp_connection.cc:107-185 | every operation keeps the stream invariant and does not forget a requested half-close |
| `TcpConnections.StreamIsKept` | net/tcp_connection.cc:107-185 | over every run: socket bytes followed by the send buffer are the messages not dropped, in order; write interest is on exactly while bytes are buffered; every SHUT_WR found the buffer empty and all those bytes sent; a requested half-close has happened, or write interest is on, or its task is queued |
| `TcpConnections.StreamIsKeptFromStart` | net/tcp_connection.cc:14-27 | the same for every run of a new connection, through its establishment |
| `TcpConnections.CallbacksSeeTheStreamKept` | net/tcp_connection.cc:118-121 | the stream invariant also holds at every callback point inside every operation of every run |
| `TcpConnections.NothingAfterShut` | net/tcp_connection.cc:151-157 | once the write side is shut no byte follows in any continuation |
| `TcpConnections.MessagesArriveInOrder` | net/tcp_connection.cc:107-140 | in every run, callbacks and write events included, socket and buffer hold exactly the messages handed over that were not refused, in order; nothing is dropped if and only if none was refused, so all of them without hard write errors and before the half-close |
| `TcpConnections.ExecFollows` | net/tcp_connection.cc:118-121 | for callbacks nested to any depth, what a callback sends comes after the message it completes and before the next one of its caller |
| `TcpConnections.SendCompletesWhenFlushed` | net/tcp_connection.cc:112-122 | after a send of any message, the empty one included, the write-complete callback runs if and only if nothing was queued before it and the direct write took it all; it finds everything kept so far on the socket |
| `TcpConnections.DrainCompletesWhenFlushed` | net/tcp_connection.cc:161-172 | after a write event it runs if and only if that event emptied the buffer |
| `TcpConnections.DrainsThenShuts` | net/tcp_connection.cc:159-185 | with the half-close requested, bytes buffered and no new sends, whatever else the loop runs, exactly the offered number of bytes leave, in order, and the write side is shut if and only if they were all of them |
| `TcpConnections.IdleShuts` | net/tcp_connection.cc:143-157 | with nothing buffered and the shutdown queued by another thread, the write side is shut if and only if the loop gets to the queue |
| `TcpConnections.ShutdownAloneHappens` | net/tcp_connection.cc:143-185 | with no send queued, exactly which continuations without new sends complete a requested half-close, whether bytes are buffered, its task is queued or it is done |
| `TcpConnections.RequestedShutdownHappens` | net/tcp_connection.cc:98-185 | in every state in which a half-close is requested, sends queued by other threads included, exactly which continuations without new sends complete it, by a count of bytes |
| `TcpConnections.ShutsAfterTheQueue` | net/tcp_connection.cc:98-185 | once the queue has run, as many productive write events as bytes were buffered or queued are enough for SHUT_WR |
| `TcpConnections.QueuedSendIsLostWhen` | net/tcp_connection.cc:107-176 | a queued message is refused if and only if that count has completed before its task runs, or its own direct write fails |
| `TcpConnections.QueuedSendIsLost` | net/tcp_connection.cc:98-176 | a concrete run in which a message sent before the shutdown, by the same thread, is lost |
| `TcpConnections.ShutsAfterEnoughWriteEvents` | net/tcp_connection.cc:159-176 | as many productive write events as there are buffered bytes are enough for SHUT_WR |
| `TcpConnections.StateIsWhatWasAsked` | net/tcp_connection.cc:70-75 | over every run a connection is half-closing if and only if a shutdown was asked for after it was established, by whichever thread and at whatever depth of callbacks, and otherwise connected if and only if it was established |
| `TcpConnections.NothingIsShutUnasked` | net/tcp_connection.cc:143-157 | before a shutdown is asked for nothing is shut and no shutdown is queued |
| `TcpConnections.ShutdownHappens` | net/tcp_connection.cc:143-157 | a shutdown on the loop thread of a connected connection issues SHUT_WR at once if and only if nothing is buffered, and otherwise exactly when the byte count completes |
| `TcpConnections.RemoteShutdownHappens` | net/tcp_connection.cc:143-157 | a shutdown by another thread changes the state at once, puts its task behind those queued, and then the same |
| `TcpConnections.TasksAreFifo` | net/tcp_connection.cc:98-148 | over every run the tasks run and those still queued are the ones queued by other threads, in order |
| `TcpConnections.TcpConnection.ConnectEstablished` | net/tcp_connection.cc:70-75 | a new connection becomes connected and its callback runs |
| `TcpConnections.TcpConnection.SendInLoopNow` | net/tcp_connection.cc:107-140 | the method on a real buffer does what the model does, callbacks included |
| `TcpConnections.TcpConnection.ShutdownNow` | net/tcp_connection.cc:143-148 | likewise for a request on the loop thread |
| `TcpConnections.TcpConnection.ShutdownInLoopNow` | net/tcp_connection.cc:151-157 | likewise; the half-close waits while write interest is on |
| `TcpConnections.TcpConnection.HandleWriteNow` | net/tcp_connection.cc:159-185 | likewise for a write event, with the half-close continued after the callback |
| `TcpConnections.TcpConnection.RunTaskNow` | net/tcp_connection.cc:98-104 | likewise for a send or shutdown queued by another thread |
| `EventLoops.InvHolds` | net/eventloop.cc:56-148 | the wake-up invariant holds in every interleaving |
| `EventLoops.NoLostWakeup` | net/eventloop.cc:56-107 | inside poll(2) with a task queued, or a quit requested since loop() was entered, the eventfd is readable or a caller has still to write it; at most one poll begins after a quit |
| `EventLoops.TasksRunInOrder` | net/eventloop.cc:126-148 | tasks run, then the rest of the batch, then the queue are all pushes in lock order; each thread's tasks run in its order |
| `EventLoops.PushedIsSubmitted` | net/eventloop.cc:130-134 | the pushes recorded are exactly those submitted |
| `EventLoops.QuitIsSeen` | net/eventloop.h:50-54 | in every interleaving the flag is set if and only if a quit, from another thread or on the loop thread, was made since loop() was last entered |
| `EventLoops.LoopThreadMayQuit` | net/eventloop.h:50-54 | quit() called by a handler or a task sets the flag and makes the eventfd readable |
| `EventLoops.TaskQuitLeaves` | net/eventloop.h:50-54 | a task that calls quit() has set the flag, and once the rest of its batch has run the loop leaves |
| `EventLoops.CallersAreThoseWhoOwe` | net/eventloop.cc:126-137 | in every interleaving the callers still to write the eventfd are those whose last call has not done so |
| `EventLoops.EventfdCountsWrites` | net/eventloop.cc:92-107 | in every interleaving the eventfd holds the number of writes since it was last read, up to its limit |
| `EventLoops.PollWaitsForAWrite` | net/eventloop.cc:65-66 | with nothing else ready poll(2) returns if and only if the eventfd was written since it was last read |
| `EventLoops.ReportedIsRead` | net/eventloop.cc:72-75 | the loop is about to read the eventfd if and only if poll(2) reported it and it has not been read since |
| `EventLoops.QuitLeavesTheLoop` | net/eventloop.h:50-54 | after a quit every step of the loop thread brings it closer to leaving loop(); it takes at most seven plus one for each task queued or pushed meanwhile |
| `EventLoops.RequestsGetThrough` | net/eventloop.cc:56-148 | from every reachable state, by steps of the loop thread and eventfd writes already owed only, with poll(2) returning only for a readable eventfd: after a quit some bounded continuation leaves loop(), and unless loop() is being left some bounded continuation runs every task pushed, in order |
| `EventLoops.QueueIsServedExactlyWhen` | net/eventloop.cc:62-81 | in every reachable state, all continuations that leave loop() or give the loop enough steps, with any quits in them, have run every task pushed so far, if and only if no task is queued or the loop is past its test of the flag and before the swap |
| `EventLoops.QuitStrands` | net/eventloop.cc:62-81 | from every other state another thread's quit leads out of loop() with the queue intact and only the batch run |
| `EventLoops.LeavingStrandsTheQueue` | net/eventloop.cc:62-81 | while loop() is being left, and afterwards until it is entered again, the queued tasks stay queued whatever anyone does |
| `EventLoops.StrandedTask` | net/eventloop.cc:62-81 | a task pushed between a quit and the test of the flag is not run |
| `EventLoops.EventLoop.PushFunctor` | net/eventloop.cc:130-134 | the locked push |
| `EventLoops.EventLoop.Wakeup` | net/eventloop.cc:92-98 | the eventfd is readable afterwards, also when its counter was full |
| `EventLoops.EventLoop.Quit` | net/eventloop.h:50-54 | the flag is set before the wake-up is due |
| `EventLoops.EventLoop.DoPendingFunctors` | net/eventloop.cc:139-148 | exactly the tasks queued at the swap run, in order, while other threads push, quit and wake between them |
| `EventLoops.EventLoop.HandleRead` | net/eventloop.cc:101-107 | reading the eventfd empties it |
| `EventLoops.EventLoop.Loop` | net/eventloop.cc:56-82 | any number of passes of loop(), with other threads acting at every point and handlers and tasks that quit, is exactly the stated interleaving; it ends outside only after a quit, and goes on after no pass in which a handler quits |
| `AsyncLoggings.InvHolds` | log/async_logging.cc:15-77 | in every interleaving, written buffers, the worker's unwritten ones, the filled ones and the current one are the accepted slices in lock order |
| `AsyncLoggings.FitsExactly` | log/async_logging.cc:19-31 | in every reachable state an append trips its assert if and only if the slice is longer than 4096 bytes |
| `AsyncLoggings.SurvivingRunsAcceptAll` | log/async_logging.cc:15-32 | no append of a run trips its assert if and only if none is longer than a buffer, and then every slice appended is accepted, in lock order |
| `AsyncLoggings.AcceptedIsOffered` | log/async_logging.cc:15-32 | the accepted slices are exactly those offered that are no longer than a buffer |
| `AsyncLoggings.OutputIsAPrefix` | log/async_logging.cc:43-77 | the worker's output is always a prefix of the log |
| `AsyncLoggings.StopLosesWhatCameAfterTheLastSwap` | log/async_logging.cc:43-105 | when the worker has stopped the output is exactly the slices accepted before its last swap, so it is the whole log if and only if none was accepted after it |
| `AsyncLoggings.LosingRun` | log/async_logging.cc:101-105 | a slice appended and the worker stopped before it looks: the slice is lost |
| `AsyncLoggings.BuffersAreRecycled` | log/async_logging.cc:44-76 | the loop-top asserts hold, at least two buffers can be recycled, 3 + max(1, overflows) buffers exist at the loop top, and the spare is gone exactly when a buffer is full |
| `AsyncLoggings.BuffersAreFilled` | log/async_logging.cc:18-31 | in every interleaving no filled buffer had room for the slice that went into the next one |
| `AsyncLoggings.WorkerStopsWhenAsked` | log/async_logging.cc:43-105 | in every interleaving the flag is set if and only if a stop was asked for, and the worker is gone if and only if it tested its condition after that |
| `AsyncLoggings.FilesHoldAPrefix` | log/async_logging.cc:63-65 | the log files in order hold a prefix of the log's bytes, down to the disk writes |
| `AsyncLoggings.AsyncLogging.AppendSlice` | log/async_logging.cc:15-32 | the locked append, and when its assert holds |
| `AsyncLoggings.AsyncLogging.TakeBuffers` | log/async_logging.cc:47-62 | the swap under the lock and the pushes after it |
| `AsyncLoggings.AsyncLogging.WriteAll` | log/async_logging.cc:63-65 | every taken buffer is handed on, in order, while other threads append |
| `AsyncLoggings.AsyncLogging.RecycleBuffers` | log/async_logging.cc:67-76 | two emptied buffers are kept |
| `AsyncLoggings.AsyncLogging.Pass` | log/async_logging.cc:43-77 | one pass, with appends at every point of it, writes everything accepted before it and nothing but accepted slices |
| `AsyncLoggings.AsyncLogging.StopWorker` | log/async_logging.cc:101-105 | the flag the worker tests is set |
| `AsyncLoggings.AsyncLogging.Worker` | log/async_logging.cc:34-78 | the worker over any number of turns is exactly the stated interleaving; it stops if and only if it saw the flag, and goes on after no turn in which it was stopped |
| `LogFiles.CutShortWhen` | log/file.cc:15-35 | a slice is cut short if and only if an fwrite after the first answers zero before the whole slice is out |
| `LogFiles.CutShortAt` | log/file.cc:15-35 | what gets out of such a slice is the sum of the answers before that zero |
| `LogFiles.StreamIsKept` | log/log_file.cc:21-45 | the files in order serve the slices in order, each in one file; the bytes of each file are exactly the parts that were written of its own slices |
| `LogFiles.FilesHoldWholeSlices` | log/log_file.cc:21-45 | when no write gives up, every file is the concatenation of its slices |
| `LogFiles.FilesStaySmall` | log/log_file.cc:25-27 | every file holds at most the rolling size plus one slice |
| `LogFiles.RollsOnlyWhenFull` | log/log_file.cc:25-38 | within one day every file closed had outgrown the rolling size |
| `LogFiles.FilesArePlain` | log/log_file.cc:15-56 | over every run from the opening the files are those of a log that keeps nothing but its files and a count: rolled after more than 104857600 bytes, or at every 1024th other append on another day than the file was opened on, else flushed there after more than five seconds; the cached period, times and counters are what the files say |
| `LogFiles.FilesAreClosedRightly` | log/log_file.cc:25-38 | over every run each file was closed because it had outgrown the rolling size or at a check on another day than it was opened on, and the next one opened then |
| `LogFiles.DayChangeIsNoticed` | log/log_file.cc:28-43 | with a clock that never goes back, at most 1024 slices land in a file after the day it was opened on is over |
| `LogFiles.OpenedLogIsSound` | log/log_file.cc:15-17 | all of it from the moment the log is opened |
| `LogFiles.AppendFile.Append` | log/file.cc:15-35 | the partial-write loop stores exactly the prefix it got out and counts the whole slice |
| `LogFiles.LogFile.AppendSlice` | log/log_file.cc:21-45 | the method does what the model does |
| `LogFiles.LogFile.RollToNew` | log/log_file.cc:47-56 | a new empty file for the current day |
| `TimerQueues.AlarmTarget` | net/timer_queue.cc:31-43 | the timespec is well formed, not zero, and asks for max(due, now + 100 microseconds) |
| `TimerQueues.SplitsAtNow` | net/timer_queue.cc:88-96 | in a sorted table the lower bound separates exactly the timers due strictly before now |
| `TimerQueues.TimersAreConserved` | net/timer_queue.cc:75-132 | over every run a repeating timer is in the table exactly once, a one-shot is there unfired or has fired once and is gone, and every key is its timer's expiration |
| `TimerQueues.RoundFiresTheDue` | net/timer_queue.cc:75-96 | each round of every run fires exactly the timers due before now, by expiration and then insertion |
| `TimerQueues.RoundLeaves` | net/timer_queue.cc:123-132 | after a round the table holds the timers not due, those added by callbacks, and the due repeating ones one period after now, and nothing else |
| `TimerQueues.RenewedKeepTheirOrder` | net/timer_queue.cc:123-132 | in every run repeating timers of the same period that fire in the same round stand in the table afterwards in the order they fired |
| `TimerQueues.RateIsBounded` | util/timer.h:29-35 | for every clock behaviour, a firing preceded by k firings of the same timer comes strictly later than its first due time plus k periods |
| `TimerQueues.AlarmIsSet` | net/timer_queue.cc:104-140 | between operations of every run a waiting timer means the alarm has gone off or is set for the earliest expiration, at least 100 microseconds after it was set |
| `TimerQueues.AddSetsTheAlarmWhen` | net/timer_queue.cc:107-120 | in every run adding a timer sets the alarm, for that timer, if and only if it is due before every other; otherwise the alarm is left alone |
| `TimerQueues.RoundAlwaysSetsTheAlarm` | net/timer_queue.cc:133-139 | after every round of every run the alarm is armed; with an empty table it goes off 100 microseconds later, or at time zero if that is later |
| `TimerQueues.EmptyTableIsArmed` | net/timer_queue.cc:123-139 | one timer added, its alarm gone off and its round done: the table is empty and the alarm is set |
| `TimerQueues.EqualTimesBothFire` | net/timer_queue.cc:104-121 | at any point of any run two timers added for the same time are both kept and both fire, in the order they were added |
| `TimerQueues.TimerQueue.AddTimerInLoop` | net/timer_queue.cc:104-121 | the method does what the model does |
| `TimerQueues.TimerQueue.GetExpired` | net/timer_queue.cc:88-96 | the table is cut at the lower bound and nothing is lost |
| `TimerQueues.TimerQueue.Reset` | net/timer_queue.cc:123-140 | repeating timers go back and the alarm is set |
| `TimerQueues.TimerQueue.HandleReadNow` | net/timer_queue.cc:75-86 | the method does what the model does, with timers added during firing |
| `Pollers.UpdateKeeps` | net/poller.cc:54-87 | every update that passes its asserts keeps descriptors distinct, equal to the map's keys, and no entry above its channel's index |
| `Pollers.InterestIsRecorded` | net/poller.cc:57-86 | an update leaves the channel's entry with the interest asked for and no stale events, or removes it, and touches no other entry |
| `Pollers.PassesWhenIndexed` | net/poller.cc:69-76 | a registered channel passes the asserts if and only if its index is right |
| `Pollers.RemovalKeepsAgreement` | net/poller.cc:82-85 | a removal keeps the indices right if and only if the entry was last; otherwise each later entry sits exactly one below its index |
| `Pollers.LaterChannelsAbort` | net/poller.cc:72-85 | after a removal that was not last, the next update of exactly the later channels trips an assert |
| `Pollers.StaleIndexExample` | net/poller.cc:82-85 | a concrete run in which that happens |
| `Pollers.AgreementOverRuns` | net/poller.cc:54-87 | over every run that passes its asserts the indices agree at the end if and only if they did at the start and every removal took the last entry |
| `Pollers.AgreementFromStart` | net/poller.cc:54-87 | the same from an empty registry |
| `Pollers.IndexIsOffByRemovals` | net/poller.cc:54-87 | over every run from an empty registry an entry's index exceeds its position by the number of entries removed below it since it was registered; its channel's next update passes if and only if there were none |
| `Pollers.Poller.UpdateChannel` | net/poller.cc:54-87 | the method does what the model does for new and known channels, and says when an assert fires |
| `Pollers.Poller.FillActiveChannels` | net/poller.cc:35-51 | the lookups succeed and the first numEvents ready entries are returned as channels in vector order, so all of them for the true count |
| `TcpServers.NamesAreDistinct` | net/tcp_server.cc:39-40 | different connections of a server have different names |
| `TcpServers.PassesWhenClean` | net/poller.cc:57-76 | in every reachable state the poller's asserts pass for a connection if and only if neither it nor one accepted before it has ended since it was accepted |
| `TcpServers.ScriptAbortsWhen` | net/tcp_connection.cc:131-139 | a user callback trips an assert if and only if it changes the interest of a connection that is not clean |
| `TcpServers.CloseErasesOne` | net/tcp_connection.cc:51-63 | a close passes its asserts if and only if the connection is clean in that sense and its callback changes only older clean ones; a clean one leaves exactly one map entry erased and is over |
| `TcpServers.LivesAreSound` | net/tcp_server.cc:34-66 | over every run an assert fires if and only if some update was not clean; every connection is alive with one user callback, or over, deregistered exactly once, with exactly two; without an abort the map and the poller hold exactly the live ones |
| `TcpServers.CallbacksAreHeeded` | net/tcp_connection.cc:35-95 | over every run without an abort the changes of interest asked of the poller are those of the connection, message and destroy callbacks and of the loop's own operations, in order; each live connection's poll entry has the last of them; and a live connection is half-closing if and only if one of those acts shut it down |
| `TcpServers.ConnectionsAreThoseAccepted` | net/tcp_server.cc:34-47 | over every run there is one connection for each descriptor accepted, in order |
| `TcpServers.StatesMoveForward` | net/tcp_connection.cc:51-95 | from any point of a run to any later one, states only move forward and descriptors stay |
| `TcpServers.OlderFirstAborts` | net/tcp_connection.cc:51-63 | at any point of any run, closing an older connection and then a newer one trips an assert |
| `TcpServers.SweepPassesWhen` | net/tcp_server.cc:23-29 | destroying live connections in any order passes if and only if each is clean, the newest goes first, and each callback changes only clean connections older than its own; exactly those connections end |
| `TcpServers.MapOrderSorts` | net/tcp_server.h:53 | the destructor visits the map in the order of the names |
| `TcpServers.DestructorEndsAll` | net/tcp_server.cc:19-30 | at any point of any run the destructor passes if and only if every live connection is clean, larger numbers have smaller decimals, and each callback changes only clean connections older than its own; then every connection ever accepted was deregistered once and told twice |
| `TcpServers.DestructorAborts` | net/tcp_server.cc:19-30 | it trips an assert whenever two live connections have numbers of the same length, whatever callbacks do |
| `TcpServers.TwoConnectionsAbort` | net/tcp_server.cc:19-62 | the failing inputs: two connections closed oldest first, and two connections still there at the destructor |
| `TcpServers.TwoConnectionsClose` | net/tcp_server.cc:52-62 | two connections closed newest first pass and leave the map empty |
| `TcpServers.TcpServer.UpdateChannel` | net/poller.cc:54-87 | an update of a connection's channel as in the model, or the run ends |
| `TcpServers.TcpServer.NewConnection` | net/tcp_server.cc:34-66 | the method does what the model does, registration included |
| `TcpServers.TcpServer.ConnectDestroyedNow` | net/tcp_connection.cc:81-95 | likewise; a closed connection is not deregistered again |
| `TcpServers.TcpServer.Close` | net/tcp_connection.cc:51-63 | likewise; it ends at the poller's assert where that fires |
| `TcpServers.TcpServer.HandleEventNow` | net/channel.cc:20-48 | likewise; an event closes at most once, and received bytes run the message callback |
| `TcpServers.TcpServer.DestroyAll` | net/tcp_server.cc:23-29 | likewise for the whole sweep, which stops where an assert fires |

## Left out

- Sockets, the acceptor, addresses and process information: thin wrappers over system calls.
- The logger front end, log streams, formatting and timestamps as text: they depend on snprintf and gmtime.
- Slices as a type and its comparison helpers: only easy facts.
- The event-loop thread: a quit before loop() starts is discarded, so there is nothing to prove.
- Object lifetime and lambdas that capture by reference: captured arguments are values here, and connections are live.
- C++ data races on plain fields: steps are sequentially consistent, and the test-and-set in `Shutdown` is one step.
- Sending after a connection was closed: `Send` does not look at the state; the send results are for runs up to the close. In the server model a later change of interest trips an assert.
- Several servers on one loop, and channels of others that leave the poller while a server runs: the poller's other channels are there from the start and stay.
- The poller as an object inside the server: `TcpServer` keeps the value that `Poller.UpdateChannel` is proved to compute.
- Widths of integers: connection numbers, times and sizes are unbounded; the eventfd counter is not.
- Intervals in floating point: a period is the whole number of microseconds left after truncation.
- The assert in `rollToNewFile` that a second has passed since the last roll: the results hold for runs in which it passes.
- Several log files sharing the static counter of `LogFile::Append`: the day result is for one.
- AsyncLoggings.AcceptedIsOffered: a slice longer than a buffer trips an assert that ends the program; here its append changes nothing and the run goes on, so a step list describes the program up to its first such append. `SurvivingRunsAcceptAll` says which lists have none.
- Flushing: a byte counts as written when fwrite takes it.
- Descriptors below zero in the poller: a registered descriptor is one the system returned.
- An unset user callback: a write-complete callback that is not set is the empty script; the connection callback is taken to be set.
- `FixedBuffer` as an array: a log buffer is uniquely owned, so it is the list of the slices in it, with its capacity.
