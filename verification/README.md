# A verified model of the reactor network library and its services

This project models the parts of the library whose correctness rests on how several steps fit together, and proves
what those steps keep. Each component is modelled twice: as a pure specification (a value for its whole state, a function
for each operation, a step relation where threads or the kernel interleave), and as a class whose fields and loops follow the
source. The methods of the classes are proved equal to the specification's functions; the lemmas speak of every
run of the specification. What the kernel or another thread may do is a parameter or a step, so the
results hold for every choice. What a component records about itself, such as the bytes sent or the tasks accepted, is tied
by a lemma to what was handed to it in the run and what the kernel answered.

- `Buffer.dfy`: the byte buffer (`BufferSpec`, `BufferCode`), over an array with compaction and growth in place.
- `Channel.dfy`: event masks, their registration with epoll, and the dispatch order.
- `TcpConnection.dfy`: partial writes, the output backlog, EPOLLOUT, the two flow-control callbacks, half-close.
- `ProxySession.dfy`, `ProxyTheorems.dfy`, `ProxyFaults.dfy`, `ProxyStuck.dfy`, `ProxyStreams.dfy`, `ProxyCode.dfy`: two connections, a session and the functor queue of one loop.
  A step is an epoll_wait, the handling of one event with any sequence of reads and writes, or one functor. Up is the backend, down the client.
- `TimerQueue.dfy`, `TimerDeadlines.dfy`: the ordered table, the index by id, the snapshot of a round, callbacks that add and cancel, the timerfd.
- `FunctorQueue.dfy`: pushes and wakeups of any threads against the loop's block, drain, swap and run.
- `TcpServer.dfy`: the table of connections keyed by reusable descriptors and the two-hop teardown over several loops.
- `Http.dfy`, `HttpRejection.dfy`, `HttpCode.dfy`: the incremental request parser and the codec that drives it, also after a rejection.
  `Decimal.dfy`: decimal text and `std::stoi`.
- `AsyncLogging.dfy`: the double-buffered logger. `LogStream.dfy`: the log line's buffer and integer formatting.
- `CommentRepository.dfy`, `CommentOvertaking.dfy`, `CommentHistory.dfy`: the comment ring, its write-behind table, recovery, and pushes that overtake each other.
- `Connector.dfy`: the retry machine and the hand-over of its socket to TcpClient.
- `ThreadPool.dfy`: the task queue with its condition variable.
- `Blacklist.dfy`: the file printer and parser, and the verdicts. `BlacklistReload.dfy`: reloads beside adds.

Where the code does not do what a comment or an interface suggests, the model follows the code, and the exact condition is a lemma:

- Sending is announced as lossless (`src/net/TcpConnection.cpp:176`). A write that fails with an error other than EAGAIN on an empty
  backlog loses the bytes: `SendLosslessIff`, with the input in `FailedWriteLoses`. Over runs: `RunLosslessIff` for a connection,
  and the two stream results of `ProxyFaults`, whose condition is read off the run.
- `index_` 2 is commented as "not in the epoll set" (`src/net/EventLoop.cpp:160`), but the descriptor is still in it, so the ADD is refused:
  `EnableReachesKernelIff`, `SilentUntilRemoved`, `ReenabledButSilent`.
- A connection that was shut down locally is never removed by a later close event: `CloseTearsDownIff`, `ShutdownThenNeverRemoved`,
  `StuckIsReached`.
- A rejected request is answered and the write side is shut, but reading goes on, so what is delivered afterwards depends on how the stream
  was cut: `CutsAgreeIff`, `RefusedHeaderThenBlankLine`.
- A content length that is not a number fails, but leaves the parser in a state that its loop does not handle, and the next call
  never returns: `MessageLeavesGotAllIff`, `NextMessageDivergesIff`, `BadLengthNeverReturns`.
- A client that is paused when the backend closes stays paused if bytes for the backend are left over: `ReadAgainIff`, `StuckIsReached`.
- A push that writes its slot after a newer one hides the newer comment until a restart: `RestartRestores`, `OvertakenRun`.
- A retry timer that fires while the old channel still waits to be cleared loses a socket that it gets under way: `TimerNeedsReset`,
  `EarlyTimerLosesSocket`.
- Entries added to the blacklist are announced as surviving a reload (`app/repository/BlacklistManager.h:17`). A reload reads the file outside the
  lock, and an add that comes before its swap is lost: `InStepIff`, `RuleIsLost`. A reading while an add writes the file: `TornReadEmptiesMemory`.
  With no reload in flight an entry survives exactly when the file could be written and the entry is well formed: `NicknameSurvivesIff`.
  A rule read from a file may still end in a carriage return, and is then lost at the next write: `SyncedFileIff`.
- A pool without workers accepts tasks and never runs them: `StopFinishesEverythingIff`, `NobodyToRunIt`.

## Model

| member | source | states |
|---|---|---|
| `BufferSpec.RunIsQueue` | include/reactor/net/Buffer.h:42-100 | Over any sequence of appends, reads and retrieves the readable bytes are what was there followed by what was put in, less a prefix as long as what was taken out; compaction and growth lose, repeat and reorder nothing. |
| `BufferSpec.MakeSpace` | include/reactor/net/Buffer.h:89-100 | Both branches keep the readable bytes and leave room for the bytes asked for when there was too little. |
| `BufferSpec.EnsureWritable` | include/reactor/net/Buffer.h:83-87 | Afterwards the free tail is long enough and the readable bytes are the same. |
| `BufferSpec.ReadIntoDrained` | src/net/Buffer.cpp:8-37 | A buffer that is emptied between reads never grows beyond 131071 bytes, and one read yields at most that many. |
| `BufferSpec.ReadTakesAll` | src/net/Buffer.cpp:8-37 | One read leaves nothing behind of up to 65536 bytes, nor of what fits behind the contents, and otherwise takes a front part of what the kernel holds. |
| `BufferSpec.RetrieveAll` | include/reactor/net/Buffer.h:50-53 | Afterwards all of the storage can be written again. |
| `BufferSpec.FindCrlf` | include/reactor/net/Buffer.h:69-72 | The position is the first CR LF of the readable bytes, and none is reported exactly when there is none. |
| `BufferSpec.FindCrlfExtends` | include/reactor/net/Buffer.h:69-72 | Bytes that arrive later do not move the first line end. |
| `BufferCode.Buffer.constructor` | include/reactor/net/Buffer.h:15-19 | A fresh buffer of the given size, nothing readable. |
| `BufferCode.Buffer.Retrieve` | include/reactor/net/Buffer.h:42-48 | Drops a prefix of the readable bytes; everything, with both indexes back at the start, when asked for as much as is readable or more. |
| `BufferCode.Buffer.RetrieveAll` | include/reactor/net/Buffer.h:50-53 | Nothing is readable and both indexes are at the start. |
| `BufferCode.Buffer.RetrieveUntil` | src/net/Buffer.cpp:40-44 | Drops exactly the readable bytes before the given position. |
| `BufferCode.Buffer.MakeSpace` | include/reactor/net/Buffer.h:89-100 | The array is replaced by a larger one or the bytes are moved to its front, in place; the result is the specified one. |
| `BufferCode.Buffer.Append` | include/reactor/net/Buffer.h:56-60 | The readable bytes followed by the new ones, whatever the state of the storage. |
| `BufferCode.Buffer.ReadFd` | src/net/Buffer.cpp:8-37 | Takes as many of the kernel's bytes as the free tail and the 65536-byte spill buffer allow, in order, and returns their number; a failing readv changes nothing and returns -1. |
| `BufferCode.Buffer.FindCRLF` | include/reactor/net/Buffer.h:69-72 | The search loop finds the first CR LF. |
| `ChannelSpec.RunStaysConsistent` | src/net/EventLoop.cpp:151-190 | Through any sequence of mask changes and removals index_ and the kernel's registration agree: absent, watching the mask, or watching nothing. |
| `ChannelSpec.FlowControlStaysLive` | src/net/Channel.cpp:46-64 | Pausing and resuming reads and writes in any order never silences a live channel: the kernel always watches exactly the current mask. |
| `ChannelSpec.EnableReachesKernelIff` | src/net/EventLoop.cpp:159-165 | Asking for events reaches the kernel if and only if the channel is not in the state with an empty mask. |
| `ChannelSpec.SilentUntilRemoved` | src/net/EventLoop.cpp:159-173 | Once the mask was emptied the kernel watches nothing, whatever is asked for, until the channel is removed. |
| `ChannelSpec.ReenabledButSilent` | src/net/EventLoop.cpp:159-173 | A channel that read, was silenced and asks to read again: the kernel watches nothing. |
| `ChannelSpec.KernelWatches` | src/net/EventLoop.cpp:151-190 | Over any history of mask changes and removals the mask is what was last asked for, and the kernel watches exactly it, unless nothing was asked for since the last removal, or the mask became empty since and the channel went deaf; index_ tells the three apart. |
| `ChannelSpec.RemovedStartsAfresh` | src/net/EventLoop.cpp:182-190 | A removed channel has left the epoll set, and the next change of its mask registers it like a new one. |
| `ChannelSpec.DispatchInOrder` | src/net/Channel.cpp:14-44 | The callbacks that fire are called once each in the order close, error, input, output. |
| `ChannelSpec.DispatchReadsOrCloses` | src/net/Channel.cpp:14-44 | The read callback runs exactly on input, EPOLLPRI or EPOLLRDHUP, the close callback exactly on a hang-up without input, never both for events the kernel can report here, and the write callback comes last. |
| `ChannelCode.Poller.UpdateChannel` | src/net/EventLoop.cpp:151-180 | Does to the epoll set and to index_ what the specification says, and leaves every other descriptor alone. |
| `ChannelCode.Poller.RemoveChannel` | src/net/EventLoop.cpp:182-190 | Removes the descriptor from the epoll set unless it was never there, and leaves every other one alone. |
| `ChannelCode.Channel.EnableReading` | src/net/Channel.cpp:46-49 | Adds input and edge triggering to the mask and passes it to the kernel. |
| `ChannelCode.Channel.DisableReading` | src/net/Channel.cpp:51-54 | Takes input out of the mask, keeps edge triggering, and passes it on. |
| `ChannelCode.Channel.DisableAll` | src/net/Channel.cpp:66-69 | Empties the mask and passes it on. |
| `TcpConnectionSpec.SendConserves` | src/net/TcpConnection.cpp:196-263 | Every byte handed to a send is sent, waits in order behind the earlier ones, or is counted as dropped; nothing is duplicated. |
| `TcpConnectionSpec.SendTakes` | src/net/TcpConnection.cpp:205-250 | A send on an empty backlog sends exactly as many bytes from the front as the kernel reports and keeps the others; on a backlog it sends nothing. |
| `TcpConnectionSpec.WriteTakes` | src/net/TcpConnection.cpp:127-132 | A write event sends exactly as many bytes from the front of the backlog as the kernel reports. |
| `TcpConnectionSpec.RunIsWire` | src/net/TcpConnection.cpp:127-263 | Over any run of sends and write events the bytes sent and the backlog are those of a plain queue driven only by the bytes handed over and the answers of the kernel. |
| `TcpConnectionSpec.CompleteIsTheDraining` | src/net/TcpConnection.cpp:213-225 | A write-complete functor is queued exactly when the kernel has just taken everything there was. |
| `TcpConnectionSpec.DelayedHalfClose` | src/net/TcpConnection.cpp:150-152 | The write side is shut by the write that empties the backlog of a connection on its way out, and by no other write or send. |
| `TcpConnectionSpec.ShutdownOnce` | src/net/TcpConnection.cpp:51-63 | A shutdown counts once, on a connection that is up, and shuts the write side at once unless bytes wait. |
| `TcpConnectionSpec.CloseOnce` | src/net/TcpConnection.cpp:157-174 | A close event starts the teardown exactly from connecting and connected; a second one finds nothing to do. |
| `TcpConnectionSpec.DestroyedIsSilent` | src/net/TcpConnection.cpp:41-45 | A destroyed connection has a closed descriptor that the kernel does not watch, and every send to it is dropped. |
| `TcpConnectionSpec.SendLosslessIff` | src/net/TcpConnection.cpp:196-263 | A send loses nothing if and only if the connection is not destroyed and no write on an empty backlog fails with an error other than EAGAIN. |
| `TcpConnectionSpec.FailedWriteLoses` | src/net/TcpConnection.cpp:227-236 | One concrete send that loses its byte. |
| `TcpConnectionSpec.WriteConserves` | src/net/TcpConnection.cpp:127-155 | Whatever part of the backlog the kernel takes, sent bytes followed by the backlog stay the same stream. |
| `TcpConnectionSpec.HighWaterIsTheCrossing` | src/net/TcpConnection.cpp:236-262 | The high-water callback is called exactly when a send takes the backlog from below the mark to the mark or above. |
| `TcpConnectionSpec.SendKeepsArmed` | src/net/TcpConnection.cpp:235-249 | A watched connection stays watched, with EPOLLOUT armed exactly while bytes wait; reading is untouched. |
| `TcpConnectionSpec.WriteKeepsArmed` | src/net/TcpConnection.cpp:127-155 | The same for the write handler. |
| `TcpConnectionSpec.RunLosslessIff` | src/net/TcpConnection.cpp:127-263 | Over any run of sends and partial writes, what the kernel took followed by the backlog is everything offered, in order, if and only if no send of the run meets a destroyed connection or a failing write on an empty backlog. |
| `TcpConnectionSpec.RunKeepsArmed` | src/net/TcpConnection.cpp:127-263 | Through any such run a watched connection has EPOLLOUT armed exactly while it has a backlog, and reading is untouched. |
| `TcpConnectionCode.TcpConnection.constructor` | include/reactor/net/TcpConnection.h:84-107 | A new connection: connecting, unregistered channel, empty buffers, a mark of 64 MiB, no callbacks. |
| `TcpConnectionCode.TcpConnection.ConnectionEstablished` | src/net/TcpConnection.cpp:33-39 | Connected, and reading is registered. |
| `TcpConnectionCode.TcpConnection.ConnectionDestroyed` | src/net/TcpConnection.cpp:41-45 | Disconnected, the channel is removed and the descriptor is closed. |
| `TcpConnectionCode.TcpConnection.Shutdown` | src/net/TcpConnection.cpp:51-63 | From connected only: disconnecting, and the write side is shut at once unless bytes wait. |
| `TcpConnectionCode.TcpConnection.HandleClose` | src/net/TcpConnection.cpp:157-174 | Does nothing in the two states of a connection on its way out; otherwise silences the channel and asks for the two callbacks. |
| `TcpConnectionCode.TcpConnection.SendInLoop` | src/net/TcpConnection.cpp:196-263 | The whole new state, whether a write-complete functor is queued and whether the high-water callback runs, for every answer of the kernel. |
| `TcpConnectionCode.TcpConnection.HandleWrite` | src/net/TcpConnection.cpp:127-155 | The same for the write handler, with the delayed half-close. |
| `ProxyTheorems.NoStuckPause` | src/proxy/ProxySession.cpp:60-136 | In every reachable state with both sides open a pause flag equals "not reading", the kernel watches exactly the current masks, and a paused side has bytes waiting with EPOLLOUT armed on the other side, or a write-complete functor queued for it. |
| `ProxyFaults.UpstreamBytesPreservedIff` | src/proxy/ProxySession.cpp:208-224 | Over every run, the bytes read from the backend are the bytes the client's kernel took followed by the backlog, in order, if and only if no write to the client fails in the run; partial writes and EAGAIN never matter. |
| `ProxyFaults.DownstreamBytesPreservedIff` | src/proxy/ProxySession.cpp:187-205 | The same for the other direction, with the bytes held until the backend is connected, which are none once it is. |
| `ProxyFaults.HalfClosedMeansAllWritten` | src/proxy/ProxySession.cpp:161-172 | A client whose write side is shut has got every byte of the backend, if and only if no write to it failed in the run. |
| `ProxyFaults.RunDrops` | src/net/TcpConnection.cpp:207-236 | A run drops bytes in a direction exactly when one of its reads, or the flush of the held bytes, meets a failing write. |
| `ProxyStreams.UpstreamIsWire` | src/proxy/ProxySession.cpp:208-224 | Over every run the bytes the client's kernel took and the backlog are those of a plain queue driven by the bytes the backend's kernel gave and the answers of the client's kernel; nothing is lost if and only if no write to the client fails. |
| `ProxyStreams.DownstreamIsWire` | src/proxy/ProxySession.cpp:187-205 | The same for the other direction, with the bytes held for a backend that is not connected. |
| `ProxyStreams.BackendGoneIff` | src/net/TcpConnection.cpp:83-122 | An event of a connected backend makes it go, and asks for the client's shutdown and its own destruction, if and only if it is a hang-up without input or its reads reach the end of the stream before the client's backlog reaches the mark. |
| `ProxyStreams.TornDownIff` | src/proxy/ProxySession.cpp:226-250 | A step tears the session down if and only if it is an event of a client still connected that is a hang-up without input, or whose reads reach the end of the stream without a pause; then nothing of the session is left. |
| `ProxyStreams.HalfClosedIff` | src/proxy/ProxySession.cpp:161-172 | The client's write side is shut if and only if some event of the run ended the backend and the client's kernel has taken everything. |
| `ProxyStreams.BackendIsReleased` | src/net/TcpConnection.cpp:41-45 | Once some event ended the backend its destruction is queued until its descriptor is closed. |
| `ProxyStreams.TornIsInert` | src/proxy/ProxySession.cpp:67-224 | A session that was torn down throws away what still arrives, and none of its callbacks changes anything. |
| `ProxyStreams.TooLateToAdopt` | src/proxy/ProxySession.cpp:138-141 | A backend that connects after the teardown is not adopted and gets nothing. |
| `ProxyTheorems.BacklogBounded` | include/reactor/proxy/ProxySession.h:74 | The backlog toward the client never exceeds the mark less one plus 131071 bytes, is below the mark while the backend is read, and the backend's input buffer is at most 131071 bytes and empty between handlers. |
| `ProxyTheorems.HalfCloseAfterLastByte` | src/proxy/ProxySession.cpp:161-172 | The client's write side is shut exactly when the backend is gone and the backlog is empty. |
| `ProxyTheorems.ResumeOnlyWhenDrained` | src/net/TcpConnection.cpp:215-225 | A paused backend is resumed only by a queued functor that finds the client's backlog empty; stale functors resume nothing. |
| `ProxyTheorems.DownResumesOnlyWhenDrained` | src/net/TcpConnection.cpp:138-145 | The same for a paused client and the backlog toward the backend. |
| `ProxyTheorems.PauseCanBeLifted` | src/proxy/ProxySession.cpp:83-96 | From every reachable state about to poll there is a run that reads the backend again: the client's kernel takes the backlog and the functors run. |
| `ProxyTheorems.DownPauseCanBeLifted` | src/proxy/ProxySession.cpp:123-135 | The same for a paused client. |
| `ProxyStuck.StuckForever` | src/proxy/ProxySession.cpp:161-171 | Once the backend has closed with bytes for it left over, a client that is paused stays paused over every run, and the kernel is never asked for its input again. |
| `ProxyStuck.ReadAgainIff` | src/proxy/ProxySession.cpp:123-135 | After the backend closed, a paused client can be read again if and only if no bytes for the backend are left over. |
| `ProxyStuck.StuckIsReached` | src/proxy/ProxySession.cpp:108-121 | A run that gets there: the client sends a mark's worth of bytes, the backend accepts the connection but takes none, and hangs up. |
| `ProxyTheorems.RunKeeps` | src/proxy/ProxySession.cpp:60-224 | The invariant behind these results holds after every run: any reads, partial writes, failures, hang-ups, connects and functors in any order. |
| `ProxyCode.ProxySession.constructor` | src/proxy/ProxySession.cpp:51-56 | After Start on an established connection: flow control installed, nothing pending. |
| `ProxyCode.ProxySession.DownHighWater` | src/proxy/ProxySession.cpp:67-81 | Pauses the backend once, unless the session is torn down or has no backend. |
| `ProxyCode.ProxySession.UpHighWater` | src/proxy/ProxySession.cpp:108-121 | Pauses the client once. |
| `ProxyCode.ProxySession.DownWriteComplete` | src/proxy/ProxySession.cpp:84-96 | Resumes a paused backend. |
| `ProxyCode.ProxySession.UpWriteComplete` | src/proxy/ProxySession.cpp:124-135 | Resumes a paused client. |
| `ProxyCode.ProxySession.UpstreamConnected` | src/proxy/ProxySession.cpp:138-159 | Adopts the new connection, installs flow control and flushes what was held; a session that is torn down does none of it. |
| `ProxyCode.ProxySession.CloseUp` | src/proxy/ProxySession.cpp:161-171 | The backend is gone: the reference is dropped, the client is shut down gracefully and the destruction is queued; at most once. |
| `ProxyCode.ProxySession.CloseDown` | src/proxy/ProxySession.cpp:226-250 | The session's own state after Teardown. |
| `ProxyCode.ProxySession.OnDownstreamData` | src/proxy/ProxySession.cpp:187-205 | Forwards to the backend or holds the bytes, and empties the input buffer. |
| `ProxyCode.ProxySession.OnUpstreamData` | src/proxy/ProxySession.cpp:208-224 | Forwards to the client and empties the input buffer. |
| `ProxyCode.ProxySession.ReadUp` | src/net/TcpConnection.cpp:85-122 | The edge-triggered read loop: reads until nothing is left, the stream ends, or a callback pauses it. |
| `ProxyCode.ProxySession.ReadDown` | src/net/TcpConnection.cpp:85-122 | The same for the client. |
| `ProxyCode.ProxySession.HandleUp` | src/net/Channel.cpp:14-44 | Hang-up, input and output of one event in the order of the dispatch. |
| `ProxyCode.ProxySession.RunFunctor` | src/net/TcpConnection.cpp:215-225 | A write-complete functor looks at the backlog again when it runs. |
| `ProxyCode.ProxySession.DoPendingFunctors` | src/net/EventLoop.cpp:135-148 | Swaps the queue out and runs what was in it; what running functors queue waits for the next round. |
| `TimerTheorems.EveryRun` | src/net/EventLoop.cpp:261-351 | After any run of adds, cancels and rounds the index holds exactly the ids in the table with their keys, the table is ordered, the timerfd is set for the earliest deadline or one microsecond after the last reset if that is later, and no timer was called before its deadline. |
| `TimerTheorems.RoundIsDueBatch` | src/net/EventLoop.cpp:297-335 | A round calls exactly the timers that were due at its start, each once, in deadline order, whatever its callbacks add and cancel; what stayed was not due. |
| `TimerTheorems.CancelledIsNeverCalled` | src/net/EventLoop.cpp:273-295 | A timer cancelled while it is in the index is never called again, over any later run. |
| `TimerTheorems.CancelledInSnapshotIsCalledOnce` | src/net/EventLoop.cpp:318-328 | A timer cancelled after it entered the snapshot is called once more, in that round, never again, and is not renewed. |
| `TimerTheorems.CancelInsideRound` | src/net/EventLoop.cpp:290-293 | Cancelling another timer of the snapshot leaves it that one call; a callback that cancels its own timer ends it at once. |
| `TimerTheorems.OneShotLife` | src/net/EventLoop.cpp:261-335 | From its scheduling on, a one-shot timer is called at most once over any run; if it is never cancelled it has been called exactly once or is still to be called. |
| `TimerTheorems.OneShotIsCalledOnce` | src/net/EventLoop.cpp:318-328 | Once a one-shot timer is called no later run calls it again. |
| `TimerTheorems.RepeatsUntilCancelled` | src/net/EventLoop.cpp:321-327 | A repeating timer stays scheduled, due or running over any run that does not cancel it. |
| `TimerDeadlines.EveryCallOnSchedule` | src/net/EventLoop.cpp:261-335 | Over any run after a timer was added: the first call carries the deadline that was asked for, each later one the reading of the clock in the round of the call before plus the period, every call comes in a round that begins at or after its deadline, a one-shot timer is called at most once, and where the timer still stands it stands under the deadline of its next call. |
| `TimerDeadlines.CallIsStamped` | src/net/EventLoop.cpp:297-328 | The time of a call and the clock reading of its round are those of the run. |
| `TimerDeadlines.AlarmIsAhead` | src/net/EventLoop.cpp:337-351 | A step that sets the timerfd sets it at least a microsecond ahead. |
| `TimerDeadlines.RoundReadsAlarm` | src/net/EventLoop.cpp:297-306 | A round reads the timerfd: no expired alarm is left behind. |
| `TimerTheorems.InsertOrder` | src/net/EventLoop.cpp:266-266 | Inserting keeps the table ordered, and its first key is the smaller of the old first key and the new one. |
| `TimerCode.TimerQueue.AddTimerInLoop` | src/net/EventLoop.cpp:261-271 | Inserts behind equal keys, indexes the id, and resets the timerfd exactly when the earliest deadline changed. |
| `TimerCode.TimerQueue.CancelTimerInLoop` | src/net/EventLoop.cpp:273-295 | Erases the one entry of the id, or remembers the id during a round, or does nothing. |
| `TimerCode.TimerQueue.TakeDue` | src/net/EventLoop.cpp:308-314 | The snapshot loop moves exactly the due prefix out of the table and its ids out of the index. |
| `TimerCode.TimerQueue.ResetTimerfd` | src/net/EventLoop.cpp:337-351 | The timerfd expires at the deadline, but not before one microsecond from now. |
| `TimerCode.TimerQueue.HandleTimerfd` | src/net/EventLoop.cpp:297-335 | The whole round, with callbacks that add, cancel and take time, is a run of the steps of the model, ending outside a round. |
| `FunctorSpec.FunctorsInOrder` | src/net/EventLoop.cpp:125-148 | What has run is the first of the functors handed to QueueInLoop, as many as were called, and the rest is still there in order: first in, first out, at most once, under any interleaving of producers. |
| `FunctorSpec.NoLostWakeup` | src/net/EventLoop.cpp:125-148 | A loop about to block with functors pending has a wakeup that epoll_wait reports, or another thread is between its push and its wakeup. |
| `FunctorSpec.CounterIsWakeups` | src/net/EventLoop.cpp:192-231 | The counter of the eventfd is the number of wakeups since it was last read. |
| `FunctorSpec.EveryFunctorCanRun` | src/net/EventLoop.cpp:69-148 | From any such state there is a run after which everything pushed so far has run. |
| `FunctorCode.EventLoop.QueueInLoop` | src/net/EventLoop.cpp:125-133 | Push and wakeup of one thread. |
| `FunctorCode.EventLoop.HandleRead` | src/net/EventLoop.cpp:217-231 | Empties the eventfd counter. |
| `FunctorCode.EventLoop.DoPendingFunctors` | src/net/EventLoop.cpp:135-148 | Runs exactly the functors that were pending, in order, while running functors queue more; the whole is a run of the model. |
| `ServerTheorems.EraseHitsItsOwn` | src/net/TcpServer.cpp:95-105 | Over all interleavings of main loop, sub loops and accepts, the erase by descriptor removes the connection being torn down and no other, although descriptors are reused. |
| `ServerTheorems.DescriptorsAreExclusive` | src/net/TcpServer.cpp:39-59 | Connections that are not destroyed have different descriptors, and these are open. |
| `ServerTheorems.OpenIff` | src/net/TcpConnection.cpp:41-45 | No descriptor leaks: one is open if and only if a connection that is not destroyed has it. |
| `ServerTheorems.LifeIsOneWay` | src/net/TcpServer.cpp:55-105 | Established at most once, destroyed at most once, only after that and only after the erase. |
| `ServerTheorems.AcceptKeeps` | src/net/TcpServer.cpp:39-59 | A newly accepted descriptor is never still a key of the table. |
| `ServerTheorems.CloseTearsDownIff` | src/net/TcpConnection.cpp:157-174 | A close event starts the teardown of an established connection if and only if it is still in the connected state. |
| `ServerTheorems.ShutdownThenNeverRemoved` | src/net/TcpConnection.cpp:51-63 | After a local shutdown no later run removes the connection: it keeps its table entry and its open descriptor. |
| `ServerTheorems.StuckIsReached` | src/net/TcpConnection.cpp:51-63 | Accept, establish, shut down locally: such a connection exists, and a close event changes nothing. |
| `ServerTheorems.CanBeDestroyed` | src/net/TcpServer.cpp:95-105 | Every other connection can still be taken to its destruction by the queued functors and one close event. |
| `ServerTheorems.TaskCanRun` | src/net/EventLoop.cpp:135-148 | A queued lifecycle task can be run, and moves its connection to its next stage. |
| `ServerCode.TcpServer.NewConnection` | src/net/TcpServer.cpp:39-59 | Enters the connection under its descriptor and queues its establishment on its loop. |
| `ServerCode.TcpServer.RemoveConnection` | src/net/TcpServer.cpp:95-106 | Queues the erase on the main loop. |
| `ServerCode.TcpServer.HandleClose` | src/net/TcpConnection.cpp:157-174 | The state change of a close event, and the close callback when it does not return early. |
| `ServerCode.TcpServer.Shutdown` | src/net/TcpConnection.cpp:51-63 | The state change of a local shutdown. |
| `ServerCode.TcpServer.RunHead` | src/net/TcpServer.cpp:96-105 | The effect of one queued functor, with the second hop from the main loop to the connection's own. |
| `HttpTheorems.ChunkingIndependence` | src/http/HttpCodec.cpp:9-47 | If a stream is not rejected as one message, then however it is cut the requests delivered, the parser state, the bytes left and the verdict are those of one message. |
| `HttpRejection.SameUpToRejection` | src/http/HttpCodec.cpp:20-28 | A stream that is rejected as one message is rejected in every cut, by a call up to and including which the requests, the parser state and the verdict are the same, and the bytes left with the chunks to come are the bytes left. |
| `HttpRejection.CutsAgreeIff` | src/http/HttpCodec.cpp:9-47 | All cuts of a stream agree with one message if and only if it is not rejected before its last byte, or the rejection leaves a parser with nothing to do. |
| `HttpRejection.RefusedHeaderThenBlankLine` | src/http/HttpCodec.cpp:22-28 | A stream whose cut matters: a refused header line and a blank line deliver the request in two messages and nothing in one. |
| `HttpRejection.CutOfGetShows` | src/http/HttpCodec.cpp:22-28 | The same for GET / HTTP/1.1 with the header line bad. |
| `HttpTheorems.PipelinedRoundTrip` | src/http/HttpCodec.cpp:20-46 | Any list of well-formed requests, header names in any ASCII case and blanks before their values, written one after the other and cut in any way, is delivered exactly, in order, the headers under their names in lower case, with nothing left over. |
| `HttpTheorems.RejectionLeavesGotAllIff` | src/http/HttpContext.cpp:41-55 | A rejection leaves the finished state behind if and only if it rejects a content length that is not a number; from that state every turn of the loop changes nothing and asks for another. |
| `HttpRejection.MessageLeavesGotAllIff` | src/http/HttpContext.cpp:41-55 | A whole call leaves the finished state behind if and only if its last turn ends the headers with a content length that is not a number. |
| `HttpRejection.NextMessageDivergesIff` | src/http/HttpContext.cpp:13-110 | After exactly such a call, the next call that finds bytes never returns. |
| `HttpRejection.BadLengthNeverReturns` | src/http/HttpContext.cpp:41-55 | A request with such a header, and one more byte: rejected, then a call that never returns. |
| `HttpRejection.GetWithBadLength` | src/http/HttpContext.cpp:41-55 | The same for GET / HTTP/1.1 with the content length x. |
| `HttpTheorems.OnMessageIsDrive` | src/http/HttpCodec.cpp:20-46 | The nested loops of codec and parser deliver what one flat loop of turns does. |
| `HttpTheorems.IterateExtends` | src/http/HttpContext.cpp:13-110 | A turn either consumes nothing and waits, or does the same with more bytes behind. |
| `HttpTheorems.DriveExtends` | src/http/HttpCodec.cpp:20-46 | Parsing a prefix and then the rest is parsing the whole. |
| `HttpTheorems.TableKeepsHeaders` | src/http/HttpContext.cpp:77-78 | Of the headers whose names differ only in case the last one is in the table, under its name in lower case, and no other key is touched. |
| `HttpTheorems.AnySpellingOfLength` | src/http/HttpContext.cpp:41-51 | Under any spelling of its name the content length gives the body its length. |
| `HttpTheorems.CaseFillsOneEntry` | src/http/HttpContext.cpp:66-78 | Two names that differ only in case fill one entry, with the later value. |
| `HttpTheorems.TurnRejectsIff` | src/http/HttpContext.cpp:13-90 | A turn rejects if and only if it meets a whole request line without two blanks, a whole header line without a colon, or the blank line behind a content length that is not a number. |
| `HttpTheorems.BlankLineIff` | src/http/HttpContext.cpp:38-60 | After the blank line a body is expected if and only if the content length is positive; otherwise the request is finished, zero and negative lengths included. |
| `HttpTheorems.RequestLineReads` | src/http/HttpContext.cpp:114-146 | The request line of a written request reads back as its method, path, query and version. |
| `HttpTheorems.DecimalLengthFits` | src/http/HttpContext.cpp:43-49 | The decimal length of any body up to the largest int is read back exactly. |
| `HttpSpec.Iterate` | src/http/HttpContext.cpp:13-110 | A turn that goes on or finishes a request consumes bytes, from any state but the finished one, so the loop ends; a parser that expects a body has a positive length. |
| `HttpCode.HttpContext.ParseRequest` | src/http/HttpContext.cpp:9-112 | The loop over the buffer object computes the specified parse and terminates, entered in any state but the finished one. |
| `HttpCode.HttpContext.LineTurn` | src/http/HttpContext.cpp:15-90 | One turn on a request line or a header line, with its consumption of the buffer. |
| `HttpCode.HttpContext.ProcessRequestLine` | src/http/HttpContext.cpp:114-146 | Splits at the first two blanks and the first question mark, and fails without them. |
| `HttpCode.HttpContext.EndHeaders` | src/http/HttpContext.cpp:38-60 | Which state follows the blank line, for every content length. |
| `HttpCode.HttpCodec.OnMessage` | src/http/HttpCodec.cpp:9-47 | For every parser and buffer: the requests handed to the callback, the bytes left, the parser's state, the rejection, and whether the call never returns. |
| `HttpCode.HttpCodec.Drive` | src/http/HttpCodec.cpp:20-46 | The loop, entered in any state but the finished one, computes the specified deliveries and terminates. |
| `Decimal.ValueOfDigits` | src/log/LogStream.cpp:16-25 | The decimal digits of a number denote that number. |
| `Decimal.NoLeadingZero` | src/log/LogStream.cpp:16-20 | Only zero is written with a leading zero. |
| `Decimal.StoiOfText` | src/http/HttpContext.cpp:45-45 | std::stoi reads back the decimal text of every int. |
| `Decimal.StoiReads` | src/http/HttpContext.cpp:45-45 | std::stoi skips blanks, reads one sign and the digits behind it and ignores the rest; no digits or a number out of range is an error. |
| `LoggerSpec.LinesConserved` | src/log/AsyncLogging.cpp:31-118 | For any interleaving of producers and backend, the file, the buffers being written, the full buffers and the current buffer hold the accepted lines in lock order; when the backend is done they are all in the file. |
| `LoggerSpec.NeverNull` | src/log/AsyncLogging.cpp:69-111 | The current buffer is there exactly until the final sweep, a missing next buffer implies a full one, and no reachable step dereferences null or pops an empty vector. |
| `LoggerSpec.FileIsEveryLineIff` | src/log/AsyncLogging.cpp:31-52 | After Stop the file is every line ever given to Append, in lock order, if and only if each of them was shorter than a large buffer. |
| `LoggerSpec.BuffersFit` | src/log/AsyncLogging.cpp:31-52 | No buffer outgrows its storage: one byte always stays free. |
| `LoggerSpec.BuffersAreConserved` | src/log/AsyncLogging.cpp:31-101 | No buffer is used twice or lost: one is allocated exactly when a line does not fit and there is no spare, and some are freed only when a batch has been written. |
| `LoggerSpec.SweepOnlyAfterStop` | src/log/AsyncLogging.cpp:69-107 | The final sweep begins only after Stop. |
| `LoggerSpec.StopTakesBoundedSteps` | src/log/AsyncLogging.cpp:54-118 | Once Stop was called the backend is done within boundedly many of its steps, one more for each line appended meanwhile. |
| `LoggerSpec.BackendCanAdvance` | src/log/AsyncLogging.cpp:69-118 | Until it is done one of those steps is always possible. |
| `LoggerSpec.StepKeeps` | src/log/AsyncLogging.cpp:31-118 | Every enabled step is safe and keeps conservation and the pattern of null pointers. |
| `LoggerCode.AsyncLogging.Append` | src/log/AsyncLogging.cpp:31-52 | The locked section: append in place, or hand the full buffer over and start another; the backend is notified exactly when a buffer was handed over. |
| `LoggerCode.AsyncLogging.SwapIn` | src/log/AsyncLogging.cpp:70-82 | The locked section of the backend. |
| `LoggerCode.AsyncLogging.WriteOut` | src/log/AsyncLogging.cpp:84-86 | The write loop puts the buffers into the file in order. |
| `LoggerCode.AsyncLogging.RecycleBuffers` | src/log/AsyncLogging.cpp:88-101 | Two buffers are back in circulation, empty. |
| `LoggerCode.AsyncLogging.SweepUp` | src/log/AsyncLogging.cpp:107-111 | The last sweep takes the current buffer away. |
| `CommentTheorems.SlotsAgreeWithTable` | app/repository/CommentRepository.cpp:125-193 | Under every interleaving of tickets, slot writes, erasures and worker steps, unless SQLite refused something, applying what is in flight and queued to the table gives for every occupied slot exactly that slot's row, although an older push may overtake a newer one. |
| `CommentOvertaking.RestartRestores` | app/repository/CommentRepository.cpp:44-95 | After a clean stop and a restart the next sequence number is the same, the old latest list is a subsequence of the recovered one, and they are equal if and only if no comment of the window was overtaken in the run, that is, no older push into its slot was written after it. |
| `CommentOvertaking.OvertakenRun` | app/repository/CommentRepository.cpp:125-138 | A run in which a push is overtaken and the lists differ. |
| `CommentOvertaking.SlotSequence` | app/repository/CommentRepository.cpp:125-193 | A slot carries the number of the last push that wrote it; erasing changes the row and not the number. |
| `CommentHistory.LatestReads` | app/repository/CommentRepository.cpp:125-193 | After any run from recovery the latest list is, in ticket order, those of the last 50 comments whose slot was last pushed into by themselves: nickname and content as pushed or as the table had them, or the two replacement texts if they were erased since. |
| `CommentHistory.RunReads` | app/repository/CommentRepository.cpp:125-193 | A slot that carries a number holds the row of that comment as it was given, or with nickname and content replaced and the address kept. |
| `CommentHistory.TableChangesByCommit` | app/repository/CommentRepository.cpp:256-292 | The table changes only by a commit in which every answer was yes. |
| `CommentTheorems.RestartBySlots` | app/repository/CommentRepository.cpp:44-95 | The same comparison slot by slot: equal exactly when every stored comment of the window still has its slot. |
| `CommentTheorems.RecoveredSlot` | app/repository/CommentRepository.cpp:62-90 | After recovery a slot of the window holds its own row exactly when the table has it. |
| `CommentTheorems.RecoverHolds` | app/repository/CommentRepository.cpp:44-95 | Recovery from any table establishes the invariant. |
| `CommentTheorems.RunKeeps` | app/repository/CommentRepository.cpp:125-292 | Every run keeps it: the settled table holds what was stored before and every comment whose slot was written. |
| `CommentTheorems.CompareLatest` | app/repository/CommentRepository.cpp:140-153 | Of two rings, one holding all that the other holds, the latest list of the smaller is a subsequence of the larger's, with equality exactly when they hold the same. |
| `CommentCode.CommentRepository.constructor` | app/repository/CommentRepository.cpp:44-95 | After Initialize the ring, the counter and the queue are those of recovery from the table. |
| `CommentCode.CommentRepository.FillRing` | app/repository/CommentRepository.cpp:83-90 | The loop stores the rows in place, oldest first, so that a slot keeps the newest of those that belong there. |
| `CommentCode.CommentRepository.TakeTicket` | app/repository/CommentRepository.cpp:126-127 | The atomic increment, outside the slot lock. |
| `CommentCode.CommentRepository.WriteSlot` | app/repository/CommentRepository.cpp:129-137 | The slot is overwritten in place and the insert is queued. |
| `CommentCode.CommentRepository.EraseComment` | app/repository/CommentRepository.cpp:173-193 | Only a slot that still holds the comment is overwritten; author and address are returned, the address is kept, and the update is queued. |
| `CommentCode.CommentRepository.GetLatestComments` | app/repository/CommentRepository.cpp:140-153 | The window loop returns nickname and content of the rows whose slot still carries their number, oldest first. |
| `CommentCode.CommentRepository.DrainQueue` | app/repository/CommentRepository.cpp:256-292 | One round of the worker: the table becomes the queue applied in order if every answer of SQLite is yes, and stays as it was otherwise. |
| `ConnectorTheorems.EverySocketOnce` | src/net/Connector.cpp:68-248 | For one start and stops at any time, from any thread or callback, every socket opened so far is closed exactly once, or handed over exactly once, or the one the connector owns; over runs in which no retry gets a connect under way while the old channel waits to be cleared. |
| `ConnectorTheorems.StopLeavesNothingOpen` | src/net/Connector.cpp:87-97 | Over the same runs: once a stop has run on the loop every socket opened so far has been closed or handed over. |
| `ConnectorTheorems.NoSocketAfterStop` | src/net/Connector.cpp:78-85 | Once the stop flag is set, no step that begins after that opens a socket, over any later run. |
| `ConnectorTheorems.RetryDelays` | src/net/Connector.cpp:209-230 | The k-th retry in a row, counted from 0, waits min(0.5 * 2^k, 30) seconds, and how many there are in a row is read off the run; the next delay is always between 0.5 and 30. |
| `ConnectorTheorems.RetryIffWorth` | src/net/Connector.cpp:209-230 | A retry is armed, with the current delay, for exactly the failures that are worth one while connecting is still wanted; a success begins anew, and a stop takes the timer away. |
| `ConnectorTheorems.OpensIff` | src/net/Connector.cpp:68-105 | A step opens a socket if and only if it starts a connect and gets one. |
| `ConnectorTheorems.ConnectedIff` | src/net/Connector.cpp:170-207 | The connector is connected from its first success on. |
| `ConnectorTheorems.WantedUntilStopped` | src/net/Connector.cpp:78-85 | Connecting is wanted until a stop, from here, another thread or the error callback; the owner may also lose interest alone. |
| `ConnectorTheorems.HandedIffWanted` | src/net/TcpClient.cpp:89-115 | The owner gets exactly the sockets that connect while both it and the connector want them. |
| `ConnectorTheorems.RunKeeps` | src/net/Connector.cpp:59-248 | The ledger of sockets, the delays and the shape of state, timer, channel and queued functors hold after every run. |
| `ConnectorTheorems.TimerNeedsReset` | src/net/Connector.cpp:225-248 | The retry timer fires and the queued functors run: afterwards every socket is still closed, handed over or owned, for every outcome of connect() and any stops, if and only if no connect got under way while the functor that clears the old channel was waiting. |
| `ConnectorTheorems.EarlyTimerLosesSocket` | src/net/Connector.cpp:225-248 | A concrete run without that: the second socket ends up neither owned nor closed nor handed over. |
| `ConnectorTheorems.BackoffDoubles` | src/net/Connector.cpp:229-229 | Doubling and capping the delay gives the next value of the closed form. |
| `ConnectorCode.Connector.constructor` | src/net/Connector.cpp:40-66 | A connector just started. |
| `ConnectorCode.Connector.StartInLoop` | src/net/Connector.cpp:68-76 | Connects only when wanted and disconnected. |
| `ConnectorCode.Connector.Connect` | src/net/Connector.cpp:99-146 | Opens a socket and handles every outcome of connect(), with a stop of another thread in between. |
| `ConnectorCode.Connector.StopInLoop` | src/net/Connector.cpp:87-97 | Cancels the timer; closes the socket of a connect under way. |
| `ConnectorCode.Connector.Stop` | src/net/Connector.cpp:78-85 | Clears the flag and runs or queues the stop. |
| `ConnectorCode.Connector.HandleWrite` | src/net/Connector.cpp:170-207 | Ignored unless connecting; otherwise retries, hands the socket over, or closes it. |
| `ConnectorCode.Connector.Retry` | src/net/Connector.cpp:209-230 | Closes the socket, reports, arms the timer with the current delay and doubles it. |
| `ConnectorCode.Connector.RemoveAndResetChannel` | src/net/Connector.cpp:232-244 | Gives the socket back and queues the clearing of the channel. |
| `ConnectorCode.Connector.RunFunctor` | src/net/Connector.cpp:246-248 | The effect of one queued functor. |
| `ConnectorCode.TcpClient.NewConnection` | src/net/TcpClient.cpp:89-115 | Keeps a wanted socket, closes an unwanted one. |
| `ConnectorCode.TcpClient.RemoveConnection` | src/net/TcpClient.cpp:118-125 | Forgets the connection only if it is the current one. |
| `PoolTheorems.NeverStuck` | src/base/ThreadPool.cpp:27-35 | No reachable state has work, every worker asleep, and neither a signal nor the broadcast still due. |
| `PoolTheorems.EachTaskOnce` | src/base/ThreadPool.cpp:68-98 | Tasks leave the queue in the order of their acceptance, and each accepted task is in exactly one place: the queue, one worker's hands, or finished. |
| `PoolTheorems.AcceptedIsAdded` | src/base/ThreadPool.cpp:27-35 | A pool accepts exactly the tasks that are added before it is stopped, in their order. |
| `PoolTheorems.WorkIsBounded` | src/base/ThreadPool.cpp:68-98 | Workers do not spin: the steps they take in any run are bounded by the tasks added and the wakeups given. |
| `PoolTheorems.StopFinishesEverythingIff` | src/base/ThreadPool.cpp:37-58 | When Stop has returned every accepted task has finished exactly once, if and only if the pool had a worker or nothing was accepted. |
| `PoolTheorems.NobodyToRunIt` | src/base/ThreadPool.cpp:37-58 | A pool without workers: Stop returns with an accepted task still in the queue. |
| `PoolTheorems.StopTakesBoundedSteps` | src/base/ThreadPool.cpp:68-98 | Once the stop flag is set, the steps that workers and stopper still take in any run are bounded by a measure of the state. |
| `PoolTheorems.StopCanAdvance` | src/base/ThreadPool.cpp:37-58 | Until Stop has returned one of those steps is always possible. |
| `PoolTheorems.Reachable` | src/base/ThreadPool.cpp:4-98 | The invariant of queue, workers, signals and phases holds after every run, spurious wakeups included. |
| `PoolCode.ThreadPool.constructor` | src/base/ThreadPool.cpp:4-21 | An empty queue and workers that are about to look at it. |
| `PoolCode.ThreadPool.Push` | src/base/ThreadPool.cpp:27-35 | Under the lock: accepted unless stopped; a signal is due either way. |
| `PoolCode.ThreadPool.Look` | src/base/ThreadPool.cpp:73-90 | One locked pass of a worker: to sleep, out of the loop, or away with the first task. |
| `PoolCode.ThreadPool.Finish` | src/base/ThreadPool.cpp:94-96 | A task is called exactly when it is not empty, and the worker goes back to the queue. |
| `PoolCode.ThreadPool.Run` | src/base/ThreadPool.cpp:68-98 | A worker that meets the stop flag and no rival finishes the whole queue in order and leaves. |
| `PoolCode.ThreadPool.SetStop` | src/base/ThreadPool.cpp:39-47 | Only the first call goes on to stop the pool. |
| `PoolCode.ThreadPool.Broadcast` | src/base/ThreadPool.cpp:50-50 | Every sleeping worker is woken, and no other is changed. |
| `PoolCode.ThreadPool.Join` | src/base/ThreadPool.cpp:51-54 | Goes through exactly when every worker has left. |
| `BlacklistTheorems.FetchPersisted` | app/repository/BlacklistManager.cpp:192-252 | Printing well-formed rules and reading them back is the identity on the two sets and the keyword list, in whatever order the sets are walked. |
| `BlacklistReload.InStepIff` | app/repository/BlacklistManager.cpp:108-180 | Over any run of adds of well-formed entries with successful writes, and of any number of reloads at once that read the whole file, the rules in memory are at every moment those of the file if and only if no add changes the rules between the reading of a reload and its swap. |
| `BlacklistReload.ReloadChangesNoVerdict` | app/repository/BlacklistManager.cpp:108-180 | After such a run without an overtaken swap neither a further reload nor the swap of a reload in flight that is not overtaken changes the verdict on any comment. |
| `BlacklistReload.SwapInStepIff` | app/repository/BlacklistManager.cpp:108-118 | Whatever a reload has read, its swap leaves memory in step with the file if and only if it read the rules that are in memory. |
| `BlacklistReload.RuleIsLost` | app/repository/BlacklistManager.cpp:108-180 | From any state in step with its file a run of well-formed adds with successful writes and one reload that loses a nickname for good: from memory and from the file. |
| `BlacklistReload.TornReadEmptiesMemory` | app/repository/BlacklistManager.cpp:192-252 | A run in which a reload reads the file just after an add has emptied it for writing: memory is left without a rule. |
| `BlacklistTheorems.EntrySurvivesIff` | app/repository/BlacklistManager.cpp:204-232 | A printed entry reads back as exactly that one entry if and only if it is well formed: not empty, no line break, no blank at its ends, no trailing carriage return, no leading #, not bracketed. |
| `BlacklistTheorems.NicknameSurvivesIff` | app/repository/BlacklistManager.cpp:129-132 | A nickname added at run time is still blocked after a reload, with no reload in flight at the add, if and only if the file could be written and the name is well formed. |
| `BlacklistTheorems.IpSurvivesIff` | app/repository/BlacklistManager.cpp:134-137 | The same for an address. |
| `BlacklistTheorems.KeywordSurvivesIff` | app/repository/BlacklistManager.cpp:139-149 | The same for a keyword, in lower case. |
| `BlacklistTheorems.IllFormedIsLost` | app/repository/BlacklistManager.cpp:192-252 | A file of well-formed rules and one ill-formed entry never gives that entry back, in any section. |
| `BlacklistTheorems.TemplateIsEmpty` | app/repository/BlacklistManager.cpp:55-71 | The file that initialization creates holds no rule, so memory and file agree from the start. |
| `BlacklistTheorems.SyncedFileIff` | app/repository/BlacklistManager.cpp:192-234 | Which existing files the manager starts in step with: exactly those from which no rule is read that ends in a carriage return. |
| `BlacklistTheorems.PassesIff` | app/repository/BlacklistManager.cpp:82-106 | A comment passes if and only if no nickname, no address and no keyword hits it. |
| `BlacklistTheorems.KeywordVerdict` | app/repository/BlacklistManager.cpp:97-104 | A keyword verdict names the first keyword of the list that occurs in the lowered content. |
| `BlacklistTheorems.VerdictIff` | app/repository/BlacklistManager.cpp:82-106 | Which rule a verdict names when several hit: the nickname before the address before the first keyword. |
| `BlacklistTheorems.KeywordAddedOnce` | app/repository/BlacklistManager.cpp:139-149 | Adding a keyword again, in any case, changes nothing, and no keyword is there twice. |
| `BlacklistTheorems.EmptyKeywordBlocksNothing` | app/repository/BlacklistManager.cpp:97-104 | An empty keyword in the list blocks nothing. |
| `BlacklistTheorems.UnknownSectionIsIgnored` | app/repository/BlacklistManager.cpp:204-232 | Entries under a tag that names no section become no rule. |
| `BlacklistTheorems.AddedKeywordBlocks` | app/repository/BlacklistManager.cpp:139-149 | An added keyword blocks every comment that contains it in any mixture of ASCII cases. |
| `BlacklistTheorems.LinesOfUnlines` | app/repository/BlacklistManager.cpp:204-204 | Reading line by line undoes printing line by line. |
| `BlacklistCode.BlacklistManager.Initialize` | app/repository/BlacklistManager.cpp:47-74 | Reads the file, or creates it from the template first; fails, changing nothing, if it cannot be created. |
| `BlacklistCode.BlacklistManager.GetLine` | app/repository/BlacklistManager.cpp:204-204 | One getline takes exactly the first remaining line. |
| `BlacklistCode.BlacklistManager.FetchLatestBlackList` | app/repository/BlacklistManager.cpp:192-234 | The parse loop reads the rules of the file, or none when it cannot be opened. |
| `BlacklistCode.BlacklistManager.PersistToFile` | app/repository/BlacklistManager.cpp:236-252 | The file becomes the printed rules, in some order of the sets, or stays as it was when it cannot be opened. |
| `BlacklistCode.BlacklistManager.Reload` | app/repository/BlacklistManager.cpp:108-124 | The rules in memory become those of the file, when no add comes between its reading and its swap. |
| `BlacklistCode.BlacklistManager.Swap` | app/repository/BlacklistManager.cpp:113-118 | The locked section of a reload: the rules in memory become those that were read. |
| `BlacklistCode.BlacklistManager.AddBatch` | app/repository/BlacklistManager.cpp:151-180 | Inserts the non-empty entries, counts the new ones, and rewrites the file exactly when there are any. |
| `BlacklistCode.BlacklistManager.AddKeyword` | app/repository/BlacklistManager.cpp:139-149 | Appends the lowered keyword unless it is empty or there already. |
| `BlacklistCode.BlacklistManager.Find` | app/repository/BlacklistManager.cpp:100-100 | True exactly when the keyword occurs. |
| `BlacklistCode.BlacklistManager.CheckComment` | app/repository/BlacklistManager.cpp:82-106 | The specified verdict: nickname first, then address, then the first keyword. |
| `LogStreamSpec.TextDenotes` | src/log/LogStream.cpp:11-28 | The text of an integer, zero and the minimum included, reads back as that integer and has no superfluous sign or leading zero. |
| `LogStreamSpec.TextIsInjective` | src/log/LogStream.cpp:11-28 | Different integers have different texts. |
| `LogStreamSpec.TextFits` | src/log/LogStream.cpp:12-27 | With its terminator the text of any integer argument of any width needs at most 21 characters, so the check for 32 suffices. |
| `LogStreamSpec.DigitOf` | src/log/LogStream.cpp:17-19 | Truncating remainder and quotient of a positive or negative value pick the right entry of the symmetric table, and the quotient stays between the value and zero, so no width overflows. |
| `LogStreamSpec.DigitLoopTurn` | src/log/LogStream.cpp:16-20 | In every turn the digits still to come followed by the emitted ones in reading order are the digits of the argument. |
| `LogStreamSpec.WriteIff` | include/reactor/log/LogStream.h:23-28 | A text goes in if and only if one more character than its own are free, a number if and only if 32 are. |
| `LogStreamSpec.LineLeavesRoom` | include/reactor/log/LogStream.h:23-28 | Whatever pieces are written, the line keeps what it had and stays shorter than its buffer. |
| `LogStreamSpec.TextsKeptIff` | include/reactor/log/LogStream.h:23-28 | A line of texts is complete if and only if it is shorter than the buffer. |
| `LogStreamSpec.LineKeptIff` | include/reactor/log/LogStream.h:23-28 | A line of texts and numbers is complete if and only if each piece fits behind the texts before it. |
| `LogStreamSpec.LineKept` | src/log/LogStream.cpp:12-12 | In particular when 32 characters would still be free after it. |
| `LogStreamCode.LogBuffer.Append` | include/reactor/log/LogStream.h:23-28 | Appends the whole text when it fits with a character to spare, and nothing otherwise. |
| `LogStreamCode.Reverse` | src/log/LogStream.cpp:25-25 | The stretch of the array is reversed in place, the rest untouched. |
| `LogStreamCode.LogStream.EmitDigit` | src/log/LogStream.cpp:17-19 | One turn stores one character and keeps emitted and remaining digits together equal to the digits of the argument. |
| `LogStreamCode.LogStream.EmitDigits` | src/log/LogStream.cpp:13-20 | The digit loop writes the digits, low one first, behind the contents and nowhere else. |
| `LogStreamCode.LogStream.FormatInteger` | src/log/LogStream.cpp:11-28 | Appends the decimal text of the argument when 32 characters are free, changes nothing otherwise, and touches no more than 21 characters behind the contents. |
| `LogStreamCode.LogStream.PutCString` | include/reactor/log/LogStream.h:71-78 | A null pointer is written as (null). |
| `LogStreamCode.LogStream.PutBool` | include/reactor/log/LogStream.h:49-52 | A flag is written as 1 or 0. |
| `LogStreamCode.LogStream.PutAll` | include/reactor/log/LogStream.h:43-91 | A whole line, piece by piece, is the specified one. |

## Left out

- System calls, socket options, address handling and self-connect detection: their results are parameters or choices of a step.
- Real time: the timers' clock is a number that steps move forward; the logger's timed wait is a step that may come at any time.
- SQLite internals: BEGIN, each statement, COMMIT and ROLLBACK answer yes or no; a no keeps the table as it was.
- The file behind the blacklist and the log: a string that a write replaces or extends. A write is complete or fails at once; a reload that meets it half done
  sees a prefix, at one moment.
- Teardown of a proxy session beyond its own state, and the counting of shared_ptr and weak_ptr: the model stops at the client's close.
- Bytes the peer sent that were never read: the stream results speak of bytes actually read.
- Memory orders: every locked section and every atomic operation is one step. Writing a comment's slot and queueing its row is one step,
  because the slot lock is held over both; the ticket before it is another.
- Sequence numbers, descriptors, ids and counters are unbounded; comment texts contain no NUL.
- Characters stand for bytes; lower-casing is that of the C locale.
- A Connector that is stopped and started again within one iteration of its loop.
- ConnectorTheorems.EverySocketOnce: leaves out runs in which a retry gets a connect under way while the old channel waits to be cleared, which at
  least half a second of delay rules out; `TimerNeedsReset` says what happens in them. The same holds for `StopLeavesNothingOpen` and `RunKeeps`.
- ConnectorCode.Connector.RemoveAndResetChannel: does not state that the channel leaves epoll; that is `ChannelCode.Channel.Remove`.
- ConnectorCode.TcpClient.NewConnection: keeps the socket's number; building and establishing the connection and its callbacks are in `TcpConnection.dfy` and `ProxyCode.dfy`.
- ConnectorCode.TcpClient.RemoveConnection: only the reference; the callback and the queued destruction are in `ProxyCode.ProxySession.CloseUp`.
- TcpConnectionCode.TcpConnection.ConnectionEstablished: leaves the call of the connection callback to its caller, as `ProxyCode.ProxySession.UpstreamConnected` makes it.
- TcpConnectionCode.TcpConnection.Shutdown: the call on the loop's own thread; from another thread the test for a backlog comes later, and a close event may
  come between the test of the state and its change.
- ServerCode.TcpServer.Shutdown: tests and sets the state at once, as the step of `ServerSpec` does; in the source a close event may come in between.
- BlacklistCode.BlacklistManager.Reload: no add comes between its reading and its swap; in `BlacklistReload` any may.
- ConnectorTheorems.NoSocketAfterStop: a step that has tested the flag when a stop sets it still opens its socket; `StopLeavesNothingOpen` covers it.
- ProxyCode.ProxySession.constructor: does not start the connect of the upstream, which is a step that may come at any time.
- ProxyCode.ProxySession.CloseDown: does not call Disconnect and Stop of the client object; the model stops there.
- TcpConnection and ProxySession hold their buffers and channels as values of the verified specifications, not as objects: sharing of a Buffer between callbacks is not modelled.
- FunctorCode.EventLoop.QueueInLoop: no other thread comes between push and wakeup; in `FunctorSpec` any may.
- FunctorCode.EventLoop.DoPendingFunctors: only running functors push meanwhile; in `FunctorSpec` any thread may.
- AsyncLogging holds its buffers as byte strings; that Bzero and Reset leave old bytes behind the contents is not modelled.
- LoggerCode.AsyncLogging.Append: not called after the final sweep, when the source has no current buffer any more.
- TcpServer names connections by handles; the objects' own buffers and channels are those of `TcpConnection.dfy`. Its events come only between establishment and destruction.
- CommentCode.CommentRepository.GetLatestComments: no push comes between two slots of the window.
- CommentCode.CommentRepository.DrainQueue: one round without producers in between; with them the interleaving is a run of `CommentSpec`. The telemetry snapshot repeats the loop of the latest comments.
- PoolCode.ThreadPool.Run: a worker that meets the stop flag and no rival; with rivals and producers the interleaving is a run of `PoolSpec`.
- ServerTheorems.CanBeDestroyed, ProxyTheorems.PauseCanBeLifted, FunctorSpec.EveryFunctorCanRun: say that a suitable continuation exists, not that a fair scheduler takes it.
- LogStream's floating-point formatting, which is snprintf.
- A task posted to the thread pool after Stop has returned, which would use a destroyed mutex.
- Acceptor, the round-robin choice of a loop, HttpDispatcher, JSON and static files, the metrics daemon, AppUtils, the main programs, the agent and the web page: plumbing or easy members.
