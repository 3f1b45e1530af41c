# TokioLoop: a verified model of its event loops

TokioLoop has two asyncio event loops written in Rust: the mio-based RLoop and a tokio-based loop. This project models
the parts of both that carry state across callbacks, threads and system calls, together with the Python pipe transport
and the address interleaver, and proves what holds of them in every run.

Each component comes in two forms. A *machine* over values says what one step does and what it leaves behind; the
theorems are about all its runs. A *class* (or a method with loops) follows the source's own objects and updates them in
place; its contracts tie every method to the machine, so the theorems hold of it. The kernel, the clock, the order in
which threads proceed and the branch `select!` takes are arbitrary. So is the protocol: a callback's reaction is a list of
calls on its transport, each with the reactions to the callbacks it causes in turn, so re-entrant calls are covered to
any depth.

| file | content |
|---|---|
| `Prelude.dfy`, `Callbacks.dfy` | bytes, chunked buffers; the callbacks of a write side and what they say |
| `Interests.dfy` | the fd interest table against the poller, TCP and UDP |
| `TcpMachine.dfy`, `TcpInvariant.dfy` | the RLoop TCP transport: machine and invariant |
| `TcpWatch.dfy`, `TcpCalls.dfy`, `TcpEvents.dfy` | what a protocol did in a run, told from its calls at any depth of reactions; what no call does; which events lose bytes, repeat the loss or leave the fd polled |
| `TcpTally.dfy`, `TcpInbound.dfy` | the transport's books kept from its calls and the kernel's answers alone; what the protocol hears of its peer |
| `TcpTheorems.dfy`, `TcpGentle.dfy`, `TcpWitnesses.dfy` | theorems over runs with their exact conditions, a condition on the reactions alone, and runs that show each condition is needed |
| `TcpTransport.dfy`, `TcpServer.dfy` | the event loop's fd tables, `TCPTransport`, its read and write handles, listeners and server close, as objects |
| `EdgePoll.dfy` | one stream's fd under a poller that reports edges |
| `ReadyQueue.dfy` | the ready queue between the loop thread and producer threads, one atomic operation a step |
| `Timers.dfy`, `LoopStep.dfy` | the timer heap, the poll timeout, one iteration of the RLoop |
| `TokioScheduler.dfy`, `TokioEventLoop.dfy` | the tokio loop's scheduler: machine and program |
| `TokioIo.dfy`, `TokioTransport.dfy` | the tokio connection task: machine and program |
| `PipeMachine.dfy`, `PipeInvariant.dfy`, `PipeWatch.dfy`, `PipeTally.dfy`, `PipeTheorems.dfy`, `PipeTransport.dfy` | the pipe write transport: machine, invariant, which calls throw bytes away, its books kept from outside, theorems, program |
| `Interleave.dfy` | the address interleaver |

## Where the code does less than one would expect

Each of these is a lemma with a concrete run, next to a theorem that says exactly when the good case holds.

- `abort` always delivers `connection_lost`, so a second `abort` repeats it (`AbortTwice`); so does a `close` from
  `resume_writing` with nothing queued (`CloseInResume`). `LossDeliveredAtMostOnce` is the exact condition;
  `QuietRunsLoseOnce` leaves only the calls after the loss for a protocol that is quiet in `resume_writing`.
- `write` does not look at `closing`. A write after the loss can leave the fd registered with nobody behind it
  (`WriteAfterClose`); so can an `eof_received` that resumes reading and then lets the transport close (`ResumeAtEof`).
  `DetachIsClean` is exact, `NoResumeRunsDetachClean` its form for protocols that do not resume there.
- A write that fails in the write handle of an open transport drops the queue silently and leaves a paused protocol paused
  (`FailedDrainStrands`). `BytesAreConserved` and `NoWriterIsStranded` say exactly in which runs bytes are missing and a
  protocol stays paused with nothing pending.
- A direct write that fails for good panics: `tcp_stream_close` borrows the state that `try_write` still holds. So does
  a `close`, or a mere `get_write_buffer_size`, from the `pause_writing` of a write, which finds the state borrowed
  (`Crashes`). The release profile
  aborts on panic. `PanicsExactly` is exact for runs, `WritePanicsExactly` for one write; `GentleRunsSurvive` is a condition
  on the reactions alone.
- With no ready work and an overdue timer the poll timeout is unlimited (`OverduePollHasNoLimit`, exact in
  `OversleepsExactly`).
- An event that reports a stream both readable and writable starts its read handle only (src/event_loop.rs:252-259).
  Under a poller that reports edges pending bytes can then wait for good while the peer keeps sending (`ReadHidesWrite`,
  `ChatterStarves`, exact in `StuckExactly`).
- Without the interpreter lock a wake-up can be lost (`WakeUpLostWithoutLock`), and the module declares
  `gil_used = false` (src/lib.rs:31). `NoLostWakeUp` is proved with the lock; `SleepTakesEarlyLook` says what a lost
  wake-up takes without it.
- The tokio loop's `_run` drops what is in its heap and handle channel when it returns (`StopLosesHandles`,
  `StopLosesTimers`, exact in `LossNeedsExit`).
- The tokio connection task loses the rest of a chunk when another branch of `select!` completes first
  (`CutWriteLosesBytes`; `BytesSurvive` says exactly in which runs every byte is sent or still held). What is in the
  buffer when the task sees `close` or a read error is never sent (`CloseLosesBuffer`, `ReadErrorLosesBuffer`,
  `CloseAbandonsBuffer`), although the comment at src/tokio_tcp.rs:481-482 leaves the loss to the task for the sake of
  pending data. `DeliveredExactly` says in which runs every byte written was sent by the time of the loss. Pausing
  reading stops writing too (`PauseStopsWriting`).
- The pipe transport strands bytes, and leaves its fd registered after the loss, when `resume_writing` writes and then
  closes (`CloseInResumeStrands`, exact in `StrandedExactly`). Its low mark has no effect (`LowMarkHasNoEffect`): only a
  write that empties the buffer resumes the protocol (`ResumesExactly`, `PartialDrainStaysPaused`).

## Model

| member | source | states |
|---|---|---|
| `Interests.Add` | src/event_loop.rs:332-364 | adding interest is set union on the table and on the poller alike, and cannot reach `unreachable!` from an agreeing entry |
| `Interests.Rem` | src/event_loop.rs:367-397 | removing is set difference on both; it panics exactly when the entry would become empty without being equal to what is removed |
| `Interests.TableTracksRequests` | src/event_loop.rs:427-491 | for every sequence of TCP and UDP adds and removals over many fds: a panic exactly if some removal takes in all flags wanted and more, and until then for each fd the recorded and the registered interest are the flags still wanted |
| `Interests.SingleFlagsNeverOverreach` | src/event_loop.rs:386-391 | removals of one flag each, as all callers make, never panic |
| `Interests.PanicWitnesses` | src/event_loop.rs:386-391 | two kinds on one fd, or removing both flags where one is held, panic |
| `TcpMachine.Limits` | src/tcp.rs:764-803 | defaults, the ValueError condition, and low never above high, with the word-size wrap of `low * 4` |
| `TcpInvariant.PushBooks` | src/tcp.rs:496-602 | a write that goes out in part keeps order and the cached size: a direct write never overtakes the queue |
| `TcpInvariant.EnqueueKeeps` | src/tcp.rs:586-599 | queueing the rest of a write keeps everything but a pause that may be owed |
| `TcpInvariant.ExecKeeps` | src/tcp.rs:469-907 | every application call, with every reaction to every callback it makes, keeps the invariant or panics |
| `TcpInvariant.SoundCallsOutSoundly` | src/tcp.rs:604-630 | whenever a call makes a callback the invariant holds in the state the callback sees |
| `TcpInvariant.DrainSplits` | src/tcp.rs:1301-1329 | what a drain sends, leaves and drops is the queue, cut in that order, for every sequence of kernel answers |
| `TcpInvariant.AfterDrainKeeps` | src/tcp.rs:1301-1329 | the cached size stays the sum of chunk lengths and never underflows |
| `TcpInvariant.ResumeKeeps` | src/tcp.rs:1363-1370 | `resume_writing` runs in a sound state, whatever it calls |
| `TcpInvariant.FinishDrainKeeps` | src/tcp.rs:1371-1418 | the end of the write handle leaves the transport at rest |
| `TcpInvariant.RecvEofKeeps` | src/tcp.rs:1122-1138 | end of file, kept open or closed, with any reaction in `eof_received` |
| `TcpInvariant.ReadRoundsKeeps` | src/tcp.rs:1141-1176 | every round of reads, with `close` or `abort` from `data_received` |
| `TcpInvariant.NextKeeps` | src/tcp.rs:1332-1420 | every event keeps a transport at rest |
| `TcpInvariant.RunIsSound` | src/tcp.rs:239-306 | every run from attachment is at rest after each event, unless it panicked |
| `TcpTheorems.LossDeliveredAtMostOnce` | src/tcp.rs:450-463 | in every run `connection_lost` comes at most once exactly when no `abort` and no failing direct write was made after it, at any depth of reactions, and `resume_writing` never returned from a loss of its own with nothing queued; the transport is in `tcp_transports` exactly until the first; a closing attached transport has bytes pending |
| `TcpTheorems.DetachIsClean` | src/tcp.rs:381-447 | a detached transport leaves no entry and no registration exactly when no write after the loss was left on an empty queue and `eof_received` made no effective `resume_reading`, without an effective `pause_reading` after it, on a transport it let close; READABLE implies neither paused nor closing otherwise; table and poller agree |
| `TcpTheorems.BytesAreConserved` | src/tcp.rs:496-602 | sent bytes followed by the flattened queue are the accepted bytes exactly when no write handle met an attached transport and a fatal answer of the kernel; lengths always add up |
| `TcpTheorems.NoWriterIsStranded` | src/tcp.rs:1363-1410 | a protocol is paused with nothing pending exactly after a write handle failed while it was paused and until something is queued; an attached transport polls for writing exactly while bytes are pending |
| `TcpTheorems.FlowControlAlternates` | src/tcp.rs:368-378 | pauses and resumes strictly alternate starting with a pause, low is at most high, above high means paused |
| `TcpTheorems.HalfCloseComesLast` | src/tcp.rs:853-872 | the write side is shut down only after `write_eof` with nothing pending (section 3.6 of RFC 9293), and then every accepted byte was sent exactly if no write handle failed; it is shut down once nothing is pending |
| `TcpTheorems.FullDrainFinishes` | src/tcp.rs:1332-1420 | once the kernel takes what is queued, one write handle sends it all in order and resumes a paused protocol whatever the reactions; if they leave the queue empty it completes a pending close, told once, or a pending write_eof |
| `TcpTheorems.QuietRunsLoseOnce` | src/tcp.rs:880-907 | for a protocol that never closes, aborts or fails a write in `resume_writing`, `connection_lost` comes at most once exactly when no abort and no failing write follows it, `close` from `data_received` and `eof_received` included |
| `TcpTheorems.NoResumeRunsDetachClean` | src/tcp.rs:381-409 | a protocol without `resume_reading` at any depth of `eof_received` detaches clean exactly when it left no write on an empty queue after the loss |
| `TcpWatch.PanicsExactly` | src/tcp.rs:604-616 | a run panics exactly when a call borrows the state cell that a write holds while it calls out, or a direct write fails on an attached transport |
| `TcpWatch.HeldPanicsExactly` | src/tcp.rs:496-598 | under a held cell a reaction panics exactly if one of its calls borrows: a non-empty write or a write_eof before the end of writing, valid limits, a first close, any abort, `get_write_buffer_size`, `is_tls` |
| `TcpWatch.LatchReads` | src/tcp.rs:469-907 | after every call with all its reactions, each watch over the calls made agrees with the state: late aborts, late failures, stray writes, panics |
| `TcpWatch.WatchedReads` | src/tcp.rs:1141-1420 | the same over whole runs, through read and write handles |
| `TcpGentle.GentleRunsSurvive` | src/tcp.rs:604-616 | a condition on the reactions alone: a protocol that makes only reading calls and empty writes in the `pause_writing` of a write, on a kernel that fails no direct write, never panics |
| `TcpCalls.WritePanicsExactly` | src/tcp.rs:496-602 | one write panics exactly if it fails at once on an attached transport, or a reaction to its pause, or to its loss on a detached one, borrows the cell |
| `TcpCalls.CallLeaves` | src/tcp.rs:469-907 | no call throws bytes away, takes back what was sent, lowers what is pending, resumes the protocol, or pauses it without bytes pending |
| `TcpCalls.CallReadsOn` | src/tcp.rs:735-761 | on a transport that is not closing, the loop polls for reading exactly as the last effective pause or resume left it |
| `TcpCalls.QuietLosesNone` | src/tcp.rs:653-719 | calls that neither close nor abort nor fail, nor do so in reaction to a pause, deliver no loss |
| `TcpEvents.LossInResumeCounts` | src/tcp.rs:1363-1399 | the write handle repeats the loss exactly when `resume_writing` returned from a loss with nothing queued |
| `TcpEvents.EofResumeMarks` | src/tcp.rs:1122-1138 | the fd is left polled for reading exactly by such an end of file, until another one |
| `TcpEvents.DrainFailureDrops` | src/tcp.rs:1321-1325 | bytes are thrown away exactly by a failed write handle |
| `TcpEvents.StrandingSteps` | src/tcp.rs:1363-1370 | with nothing pending after an event, the protocol is paused exactly if it was, and nothing was pending before or a write handle failed |
| `TcpInbound.ReadIntoIsPrefix` | src/tcp.rs:1100-1120 | a read returns the next bytes of the stream, as many as fit, and reports the close exactly with room to spare |
| `TcpInbound.RoundSays` | src/tcp.rs:1152-1170 | a round tells the protocol of exactly the bytes that fit its room, then of the end of file if it is met |
| `TcpInbound.ReadsAreHeard` | src/tcp.rs:1141-1176 | in every run that does not panic the protocol hears all data the kernel gave its read handles, in order and unchanged, and each end of file once, after its data |
| `TcpTally.DrainHands` | src/tcp.rs:1301-1329 | a drain sends exactly what the kernel's answers take, trying an interrupted write again, and fails exactly at an error |
| `TcpTally.CallShows` | src/tcp.rs:469-907 | after every call with all its reactions the bytes accepted and sent, the flags, the watermarks and the counts of pauses and losses are those that the calls with effect make |
| `TcpTally.BooksAgree` | src/tcp.rs:239-306 | the same over runs from the initial limits, with ends of file, drains and resumes |
| `TcpTally.EndedAcceptsNothing` | src/tcp.rs:853-872 | after a write_eof that had effect nothing is accepted |
| `TcpWitnesses.AbortTwice` | src/tcp.rs:880-907 | two aborts deliver the loss twice |
| `TcpWitnesses.WriteAfterClose` | src/tcp.rs:469-479 | a write after close leaves WRITABLE registered |
| `TcpWitnesses.ResumeAtEof` | src/tcp.rs:381-409 | resuming in `eof_received` leaves READABLE registered |
| `TcpWitnesses.CloseInResume` | src/tcp.rs:1363-1399 | closing in `resume_writing` delivers the loss twice |
| `TcpWitnesses.FailedDrainStrands` | src/tcp.rs:1321-1325 | a failed write handle leaves an open, paused transport with nothing to resume it |
| `TcpWitnesses.Crashes` | src/tcp.rs:566-572 | a failing direct write panics, and so does a close from `pause_writing` |
| `TcpTransport.UnlinkKeepsIndex` | src/event_loop.rs:400-410 | unlinking a transport keeps every listener's stream set equal to the attached transports that name it |
| `TcpTransport.EventLoop.TcpStreamAdd` | src/event_loop.rs:332-364 | the in-place update is `Add` for any entry and interest, its panic included, and no other fd changes |
| `TcpTransport.EventLoop.TcpStreamRem` | src/event_loop.rs:367-397 | the in-place update is `Rem` for any entry and interest, its panics included, and no other fd changes |
| `TcpTransport.EventLoop.UdpSocketAdd` | src/event_loop.rs:427-458 | the same for UDP |
| `TcpTransport.EventLoop.UdpSocketRem` | src/event_loop.rs:461-491 | the same for UDP |
| `TcpTransport.EventLoop.TcpStreamClose` | src/event_loop.rs:400-410 | the transport leaves `tcp_transports` and its listener's set; every other link stays |
| `TcpTransport.TCPTransport.constructor` | src/tcp.rs:239-306 | a new transport is in the machine's initial state |
| `TcpTransport.TCPTransport.TryWrite` | src/tcp.rs:469-602 | one `write` step of the machine, with the direct attempt, the queue, the interest and the pause; no other fd or link changes |
| `TcpTransport.TCPTransport.Enqueue` | src/tcp.rs:574-590 | what was not sent is queued, and WRITABLE added if the queue was empty |
| `TcpTransport.TCPTransport.FailedWrite` | src/tcp.rs:552-572 | the error arm: the loss is announced with the state still held, and then the panic |
| `TcpTransport.TCPTransport.PauseIfFull` | src/tcp.rs:591-616 | above high and not paused: `pause_writing` once |
| `TcpTransport.TCPTransport.SetWriteBufferLimits` | src/tcp.rs:764-803 | the limits as computed, and a pause if they are exceeded |
| `TcpTransport.TCPTransport.PauseReading` | src/tcp.rs:735-747 | once, and not when closing |
| `TcpTransport.TCPTransport.ResumeReading` | src/tcp.rs:749-761 | only when paused, and not when closing |
| `TcpTransport.TCPTransport.WriteEof` | src/tcp.rs:853-872 | unless closing, sets the end of writing, and shuts the write side down at once if nothing is pending |
| `TcpTransport.TCPTransport.GetWriteBufferSize` | src/tcp.rs:805-813 | the cached size, or a panic while a write holds the cell |
| `TcpTransport.TCPTransport.IsTls` | src/tcp.rs:649-651 | the same borrow; false for a plain transport |
| `TcpTransport.TCPTransport.Close` | src/tcp.rs:653-719 | stops reading; the loss at once if nothing is pending |
| `TcpTransport.TCPTransport.Abort` | src/tcp.rs:880-907 | stops both, and the loss in any case |
| `TcpTransport.TCPTransport.CallConnLost` | src/tcp.rs:450-463 | the callback with all it calls back, then the unlink |
| `TcpTransport.TCPTransport.WriteChunks` | src/tcp.rs:1301-1329 | the loop over the queue is the machine's drain |
| `TcpTransport.TCPTransport.WriteBufSizeDecr` | src/tcp.rs:368-378 | at or below low and paused: `resume_writing` once |
| `TcpTransport.TCPTransport.LoseDrained` | src/tcp.rs:412-447 | a drained closing transport is lost, its interest dropped and itself unlinked |
| `TcpTransport.TCPTransport.Conclude` | src/tcp.rs:1371-1418 | the three ways a write handle ends |
| `TcpTransport.TCPTransport.RunWriteHandle` | src/tcp.rs:1333-1420 | one `Writable` event of the machine; nothing if the transport is gone |
| `TcpTransport.TCPTransport.CloseFromReadHandle` | src/tcp.rs:381-409 | closing at end of file, with or without pending bytes |
| `TcpTransport.TCPTransport.RecvEof` | src/tcp.rs:1122-1138 | READABLE dropped, `eof_received`, then the close unless kept open |
| `TcpTransport.TCPTransport.HandleRound` | src/tcp.rs:1084-1170 | one turn of the read loop: `get_buffer` of a buffered protocol, then its data delivered unchanged, then the end of file if it is met |
| `TcpTransport.TCPTransport.RunReadHandle` | src/tcp.rs:1141-1176 | one `Readable` event of the machine; the protocol hears all the data the kernel gives and the end of file once, after it |
| `TcpTransport.ReadLoop` | src/tcp.rs:1100-1120 | the read loop is the machine's `ReadInto` and fits the buffer |
| `TcpTransport.DrainLoop` | src/tcp.rs:1301-1329 | the loop over `write_buf`, with its pops and push-backs, is the machine's drain; it returns the bytes sent |
| `TcpServer.TcpListenerAdd` | src/event_loop.rs:304-314 | every listener has its stream set; the index survives exactly if no attached transport names the listener |
| `TcpServer.TcpListenerRem` | src/event_loop.rs:316-330 | the entry leaves the table, and a listener also its streams and the poller; a panic exactly if the entry was not a listener's; nothing else changes |
| `TcpServer.Accept` | src/event_loop.rs:222-249 | an accepted stream is attached in the initial state, over any stale entry of its fd, and indexed under its listener; the `unwrap` is safe |
| `TcpServer.HandleIoTcpl` | src/event_loop.rs:222-249 | the accept loop attaches each stream and no other, and keeps the index |
| `TcpServer.AbortDetaches` | src/tcp.rs:880-907 | an abort, at rest or inside any callback, panics exactly if the watch says so, and else detaches the transport |
| `TcpServer.AbortTellsOnce` | src/tcp.rs:880-907 | whatever its reaction, the protocol is told exactly once exactly if it had not been told before and neither aborts nor has a direct write fail in it |
| `TcpServer.AbortOne` | src/tcp.rs:127-129 | aborting one connection leaves its siblings and every other fd as they were |
| `TcpServer.AbortEach` | src/tcp.rs:127-129 | each of the listed connections is aborted exactly once, no other is touched; a panic exactly if one of them panics |
| `TcpServer.StreamsAbort` | src/tcp.rs:117-130 | each live connection of a listener, at rest or inside any callback, is aborted once, and told once unless it had been told or repeats the loss itself; none is left; a panic exactly if one of the aborts panics |
| `TcpServer.ServerClose` | src/tcp.rs:96-101 | and the listener is forgotten, with no connection left that names it |
| `ReadyQueue.CounterIsExact` | src/event_loop.rs:139-144 | in every interleaving, lock or no lock, the counter is queue length plus taken-not-subtracted minus pushed-not-added modulo the word size, hence the queue length when nobody is mid-operation |
| `ReadyQueue.HandlesRunInOrder` | src/event_loop.rs:178-183 | in every interleaving handled, batched and queued handles are the scheduled ones, in order, each once |
| `ReadyQueue.PushesAreKept` | src/event_loop.rs:949-971 | and they are exactly the handles that callbacks and producers pushed |
| `ReadyQueue.TakenIsDone` | src/event_loop.rs:139-183 | every handle taken from the queue, from I/O or from timers is run or skipped in its turn or still to come; a wake-up is pending exactly if one was sent to an idle loop since poll last returned |
| `ReadyQueue.NoLostWakeUp` | src/event_loop.rs:94-137 | under the lock, a loop blocked in poll with handles queued has been woken, unless the producer is still at it |
| `ReadyQueue.WakeUpLostWithoutLock` | src/event_loop.rs:298-302 | without the lock it may not have been |
| `ReadyQueue.SleepTakesEarlyLook` | src/event_loop.rs:94-120 | lock or no lock, a loop is left asleep over queued handles only if a producer looked at `idle` between the loop's load of the counter and its store of `idle` |
| `EdgePoll.StuckExactly` | src/event_loop.rs:252-259 | under edges, pending bytes that the kernel would take are without event and handle exactly after an event that reported both, until a registration, a write handle's end or new readiness of interest |
| `EdgePoll.ChatterStarves` | src/event_loop.rs:252-259 | however long the peer goes on sending, such bytes stay: every event starts a read handle |
| `EdgePoll.PauseFrees` | src/event_loop.rs:384-392 | registering WRITABLE alone, as pause_reading does, starts the write handle |
| `EdgePoll.ReadHidesWrite` | src/event_loop.rs:252-259 | a run that gets there |
| `ReadyQueue.BatchIsBounded` | src/event_loop.rs:178-183 | whatever is scheduled meanwhile, a step runs the batch it took and nothing joins it |
| `ReadyQueue.ApplyCounts` | src/event_loop.rs:522-530 | every atomic step keeps the counter's meaning |
| `ReadyQueue.ApplyWakesUp` | src/event_loop.rs:949-971 | every atomic step under the lock keeps the wake-up invariant |
| `Timers.TopIsEarliest` | src/time.rs:18-34 | the reversed order makes the heap's top the earliest timer, and conversely |
| `Timers.Peek` | src/time.rs:24-34 | the timer peeked at is one of the earliest |
| `Timers.PopDue` | src/event_loop.rs:162-175 | the timer phase takes exactly the timers due at its tick, each as often as it is in the heap, earliest first |
| `Timers.FiringIsDetermined` | src/event_loop.rs:162-175 | ties aside, there is one way to fire |
| `Timers.PollTimeout` | src/event_loop.rs:94-111 | never past the earliest deadline that lies ahead, exact below a word, unlimited exactly with no ready work and no timer ahead |
| `Timers.TimersFireInOrder` | src/event_loop.rs:973-993 | over whole runs with a monotone clock timers fire in order of deadline, none early, each added one exactly once or still waiting |
| `Timers.RequestsAreKept` | src/event_loop.rs:973-993 | the timers fired and waiting are those asked for, due their delay from the time of the call |
| `Timers.OversleepsExactly` | src/event_loop.rs:94-119 | in every run, poll is entered without limit while timers wait exactly when nothing is ready and one fell due since the last timer phase |
| `Timers.OverduePollHasNoLimit` | src/event_loop.rs:103-110 | a run that does so |
| `LoopStep.ActAllEffect` | src/event_loop.rs:932-946 | a callback's scheduling goes behind the queue and is counted |
| `LoopStep.BatchQueuesBehind` | src/event_loop.rs:178-183 | nothing that a batch schedules joins it, and the counter keeps its distance to the queue |
| `LoopStep.BatchRunsOnce` | src/event_loop.rs:178-183 | a batch is gone through once, in order |
| `LoopStep.SkippedIffCancelled` | src/event_loop.rs:180-182 | each handle runs, or is skipped exactly if cancelled by the time its turn comes |
| `LoopStep.BatchTakesEffect` | src/event_loop.rs:178-183 | after a batch the ready queue, the heap and the cancelled handles are the old ones and what the callbacks that ran queued, timed and cancelled, in order |
| `LoopStep.EventLoop.CallSoon` | src/event_loop.rs:932-946 | push and count |
| `LoopStep.EventLoop.CallLater` | src/event_loop.rs:973-993 | the deadline is now plus the delay |
| `LoopStep.EventLoop.RunCallbacks` | src/event_loop.rs:178-183 | the pop loop goes through the batch once, in order, and every callback that is run takes its effect |
| `LoopStep.EventLoop.Step` | src/event_loop.rs:139-187 | a step goes through the old queue, then I/O, then exactly the due timers, and leaves what their callbacks queued, timed and cancelled |
| `TokioScheduler.TasksAreConserved` | src/tokio_event_loop.rs:409-557 | for every choice of branches: immediates out of the handle channel, in it and in the scheduler channel are those sent, in order; every accepted timer is in exactly one place; none is released before its deadline |
| `TokioScheduler.ApplyKeeps` | src/tokio_event_loop.rs:415-556 | every branch and every send keeps that |
| `TokioScheduler.ReceivedKeeps` | src/tokio_event_loop.rs:417-432 | a task moved from one channel to the next stays ahead of what was sent after it |
| `TokioScheduler.ReleasedKeeps` | src/tokio_event_loop.rs:435-465 | due timers join the handle channel, cancelled ones are dropped, none is lost |
| `TokioScheduler.LiveIsExact` | src/tokio_event_loop.rs:448-461 | a due timer is sent as often as it is due if it is not cancelled, and never if it is |
| `TokioScheduler.LiveKeepsOrder` | src/tokio_event_loop.rs:448-461 | in the order in which they pop, each kept or left out by itself |
| `TokioScheduler.PhasesAreExact` | src/tokio_event_loop.rs:409-557 | a branch leads to the stop check unless it is a signal nobody listens for, the check back to `select!` exactly if the flag is not set |
| `TokioScheduler.BooksAgree` | src/tokio_event_loop.rs:226-557 | over runs: sent is what was scheduled while neither stopping nor closed; a task is skipped exactly if cancelled; released timers were not cancelled, discarded ones were; the flags and returns of `_run` are as the events left them |
| `TokioScheduler.SignalStops` | src/tokio_event_loop.rs:498-556 | SIGINT or SIGTERM stops the loop at its next check unless the flag is taken back |
| `TokioScheduler.LossNeedsExit` | src/tokio_event_loop.rs:406-557 | every task out of the handle channel was run or skipped as cancelled exactly in the runs in which `_run` never returned with handles in it, and no timer was lost exactly if it never returned with timers in its heap |
| `TokioScheduler.LeavingLoses` | src/tokio_event_loop.rs:509-556 | the same step by step |
| `TokioScheduler.StopLosesHandles` | src/tokio_event_loop.rs:553-556 | stopping between the channels loses an accepted task |
| `TokioScheduler.StopLosesTimers` | src/tokio_event_loop.rs:553-556 | stopping before its deadline loses an accepted timer |
| `TokioEventLoop.TEventLoop.ScheduleHandle` | src/tokio_event_loop.rs:226-258 | sends at the end of the channel, and nothing once stopping or closed |
| `TokioEventLoop.TEventLoop.TakeTask` | src/tokio_event_loop.rs:417-432 | the scheduler channel's branch |
| `TokioEventLoop.TEventLoop.ReleaseTimers` | src/tokio_event_loop.rs:435-465 | the timer branch releases exactly what is due, or sleeps |
| `TokioEventLoop.TEventLoop.SendLive` | src/tokio_event_loop.rs:448-461 | the popped timers that are not cancelled are sent, in order, each as often as it popped, and no cancelled one |
| `TokioEventLoop.TEventLoop.TakeSignal` | src/tokio_event_loop.rs:468-517 | SIGINT and SIGTERM set the stop flag; the loop is left when nobody listens |
| `TokioEventLoop.TEventLoop.TakeHandle` | src/tokio_event_loop.rs:524-550 | the handle channel's branch |
| `TokioEventLoop.TEventLoop.Iterate` | src/tokio_event_loop.rs:409-557 | one iteration: a branch, what happens during it, and the stop check |
| `TokioEventLoop.BranchTakes` | src/tokio_event_loop.rs:415-550 | what each branch takes from its channel or the heap and where it puts it |
| `TokioEventLoop.TurnTakesCalls` | src/tokio_event_loop.rs:409-557 | everything that comes in during an iteration takes effect in order, before its branch and after it |
| `TokioEventLoop.TEventLoop.Run` | src/tokio_event_loop.rs:369-557 | the whole loop follows the scheduler's machine turn by turn and is left exactly when it says so |
| `TokioIo.LedgerKept` | src/tokio_tcp.rs:245-283 | chunks out of the buffer and in it are those written, in order; the wire is a part of each in turn |
| `TokioIo.SealingKept` | src/tokio_tcp.rs:268-278 | the write side is shut down once, after write_eof, with an empty buffer |
| `TokioIo.GrammarKept` | src/tokio_tcp.rs:209-243 | every step keeps the callback grammar |
| `TokioIo.TaskIsSound` | src/tokio_tcp.rs:166-320 | all three over every interleaving of branches and calls |
| `TokioIo.BooksAgree` | src/tokio_tcp.rs:166-492 | over runs: accepted is what was written before the end of writing, the flags are as the calls with effect left them, the wire has as many bytes as the kernel took, and reads, end of file, error and shutdown are those that occurred |
| `TokioIo.PlacesAreExact` | src/tokio_tcp.rs:191-303 | where each step leads: the loop is left exactly on a close at its head, a read error, or after the end of file with an empty buffer; the write branch is offered exactly while it has work |
| `TokioIo.CallbackGrammar` | src/tokio_tcp.rs:166-320 | the callbacks are the data read, in order, then at most one `eof_received`, then one `connection_lost` exactly when the task is gone, which needs a close, an end of file or a read error |
| `TokioIo.LossIsExact` | src/tokio_tcp.rs:245-266 | a step loses bytes exactly if it drops or fails a half-written chunk or aborts with bytes in the buffer |
| `TokioIo.BytesSurvive` | src/tokio_tcp.rs:245-283 | wire, chunk in flight and buffer are all the bytes written, in order, exactly in the runs without such a step |
| `TokioIo.DeliveryIsExact` | src/tokio_tcp.rs:193-243 | a step leaves bytes unsent for good exactly if it loses some, sees a close or a read error with some in the buffer, or accepts a write once the task has left its loop |
| `TokioIo.DeliveredExactly` | src/tokio_tcp.rs:166-320 | when `connection_lost` has been delivered, every byte written is on the wire exactly in the runs without such a step |
| `TokioIo.ShutdownComesLast` | src/tokio_tcp.rs:268-278 | in those runs the shutdown comes after every byte written |
| `TokioIo.CloseAbandonsBuffer` | src/tokio_tcp.rs:193-201 | once the task sees the close nothing more is sent and only the loss is delivered |
| `TokioIo.PauseStopsWriting` | src/tokio_tcp.rs:203-207 | paused, the task neither reads nor writes until resumed or closed |
| `TokioIo.CutWriteLosesBytes` | src/tokio_tcp.rs:257-266 | a tick during `write_all` loses the rest of the chunk |
| `TokioIo.CloseLosesBuffer` | src/tokio_tcp.rs:473-483 | write then close sends nothing |
| `TokioIo.ReadErrorLosesBuffer` | src/tokio_tcp.rs:238-241 | nor does write then a read error |
| `TokioTransport.TokioTCPTransport.Write` | src/tokio_tcp.rs:410-423 | refused exactly after write_eof; else the chunk joins the buffer |
| `TokioTransport.TokioTCPTransport.WriteEof` | src/tokio_tcp.rs:433-445 | both copies of the flag, unless closing |
| `TokioTransport.TokioTCPTransport.PauseReading` | src/tokio_tcp.rs:451-460 | both copies of the flag, unless closing |
| `TokioTransport.TokioTCPTransport.ResumeReading` | src/tokio_tcp.rs:462-471 | both copies of the flag, unless closing |
| `TokioTransport.TokioTCPTransport.Close` | src/tokio_tcp.rs:473-483 | marks the close and leaves the buffer |
| `TokioTransport.TokioTCPTransport.Abort` | src/tokio_tcp.rs:485-492 | marks the close and clears the buffer, unless closing |
| `TokioTransport.TokioTCPTransport.PopChunk` | src/tokio_tcp.rs:247-254 | the lock region that pops a chunk and decides on the shutdown |
| `TokioTransport.TokioTCPTransport.PollWriter` | src/tokio_tcp.rs:245-279 | one poll of the write branch is a sequence of the machine's steps |
| `TokioTransport.PollSends` | src/tokio_tcp.rs:245-278 | a poll sends the head of the buffer as far as the kernel takes it, and shuts down exactly if writing has ended and nothing is left |
| `TokioTransport.FailingPollDrops` | src/tokio_tcp.rs:257-260 | a failed write drops its chunk and ends the branch |
| `TokioTransport.PollShutsDown` | src/tokio_tcp.rs:268-278 | with an empty buffer and writing ended, a poll shuts down |
| `TokioTransport.TokioTCPTransport.Race` | src/tokio_tcp.rs:209-287 | the branches race with calls coming in between |
| `TokioTransport.TokioTCPTransport.Win` | src/tokio_tcp.rs:211-243 | the read arms and the tick |
| `TokioTransport.WinnerTells` | src/tokio_tcp.rs:211-243 | the branch that completes tells the protocol exactly what was read |
| `TokioTransport.RacePolls` | src/tokio_tcp.rs:209-287 | a race is gone through beat by beat: a poll sends, or loses, the head of the buffer |
| `TokioTransport.TurnTells` | src/tokio_tcp.rs:191-303 | a turn sends what its race sends and tells exactly what was read |
| `TokioTransport.TurnTakesCalls` | src/tokio_tcp.rs:191-303 | every call that comes in during a turn takes effect, in order |
| `TokioTransport.TurnLeavesExactly` | src/tokio_tcp.rs:193-302 | a turn leaves the loop exactly if it finds a close at its head, meets a read error, or ends after the end of file with an empty buffer |
| `TokioTransport.CloseEndsTurn` | src/tokio_tcp.rs:198-201 | a turn that finds a close does nothing else than leave, whatever is buffered |
| `TokioTransport.TokioTCPTransport.ShouldExit` | src/tokio_tcp.rs:290-302 | left exactly after end of file with an empty buffer |
| `TokioTransport.TokioTCPTransport.Iterate` | src/tokio_tcp.rs:191-303 | one iteration of the loop; on a closing transport it leaves and tells nothing |
| `TokioTransport.TokioTCPTransport.IoProcessingLoop` | src/tokio_tcp.rs:166-320 | the whole task follows the machine; the grammar, the ledger and the shutdown rule hold; on a closing transport it is gone after one turn with exactly one `connection_lost` told |
| `PipeMachine.Limits` | rloop/transports.py:52-65 | defaults, the exact ValueError condition for any integers, and 0 <= low <= high |
| `PipeInvariant.ExecKeeps` | rloop/subprocess.py:248-358 | every call, with every reaction to the pause it causes, keeps the invariant |
| `PipeInvariant.NextKeeps` | rloop/subprocess.py:241-305 | every handle keeps it too, stale ones included |
| `PipeInvariant.RunIsSound` | rloop/subprocess.py:211-367 | hence every run |
| `PipeTally.CallShows` | rloop/subprocess.py:248-358 | after every call with all its reactions the bytes accepted and sent, the close, the refusals, the watermarks, the losses scheduled and the counts of pauses and exceptions are those that the calls with effect make |
| `PipeTally.BooksAgree` | rloop/subprocess.py:211-367 | the same over runs, with the loop's handles |
| `PipeTally.EndCloses` | rloop/subprocess.py:310-331 | `write_eof` or `close` of an open pipe closes it, and schedules the loss at once exactly if nothing is buffered |
| `PipeTheorems.PipeLossOnce` | rloop/subprocess.py:360-367 | `connection_lost` at most once and exactly when the pipe is closed; a closing transport still has it coming |
| `PipeWatch.ThrowsInDrops` | rloop/subprocess.py:248-358 | a call with all its reactions throws bytes away exactly if some write fails at once or some abort finds bytes in the buffer |
| `PipeWatch.ThrownDrops` | rloop/subprocess.py:241-305 | the same over runs, with hang-ups and failed writes of the handler |
| `PipeTheorems.PipeBytes` | rloop/subprocess.py:248-305 | kernel bytes are a prefix of the accepted ones; with the buffer they are all of them exactly when no such call or event occurred |
| `PipeTheorems.ThrownNeedsBreak` | rloop/subprocess.py:338-358 | bytes are thrown away only on a transport closed by an error, an abort or a hang-up, or one that stranded bytes |
| `PipeTheorems.WriterMatchesBuffer` | rloop/subprocess.py:274-298 | the writer is registered exactly while the buffer is non-empty, so the assertion at its head holds; a closed transport leaves nothing registered exactly if nothing was stranded |
| `PipeTheorems.PipeFlowControl` | rloop/transports.py:12-37 | paused and not closing means bytes pending; above high means paused; pauses and resumes alternate |
| `PipeTheorems.StrandedExactly` | rloop/subprocess.py:295-303 | bytes are stranded exactly when `resume_writing` returned with the transport closing and bytes buffered, and `connection_lost` did not abort it |
| `PipeTheorems.GracefulCloseDelivers` | rloop/subprocess.py:300-302 | a closed pipe has delivered every accepted byte exactly when none was thrown away or stranded |
| `PipeTheorems.CloseInResumeStrands` | rloop/subprocess.py:299-302 | a run that does so |
| `PipeTheorems.ResumesExactly` | rloop/subprocess.py:295-305 | `resume_writing` is called exactly when the kernel takes the whole buffer of a paused protocol, wherever the low mark is |
| `PipeTheorems.LowMarkHasNoEffect` | rloop/transports.py:32-37 | two runs that differ in valid low marks at most, the high marks given, make the same callbacks and send the same bytes |
| `PipeTheorems.PartialDrainStaysPaused` | rloop/subprocess.py:304-305 | a run that stays paused below the low mark |
| `PipeTransport.PipeWriteTransport.constructor` | rloop/subprocess.py:212-227 | a new transport is in the machine's initial state |
| `PipeTransport.PipeWriteTransport.MaybePauseProtocol` | rloop/transports.py:12-30 | one pause, with all it calls back; the invariant kept |
| `PipeTransport.PipeWriteTransport.MaybeResumeProtocol` | rloop/transports.py:32-47 | one resume, with all it calls back |
| `PipeTransport.PipeWriteTransport.SetWriteBufferLimits` | rloop/transports.py:67-69 | the limits or an error, then the pause if exceeded |
| `PipeTransport.PipeWriteTransport.Write` | rloop/subprocess.py:248-277 | one `write` step of the machine; the invariant kept |
| `PipeTransport.PipeWriteTransport.WriteNow` | rloop/subprocess.py:258-276 | the direct attempt: failed, or so many bytes sent and the rest buffered |
| `PipeTransport.PipeWriteTransport.WriteEof` | rloop/subprocess.py:310-317 | closing, and the loss scheduled if nothing is buffered; `assert self._pipe` holds |
| `PipeTransport.PipeWriteTransport.Close` | rloop/subprocess.py:328-331 | write_eof once |
| `PipeTransport.PipeWriteTransport.Abort` | rloop/subprocess.py:338-339 | `_close`; the invariant kept |
| `PipeTransport.PipeWriteTransport.Shut` | rloop/subprocess.py:352-358 | the buffer dropped, both registrations gone, the loss scheduled; an error once the loop is gone |
| `PipeTransport.PipeWriteTransport.CallConnectionLost` | rloop/subprocess.py:360-367 | the callback once, then everything let go; an error the second time |
| `PipeTransport.PipeWriteTransport.ReadReady` | rloop/subprocess.py:241-246 | a hang-up closes the transport |
| `PipeTransport.PipeWriteTransport.RunScheduledLoss` | rloop/subprocess.py:358-367 | a scheduled loss leaves the transport at rest |
| `PipeTransport.PipeWriteTransport.FullDrain` | rloop/subprocess.py:296-303 | the buffer sent, the writer removed, the protocol resumed, a pending close completed |
| `PipeTransport.PipeWriteTransport.WriteReady` | rloop/subprocess.py:279-305 | one write handle of the machine; the transport at rest after it |
| `Interleave.ByFamily` | rloop/utils.py:85-91 | the ordered dictionary holds each family's addresses in order, families by first appearance |
| `Interleave.Zip` | rloop/utils.py:97 | the rounds of `zip_longest` without the gaps |
| `Interleave.InterleaveAddrinfos` | rloop/utils.py:84-98 | head start and rounds; on an empty list IndexError exactly if a head start is asked for |
| `Interleave.InterleavingPermutes` | rloop/utils.py:84-98 | the output is a permutation of the input |
| `Interleave.FamilyOrderIsKept` | rloop/utils.py:84-98 | each family comes out whole and in its own order |
| `Interleave.StartsWithFirstFamily` | rloop/utils.py:94-96 | it starts with min(count, size) addresses of the first family, at least one |
| `Interleave.SecondFamilyComesNext` | rloop/utils.py:94-97 | the second family's first address stands right behind min(count, size) addresses of the first, at least one |
| `Interleave.FamiliesTakeTurns` | rloop/utils.py:97 | after the head start each address stands behind all earlier rounds and the families ahead of it that reach its round |
| `Interleave.RoundRobinAt` | rloop/utils.py:97 | one address per round from each list that still has any, at the position the rounds give |

## Left out

- TLS in src/tcp.rs and all of src/ssl.rs: it rests on rustls, and ciphertext taken from it is dropped on WouldBlock.
- The UDP transport (src/udp.rs): its send path borrows its state twice. The UDP interest functions are in.
- Python reader and writer entries (`add_reader`, `add_writer`) and the `sock_*` helpers: on an existing entry they reregister the old interest and unwrap the other callback, so the table and the poller need not agree. The pipe model speaks of the loop's table, not of what the poller was told.
- The stubs of the tokio loop: `add_reader`, `add_writer`, UDP, SSL, signals beyond the stop flag, and the closed-channel arms, which need the loop itself to be gone.
- Server close through `streams_close`, the accept loop's error arm, `connection_made`: the TCP model starts after attachment, since `connection_made` of a client runs before it.
- `_run` of the RLoop around `step`: signal wake-ups, errors of poll, the 250 microsecond skip beyond its effect of not polling.
- Exceptions raised by callbacks, the exception handlers, contexts and the exception passed to `connection_lost`.
- The kernel's own failures to register an fd, and the wake after an interest change.
- Timers added from other threads: with those a later step may fire an earlier deadline.
- An endless stream of Interrupted: the kernel's answers to one handle are a finite list, after which it blocks.
- The moment at which the stream of a detached transport is closed, and with it what the kernel then forgets about the fd.
- Name resolution, subprocess spawning, child watchers, the read end of pipes and the loop policy: they call into the operating system or asyncio and share no state with the parts modelled here.
- EdgePoll: the poller is that of Linux, where a registration anew reports what is ready; the other pollers report readable and writable as two events.
- TcpServer.HandleIoTcpl: asks that no accepted fd belongs to an attached transport, whose open stream keeps the kernel from handing it out; leaves `connection_made` to its handle.
- TcpGentle.GentleRunsSurvive: sufficient only; the exact condition is that of `PanicsExactly`.
- `call_connection_lost` of the TCP transport (src/tcp.rs:909-915), an entry point for Python beside asyncio's own: it delivers the loss without closing, so it repeats it outside the conditions of `LossDeliveredAtMostOnce` and leaves READABLE registered.
- TcpServer.ServerClose: callbacks act on their own connection only; what a panic leaves behind is not described.
- ReadyQueue.NoLostWakeUp: assumes the interpreter lock, which gives the handshake its atomicity; without it the claim is false.
- Timers.TimersFireInOrder: the clock is monotone and timers come from the loop thread.
- TokioEventLoop.TEventLoop.Run: follows as many iterations as it is given; that the loop ever stops is the environment's doing.
- TokioTransport.TokioTCPTransport.IoProcessingLoop: follows as many iterations as it is given, as above; a panic in the task is not modelled.
- Interleave.InterleaveAddrinfos: an address is its family and an endpoint number; the other fields of the tuple only travel along.
