# HyperTicket, verified

A Dafny model of the parts of HyperTicket in which a mistake is easy to make and hard to see, with proofs
of what they promise over whole runs. `dafny verify dfyconfig.toml` checks all of it.

Most parts come in two layers. A file such as `TimerQueue.dfy` holds the state as a value, the operations
on it, the invariants and the theorems about every run. A file such as `TimerQueueObject.dfy` holds the
object of the C++ code, with its fields updated in place and its loops, and proves each method against the
operation it carries out; the asserts of the C++ code are proof obligations there. What happens outside
the program (sockets, MySQL, Redis, clocks, the allocator, other threads) is a parameter or a
nondeterministic choice.

- `Basics` has what several parts share.
- **Timer queue** (`OrderedSet`, `TimerQueue`, `TimerArming`, `TimerOutcomes`, `TimerRuns`,
  `TimerDeadlines`, `TimerQueueObject`). Two indexes over hand-owned timers, a batch whose callbacks add
  and cancel timers, one timerfd that is set neither too late nor too early. The heap is explicit: each
  access of the modelled code to a timer is proved to find it alive.
- **Octet streams** (`Endian`, `Buffer`, `TcpConnection`, `TcpRuns`, `TcpLifetimes`, `TcpProgress`,
  `TcpConnectionObject`, `Framing`). The gap buffer is a plain sequence of octets; the connection, used by
  its loop and any number of other threads, delivers accepted messages in order under any short writes,
  drains, and does not forget a close; when it half-closes after everything and when its destructor is
  safe are stated exactly; lines do not depend on how TCP cuts the stream, exactly when they fit.
- **Event loop** (`EventLoop`, `EventLoopObject`). A machine of atomic steps of the loop thread and any
  number of other threads: no lost wakeup and no needless one, functors once and in order, quits not slept
  through.
- **Rate limiting** (`RateLimiter`, `ClientRateLimiter`). The token bucket as a minimum over windows,
  which gives the exact condition of a refusal; each client has one of its own, and purging their table
  cannot be observed.
- **Orders, seats and payments** (`OrderTables`, `OrderInvariants`, `OrderRuns`, `OrderOutcomes`,
  `OrderDatabase`, `OrderService`). The tables, the effect of each transaction on each row, the invariants
  of every interleaving, and the transactions statement by statement with failing statements and uncertain
  commits.
- **Order queue** (`OrderQueue`, `OrderQueueObject`, `OrderPipeline`). The Lua scripts and stream
  commands, stock conservation, and the way of a request through Redis and MySQL with consumers that crash
  anywhere.
- **Connection pools** (`ConnectionPool`, `ConnectionPoolObject`). Slot conservation for the MySQL and the
  Redis pool among any threads.
- **Seat labels** (`Seats`). Bijective base 26, printed in C++ and parsed in TypeScript.

## Where the code does not keep a promise

In each case the exact condition is proved.

- A message callback on a stream with a complete line over the limit answers or closes depending on how
  TCP cut the stream (`Framing.ChunkingInvisibleExactly`).
- A shutdown that is queued when the peer hangs up shuts the write half over unsent octets
  (`TcpRuns.CutExactly`, `CutHappens`).
- `shutdown`, `forceClose` and `forceCloseWithDelay` test and store `state_` in two actions. A store of
  another thread that lands after a close reopens the connection: octets can be left unsent with write
  interest off, and `handleClose` can run a second time (`TcpRuns.AlwaysArmedExactly`,
  `ClosedForGoodExactly`, `LateStoreCuts`, `LateStoreClosesTwice`).
- `connectDestroyed` leaves a closing connection as it is, and then the assert of the destructor can fail
  (`TcpLifetimes.DestroyedExactly`, `DestructorFails`; `DestructorHoldsExactly` from any moment on).
- A functor queued by the loop thread before `loop()` waits through a sleep, and a quit before `loop()` is
  forgotten (`EventLoops.NoLostWakeup`, `EarlyQueueIsStranded`, `QuitBeforeLoopIsLost`). The comment at
  `backend/Inet/src/EventLoop.cpp:109` asks about the latter.
- `terminalFailure` adds stock for an entry that no longer waits (`OrderQueues.TerminalFailureExactly`,
  `ReclaimedTwiceOversells`).
- `cancelTicket` reads a failed look-up of the payment as "no payment": the order is cancelled and its
  money is never refunded (`OrderRuns.OverlookedExactly`, `OverlookedStays`).
- `payOrder` relies on the isolation level of the server. At REPEATABLE READ, MySQL's default, it looks
  for an active payment in a snapshot that may be older than its row lock, and an order can get two active
  payments (`OrderRuns.AlwaysOneActiveExactly`, `TwoActivePayments`). The containers run at READ COMMITTED
  (`docker/mysql/my.cnf:69`), where only a failed look-up can cause that (`ReadCommittedKeepsOne`). Only
  one of the two can confirm the order, and the other is refunded.
- `Buffer::shrink` empties the buffer (`Buffers.Buffer.Shrink`).

## Model

| member | source | states |
|---|---|---|
| OrderedSet.FirstAfter | backend/Inet/src/TimerQueue.cpp:127-132 | lower bound of the sentry: everything before it expires at or before now, everything from it on later |
| OrderedSet.Insert | backend/Inet/src/TimerQueue.cpp:184-188 | the set gains exactly the entry and stays strictly ordered |
| OrderedSet.Erase | backend/Inet/src/TimerQueue.cpp:87-88 | the set loses exactly the entry and stays strictly ordered |
| TimerQueues.HowMuchTimeFromNow | backend/Inet/src/TimerQueue.cpp:24-35 | the relative time is the distance to the expiry or 100 microseconds, whichever is more, as seconds and nanoseconds |
| TimerQueues.DueIsExact | backend/Inet/src/TimerQueue.cpp:121-136 | the expired entries are exactly those of the index with expiry at or before now, in order |
| TimerQueues.CreateKeeps | backend/Inet/src/TimerQueue.cpp:222-233 | creating a timer in any thread keeps the invariants and uses a new sequence number, even at an address used before |
| TimerQueues.AddKeeps | backend/Inet/src/TimerQueue.cpp:63-75 | an arriving add finds its timer alive and in neither index, and keeps all invariants, also inside a batch |
| TimerQueues.CancelKeeps | backend/Inet/src/TimerQueue.cpp:76-97 | a cancel keeps all invariants; the entry it erases is there under the expiry the timer has now |
| TimerQueues.TakeFirstKeeps | backend/Inet/src/TimerQueue.cpp:134-143 | taking expired entries out of both indexes one by one keeps all invariants |
| TimerQueues.SettleKeeps | backend/Inet/src/TimerQueue.cpp:150-157 | reset meets a live timer, puts it back into both indexes or deletes it, and keeps all invariants |
| TimerArming.AddInTime | backend/Inet/src/TimerQueue.cpp:63-75 | after an add, the timerfd is armed early enough for the earliest timer if it was before |
| TimerArming.CancelInTime | backend/Inet/src/TimerQueue.cpp:76-97 | a cancel, of the earliest timer too, leaves the timerfd early enough |
| TimerArming.HandleReadInTime | backend/Inet/src/TimerQueue.cpp:99-119 | after any firing, spurious ones too, and any re-entrant adds and cancels, the timerfd is armed early enough again |
| TimerDeadlines.ActArms | backend/Inet/src/TimerQueue.cpp:63-97 | a re-entrant call sets the timerfd exactly when it adds a timer that expires before all others, and for that timer |
| TimerDeadlines.AddArms | backend/Inet/src/TimerQueue.cpp:63-75 | so does an add that arrives between batches |
| TimerDeadlines.AddedIsListed | backend/Inet/src/TimerQueue.cpp:222-233 | an added timer is queued with the expiry and the interval it was added with, at an address that was free |
| TimerDeadlines.HandleReadArms | backend/Inet/src/TimerQueue.cpp:158-166 | after a batch the timerfd is set for the earliest timer of valid expiry and to no earlier than it; with none left it is as before, stopped if it had fired, or as a callback set it |
| TimerDeadlines.NeverTooEarly | backend/Inet/src/TimerQueue.cpp:52-167 | over every run, a deadline that is counted down to is that of a timer queued when it was set, or 100 microseconds after |
| TimerOutcomes.BatchOutcome | backend/Inet/src/TimerQueue.cpp:99-119 | what a batch does to each queued timer: a due one that repeats and is not cancelled is queued again for one interval from now in whole microseconds, any other due one is deleted, one not due stays, and a cancelled one is deleted and barred |
| TimerOutcomes.BatchRuns | backend/Inet/src/TimerQueue.cpp:112-115 | a batch runs exactly the timers due when it began, earliest first, each once, whatever its callbacks add or cancel |
| TimerRuns.RunLater | backend/Inet/src/TimerQueue.cpp:63-167 | histories only grow: nothing that ran is undone, nothing barred or deleted comes back |
| TimerRuns.IndexesAgree | backend/Inet/src/TimerQueue.cpp:76-196 | (expiry, timer) is in one index exactly when (timer, sequence) is in the other, under the expiry the timer has now, and the sizes agree |
| TimerRuns.OnePlace | backend/Inet/src/TimerQueue.cpp:76-167 | at every moment, in the middle of a batch too, every timer created waits to be added, is queued, is in the running batch or is deleted, and only one of these |
| TimerRuns.AtMostOnce | backend/Inet/src/TimerQueue.cpp:89-90 | no timer is deleted twice and a one-shot timer runs at most once |
| TimerRuns.BarredNeverRuns | backend/Inet/src/TimerQueue.cpp:150-157 | a barred timer never runs again in any continuation |
| TimerRuns.CancelledNeverRuns | backend/Inet/src/TimerQueue.cpp:76-97 | a queued timer that is cancelled never runs again |
| TimerRuns.CancelledInBatchNeverRuns | backend/Inet/src/TimerQueue.cpp:92-95 | a timer queued before a batch and cancelled by a callback of it, its own batch too, never runs after that batch |
| TimerRuns.CancelledMidwayNeverRuns | backend/Inet/src/TimerQueue.cpp:76-97 | a timer that is queued when a callback of a batch cancels it, even one that an earlier callback of the batch added, never runs again from that moment on |
| TimerRuns.AlwaysInTime | backend/Inet/src/TimerQueue.cpp:52-167 | over every run, while a timer is queued the timerfd has fired or has a deadline no later than the earliest expiry or 100 microseconds after arming; expiries of any sign |
| TimerRuns.EveryRun | backend/Inet/src/TimerQueue.cpp:63-196 | the theorems together for every run from the empty queue, and in the middle of the batch that may follow, between any two calls of its callbacks |
| TimerQueueObject.TimerQueue.constructor | backend/Inet/src/TimerQueue.cpp:198-208 | a new queue stands for the empty one |
| TimerQueueObject.TimerQueue.NewTimer | backend/Inet/include/Timer.hpp:26-33 | the new timer has the next sequence number and lies at the address the allocator gave |
| TimerQueueObject.TimerQueue.ResetTimerfd | backend/Inet/src/TimerQueue.cpp:52-62 | the deadline is the expiry or 100 microseconds from now, whichever is later |
| TimerQueueObject.TimerQueue.InsertTimer | backend/Inet/src/TimerQueue.cpp:168-196 | both indexes gain the timer; the answer is whether it became the earliest; the insert asserts hold |
| TimerQueueObject.TimerQueue.AddTimerInLoop | backend/Inet/src/TimerQueue.cpp:63-75 | the fields end as the add operation says |
| TimerQueueObject.TimerQueue.CancelTimerInLoop | backend/Inet/src/TimerQueue.cpp:76-97 | the fields end as the cancel operation says; the size asserts and the erase assert hold |
| TimerQueueObject.TimerQueue.EraseActive | backend/Inet/src/TimerQueue.cpp:137-142 | the loop erases each expired timer from the second index, and its assert holds each time |
| TimerQueueObject.TimerQueue.GetExpired | backend/Inet/src/TimerQueue.cpp:121-145 | returns exactly the due entries, removes them from both indexes, and its asserts hold |
| TimerQueueObject.TimerQueue.RunCallback | backend/Inet/src/TimerQueue.cpp:112-115 | a callback that adds and cancels re-entrantly moves the fields as its calls say, one after the other |
| TimerQueueObject.TimerQueue.SettleTimer | backend/Inet/src/TimerQueue.cpp:151-156 | one round of the loop of reset |
| TimerQueueObject.TimerQueue.Reset | backend/Inet/src/TimerQueue.cpp:146-167 | all expired timers are re-queued or deleted; the timerfd is set for the earliest timer of valid expiry, and left alone without one |
| TimerQueueObject.TimerQueue.RunCallbacks | backend/Inet/src/TimerQueue.cpp:112-115 | runs every expired timer, each of which is still alive when its turn comes |
| TimerQueueObject.TimerQueue.HandleTimerfd | backend/Inet/src/TimerQueue.cpp:99-119 | the whole of handleRead carries out one batch, and ends with the timerfd set for the earliest timer of valid expiry |
| Endian.NetworkOrder | backend/Inet/include/Endian.hpp:12-14 | on hosts of either endianness a converted integer lies in memory most significant octet first (Appendix B of RFC 791) |
| Endian.MostSignificantFirst | backend/Inet/include/Endian.hpp:12-14 | octets in network order spell the integer when each counts 256 times the next |
| Endian.HostOrder | backend/Inet/include/Endian.hpp:16-18 | loading octets in network order and converting them gives the integer they spell, on either host |
| Endian.WireRoundTrip | backend/Inet/include/Buffer.hpp:129-187 | every signed integer of a width is read back from its octets |
| Endian.ParseRoundTrip | backend/Inet/include/Buffer.hpp:165-187 | every string of octets is the octets of the integer it parses to |
| Buffers.Buffer.constructor | backend/Inet/include/Buffer.hpp:43-47 | an empty buffer with the asked room behind and eight octets in front |
| Buffers.Buffer.Compact | backend/Inet/include/Buffer.hpp:32-37 | the overlapping copy to the front keeps the contents and frees the room in front |
| Buffers.Buffer.Grow | backend/Inet/include/Buffer.hpp:28 | a longer array with the same contents |
| Buffers.Buffer.MakeSpace | backend/Inet/include/Buffer.hpp:24-39 | contents unchanged, the asked room is there, and the array grows exactly when the free octets in front and behind would not do; the assert before compacting holds |
| Buffers.Buffer.EnsureWritableBytes | backend/Inet/include/Buffer.hpp:115-118 | contents unchanged and the asked room is there; nothing happens when it already was |
| Buffers.Buffer.Append | backend/Inet/include/Buffer.hpp:109-114 | the octets are added at the end |
| Buffers.Buffer.Fill | backend/Inet/include/Buffer.hpp:111-112 | the octets are added at the end without moving anything |
| Buffers.Buffer.HasWritten | backend/Inet/include/Buffer.hpp:121-124 | the octets just behind the readable ones become readable |
| Buffers.Buffer.Unwrite | backend/Inet/include/Buffer.hpp:125-128 | the last octets are dropped |
| Buffers.Buffer.Prepend | backend/Inet/include/Buffer.hpp:204-209 | the octets are added at the front |
| Buffers.Buffer.ReadFd | backend/Inet/src/Buffer.cpp:13-37 | what readv delivers is added at the end, spilled or not; an error changes nothing |
| Buffers.Buffer.RetrieveAll | backend/Inet/include/Buffer.hpp:98-101 | the contents become empty |
| Buffers.Buffer.Retrieve | backend/Inet/include/Buffer.hpp:83-87 | the first octets are dropped |
| Buffers.Buffer.RetrieveUntil | backend/Inet/include/Buffer.hpp:89-93 | the octets before a position are dropped |
| Buffers.Buffer.RetrieveAsString | backend/Inet/include/Buffer.hpp:103-108 | the first octets are returned and dropped |
| Buffers.Buffer.RetrieveAllAsString | backend/Inet/include/Buffer.hpp:102 | all octets are returned and dropped |
| Buffers.Buffer.FindEOL | backend/Inet/include/Buffer.hpp:70-73 | the position of the first newline, or none when there is no newline |
| Buffers.Buffer.AppendInt | backend/Inet/include/Buffer.hpp:129-144 | the integer is added at the end in network order, whatever the host |
| Buffers.Buffer.PrependInt | backend/Inet/include/Buffer.hpp:188-203 | the integer is added at the front in network order, whatever the host |
| Buffers.Buffer.PeekInt | backend/Inet/include/Buffer.hpp:165-187 | the integer that the first octets spell in network order, whatever the host |
| Buffers.Buffer.ReadInt | backend/Inet/include/Buffer.hpp:145-164 | that integer, and its octets are dropped |
| Buffers.Buffer.Swap | backend/Inet/include/Buffer.hpp:49-53 | the two buffers exchange their contents |
| Buffers.Buffer.Shrink | backend/Inet/include/Buffer.hpp:210-215 | the asked room is there, and the contents are empty |
| Buffers.Exchange | backend/Inet/include/Buffer.hpp:129-164 | an integer appended behind any contents on one host is read back behind them on another |
| TcpConnections.StepKeeps | backend/Inet/src/TcpConnection.cpp:116-519 | every call in the loop thread, every single atomic action of a call in another thread, every functor, timer and channel callback keeps the invariants of a connection |
| TcpRuns.DeliveredInOrder | backend/Inet/src/TcpConnection.cpp:158-225 | in every run, octets written followed by octets queued are exactly the accepted messages in order; write interest follows what is queued exactly unless another thread stored kDisconnecting over unsent octets after a close |
| TcpRuns.GivenUpExactly | backend/Inet/src/TcpConnection.cpp:166-201 | a message is given up exactly on a disconnected connection or when its own direct write fails with EPIPE or ECONNRESET |
| TcpRuns.AlwaysArmedExactly | backend/Inet/src/TcpConnection.cpp:236-303 | write interest follows what is queued all through a run exactly when no other thread stores kDisconnecting over unsent octets after a close |
| TcpRuns.ClosedForGoodExactly | backend/Inet/src/TcpConnection.cpp:236-303 | a close is for good all through a run exactly when no other thread stores kDisconnecting after it |
| TcpRuns.HalfCloseAfterDrain | backend/Inet/src/TcpConnection.cpp:236-256 | nothing is written after the half-close; on a connection not disconnected it came after everything accepted had been written, exactly unless a late store had stranded the rest |
| TcpRuns.CutExactly | backend/Inet/src/TcpConnection.cpp:248-256 | shutting the write half leaves octets unsent exactly when the connection was disconnected or stranded over them |
| TcpRuns.CutHappens | backend/Inet/src/TcpConnection.cpp:236-256 | a run in which that happens on a disconnected connection: a queued shutdown after a hang-up |
| TcpRuns.LateStoreCuts | backend/Inet/src/TcpConnection.cpp:236-256 | a run in which it happens on a closing connection: another thread tests the state in shutdown before a hang-up and stores it after |
| TcpRuns.LateStoreClosesTwice | backend/Inet/src/TcpConnection.cpp:271-289 | the same with forceClose: handleClose runs twice, and its assert holds both times |
| TcpRuns.ShutdownIsNotForgotten | backend/Inet/src/TcpConnection.cpp:473-476 | a closing connection with no functor, timer or thread that could still end it has shut its write half, and after everything accepted if nothing is queued |
| TcpRuns.HighWaterOnCrossing | backend/Inet/src/TcpConnection.cpp:210-215 | the high-water callback is queued exactly by the send that takes the queue from below the mark to it or above |
| TcpRuns.WriteCompleteMeansDrained | backend/Inet/src/TcpConnection.cpp:466-472 | a write event queues only the write-complete callback, and only with everything accepted on the wire |
| TcpRuns.SendCompleteMeansDrained | backend/Inet/src/TcpConnection.cpp:181-186 | a send queues the write-complete callback only with everything accepted on the wire |
| TcpRuns.ClosedTwiceExactly | backend/Inet/src/Channel.cpp:79-114 | among the bits a channel can get for the interest it registers, one poll event runs handleClose twice exactly on a hang-up with priority data and without input on a reading channel |
| TcpRuns.ClosedOncePerEvent | backend/Inet/src/Channel.cpp:79-114 | no event runs handleClose twice when a hang-up comes with input, as on a TCP socket it does |
| TcpProgress.ReadsExactly | backend/Inet/src/TcpConnection.cpp:315-374 | over every run, by the events alone: a connected connection has read interest exactly when no stop has come since the last of establishing and starting to read |
| TcpProgress.InputIsRead | backend/Inet/src/Channel.cpp:79-114 | on it the end of the stream is noticed exactly then |
| TcpProgress.HalfClosedStillReads | backend/Inet/src/TcpConnection.cpp:236-256 | nothing but a close, and starting and stopping, changes whether a connection reads; shutting down does not |
| TcpProgress.WritesWhatIsTaken | backend/Inet/src/TcpConnection.cpp:449-466 | a write event moves exactly the octets that the socket takes from the queue to the wire |
| TcpProgress.Drains | backend/Inet/src/TcpConnection.cpp:449-477 | when the socket takes an octet at a time, a waiting connection has everything accepted on the wire after as many write events as octets, turns write interest off, and has shut its write half if it is closing |
| TcpProgress.SendsAtOnce | backend/Inet/src/TcpConnection.cpp:174-223 | an idle connection writes a message at once and keeps exactly what the socket does not take, with write interest on |
| TcpProgress.WriteCompleteExactly | backend/Inet/src/TcpConnection.cpp:466-472 | a write event queues the write-complete callback exactly when it empties the queue |
| TcpProgress.SendCompleteExactly | backend/Inet/src/TcpConnection.cpp:181-186 | a send queues it exactly when the socket takes the whole message at once |
| TcpProgress.CloseIsNotForgotten | backend/Inet/src/TcpConnection.cpp:271-303 | a connection asked to close, at once or later, by the loop or another thread, is closed by the time that no close, delay or such thread is left |
| TcpProgress.CallsOutOfStateIgnored | backend/Inet/src/TcpConnection.cpp:116-303 | a call in a state it is not for changes nothing, in the loop or in another thread |
| TcpProgress.OutsideLikeInside | backend/Inet/src/TcpConnection.cpp:116-303 | a call from another thread that nothing comes between does what the call in the loop does, with the rest of it queued |
| TcpProgress.FunctorFinishes | backend/Inet/src/TcpConnection.cpp:116-256 | and its functor then does that rest, for a send and a shutdown |
| TcpLifetimes.DestructorHoldsExactly | backend/Inet/src/TcpConnection.cpp:75-79 | from any moment at which the owner has let go, the assert of the destructor is sure to hold, however everything begun ends, exactly when no thread is still to reopen the connection and it is disconnected, has a close to come, or is connected with connectDestroyed to run |
| TcpLifetimes.DestroyedExactly | backend/Inet/src/TcpConnection.cpp:75-79 | as connectDestroyed is about to run and no thread is about to store: the assert is sure to hold exactly when the connection is connected or disconnected, or a close is still to run |
| TcpLifetimes.DestructorFails | backend/Inet/src/TcpConnection.cpp:75-79 | a run in which the assert fails: a connection that is shutting down when its server is destroyed |
| TcpConnectionObject.Channel.EnableReading | backend/Inet/include/Channel.hpp:110-114 | read interest on, write interest as it was |
| TcpConnectionObject.Channel.DisableReading | backend/Inet/include/Channel.hpp:116-120 | read interest off, write interest as it was |
| TcpConnectionObject.Channel.EnableWriting | backend/Inet/include/Channel.hpp:122-127 | write interest on, read interest as it was |
| TcpConnectionObject.Channel.DisableWriting | backend/Inet/include/Channel.hpp:129-133 | write interest off, read interest as it was |
| TcpConnectionObject.Channel.DisableAll | backend/Inet/include/Channel.hpp:135-139 | no interest left |
| TcpConnectionObject.Channel.Remove | backend/Inet/src/Channel.cpp:54-61 | only a channel without interest is removed |
| TcpConnectionObject.Socket.Write | backend/Inet/src/TcpConnection.cpp:176-201 | a write takes a prefix of the octets or fails with an errno |
| TcpConnectionObject.TcpConnection.constructor | backend/Inet/src/TcpConnection.cpp:46-74 | a new connection is connecting, idle and empty |
| TcpConnectionObject.TcpConnection.KeepRest | backend/Inet/src/TcpConnection.cpp:207-223 | the rest is stored, the high-water callback queued on a crossing, and write interest turned on |
| TcpConnectionObject.TcpConnection.WriteDirectly | backend/Inet/src/TcpConnection.cpp:174-201 | the direct write: the state, the failure for good and the part left over are those of the answer of the socket |
| TcpConnectionObject.TcpConnection.SendInLoop | backend/Inet/src/TcpConnection.cpp:158-225 | the fields end as the send operation says; the assert on what remains holds |
| TcpConnectionObject.TcpConnection.Send | backend/Inet/src/TcpConnection.cpp:116-129 | in the loop thread: sends only while connected |
| TcpConnectionObject.TcpConnection.SendBuffer | backend/Inet/src/TcpConnection.cpp:135-146 | the same for a buffer, which is emptied exactly when the connection is connected |
| TcpConnectionObject.TcpConnection.TestFromOutside | backend/Inet/src/TcpConnection.cpp:116-303 | another thread tests the state, and enters the call exactly when the test passes |
| TcpConnectionObject.TcpConnection.SendBufferFromOutside | backend/Inet/src/TcpConnection.cpp:135-151 | another thread sends a buffer: emptied exactly when the test passes, before anything is queued |
| TcpConnectionObject.TcpConnection.StoreFromOutside | backend/Inet/src/TcpConnection.cpp:241-296 | a thread past its test stores kDisconnecting, whatever the state has become |
| TcpConnectionObject.TcpConnection.PushFromOutside | backend/Inet/src/TcpConnection.cpp:129-300 | the last action of a call: the functor is queued, or the timer started |
| TcpConnectionObject.TcpConnection.ShutdownInLoop | backend/Inet/src/TcpConnection.cpp:248-256 | the write half is shut unless write interest is on |
| TcpConnectionObject.TcpConnection.Shutdown | backend/Inet/src/TcpConnection.cpp:236-245 | in the loop thread: a connected connection begins to close, and shuts its write half unless write interest is on |
| TcpConnectionObject.TcpConnection.CloseSoon | backend/Inet/src/TcpConnection.cpp:274-279 | a live connection becomes closing and its close is queued |
| TcpConnectionObject.TcpConnection.ForceClose | backend/Inet/src/TcpConnection.cpp:271-280 | in the loop thread: a live connection becomes closing and its close is queued |
| TcpConnectionObject.TcpConnection.ForceCloseWithDelay | backend/Inet/src/TcpConnection.cpp:290-303 | in the loop thread: a live connection becomes closing and a timer is started |
| TcpConnectionObject.TcpConnection.DelayOver | backend/Inet/src/TcpConnection.cpp:297-300 | the timer of a delayed close queues the close if the connection is still live |
| TcpConnectionObject.TcpConnection.Disconnect | backend/Inet/src/TcpConnection.cpp:497-517 | no interest is left and the channel is removed |
| TcpConnectionObject.TcpConnection.HandleClose | backend/Inet/src/TcpConnection.cpp:490-519 | a live connection is disconnected for good |
| TcpConnectionObject.TcpConnection.ForceCloseInLoop | backend/Inet/src/TcpConnection.cpp:281-289 | closes only a live connection |
| TcpConnectionObject.TcpConnection.HandleRead | backend/Inet/src/TcpConnection.cpp:405-430 | what was read is at the end of the input buffer; the message callback is due exactly when something was read; a read of nothing closes |
| TcpConnectionObject.TcpConnection.Drained | backend/Inet/src/TcpConnection.cpp:466-477 | write interest off, write-complete queued, and a closing connection shuts its write half |
| TcpConnectionObject.TcpConnection.HandleWrite | backend/Inet/src/TcpConnection.cpp:449-489 | the fields end as the write operation says, however much the socket takes |
| TcpConnectionObject.TcpConnection.ConnectEstablished | backend/Inet/src/TcpConnection.cpp:364-374 | a connecting connection becomes connected and reads |
| TcpConnectionObject.TcpConnection.ConnectDestroyed | backend/Inet/src/TcpConnection.cpp:377-396 | a connection still connected is disconnected and removed |
| TcpConnectionObject.TcpConnection.LetGo | backend/Inet/src/TcpServer.cpp:80-85 | the owner lets go and queues connectDestroyed, or had been told of the close |
| TcpConnectionObject.TcpConnection.StartReadInLoop | backend/Inet/src/TcpConnection.cpp:315-330 | read interest on, only while connected |
| TcpConnectionObject.TcpConnection.StopReadInLoop | backend/Inet/src/TcpConnection.cpp:338-353 | read interest off, unless disconnected |
| TcpConnectionObject.TcpConnection.RunFirst | backend/Inet/src/EventLoop.cpp:217-220 | the loop runs the first functor of the connection |
| TcpConnectionObject.TcpConnection.Perform | backend/Inet/src/EventLoop.cpp:217-220 | each kind of functor does what its operation says |
| Framing.OnMessage | backend/Server/src/ser.cpp:309-329 | the loop takes every complete line off the buffer, answers exactly the lines that are too large, hands on the others that are not empty, keeps the rest, and closes exactly when the rest is too large |
| Framing.Received | backend/Server/src/ser.cpp:307-329 | chunk by chunk, the callbacks do what one pass over the octets read would do |
| Framing.FittingStream | backend/Server/src/ser.cpp:308-329 | when all complete lines fit, the requests are the non-empty lines of the whole stream and the connection is closed exactly when its last, open line is too large, however the stream is cut |
| Framing.SentIsReceived | backend/Server/src/ser.cpp:307-329 | requests sent as lines that fit are the requests that arrive, in order, however the stream is cut |
| Framing.LinesAreTheStream | backend/Server/src/ser.cpp:307-329 | cutting into lines loses nothing, and no line has a newline in it |
| Framing.ChunkingInvisibleExactly | backend/Server/src/ser.cpp:312-326 | requests and closing do not depend on how the stream is cut exactly when all its complete lines fit |
| Framing.LongLineShows | backend/Server/src/ser.cpp:312-326 | for every other stream, two ways to cut it that end differently |
| Framing.BoundedRest | backend/Server/src/ser.cpp:312-319 | after any callbacks without a close, at most the maximum waits in the buffer |
| Framing.LinesAppend | backend/Server/src/ser.cpp:311-328 | cutting a stream into lines may stop anywhere and go on with what was left |
| Framing.Serve | backend/Server/src/ser.cpp:307-329 | reads and callbacks on one buffer, chunk after chunk until the close, carry out the session |
| EventLoops.NoLostWakeup | backend/Inet/src/EventLoop.cpp:104-141 | a loop asleep has functors waiting exactly when its own thread queued one before loop() that has not been taken since, and it never sleeps over a quit |
| EventLoops.EarlyQueueIsStranded | backend/Inet/src/EventLoop.cpp:234-250 | such a functor is left waiting while the loop sleeps |
| EventLoops.RoundSleeps | backend/Inet/src/EventLoop.cpp:112-138 | the converse: left to itself, a loop that is not quit and owed no wakeup has run everything after one round, has drained the eventfd, and sleeps |
| EventLoops.CountExactly | backend/Inet/src/EventLoop.cpp:186-206 | over every run, by the steps alone: the counter of the eventfd is how often it was written since it was last read, up to its maximum |
| EventLoops.QuitExactly | backend/Inet/src/EventLoop.cpp:104-150 | over every run, by the steps alone: the loop ends at its condition exactly when somebody has quit it since it was entered |
| EventLoops.ReadDoesNotBlock | backend/Inet/src/EventLoop.cpp:197-206 | the eventfd is read only when it has been written |
| EventLoops.OnceInOrder | backend/Inet/src/EventLoop.cpp:207-222 | functors run once and in the order they were pushed, over every interleaving |
| EventLoops.RoundRunsAll | backend/Inet/src/EventLoop.cpp:112-138 | everything pushed before a poll has run when the loop is back at its condition |
| EventLoops.BatchIsFixed | backend/Inet/src/EventLoop.cpp:211-220 | a round runs what was waiting at the swap; what its functors queue is left for the next |
| EventLoops.QuitStops | backend/Inet/src/EventLoop.cpp:112-150 | after a quit inside loop() there is at most one more poll |
| EventLoops.QuitBeforeLoopIsLost | backend/Inet/src/EventLoop.cpp:108-109 | a quit before loop() is forgotten |
| EventLoops.RoundDrains | backend/Inet/src/EventLoop.cpp:112-138 | left to itself, one round from a poll runs everything that has been pushed |
| EventLoops.StepKeeps | backend/Inet/src/EventLoop.cpp:104-250 | every atomic step of any thread keeps the invariants |
| EventLoopObject.EventLoop.constructor | backend/Inet/src/EventLoop.cpp:55-80 | a new loop stands for the initial state of the machine |
| EventLoopObject.EventLoop.Interfere | backend/Inet/src/EventLoop.cpp:234-250 | other threads push, wake and quit while the loop thread holds no lock |
| EventLoopObject.EventLoop.QueueFromOutside | backend/Inet/src/EventLoop.cpp:234-250 | from another thread: the functor is pushed and, after whatever others do, the eventfd is positive |
| EventLoopObject.EventLoop.QueueFromInside | backend/Inet/src/EventLoop.cpp:234-250 | from the loop thread: the functor is pushed, and the eventfd is positive if a functor was running |
| EventLoopObject.EventLoop.QuitFromInside | backend/Inet/src/EventLoop.cpp:142-150 | from the loop thread: quit without a wakeup |
| EventLoopObject.EventLoop.Perform | backend/Inet/src/EventLoop.cpp:217-220 | every functor that a callback or functor queues is pushed and every quit sets the flag, as steps of the machine |
| EventLoopObject.EventLoop.RunFunctors | backend/Inet/src/EventLoop.cpp:217-220 | the loop runs the whole batch in order, and everything its functors queue or quit takes effect |
| EventLoopObject.EventLoop.SwapOut | backend/Inet/src/EventLoop.cpp:209-216 | the whole queue is taken at once |
| EventLoopObject.EventLoop.DoPendingFunctors | backend/Inet/src/EventLoop.cpp:207-223 | exactly what was queued at the swap has run, in order, with everything it does |
| EventLoopObject.EventLoop.HandleRead | backend/Inet/src/EventLoop.cpp:197-206 | the eventfd is at zero |
| EventLoopObject.EventLoop.IterateOnce | backend/Inet/src/EventLoop.cpp:114-137 | one turn of the loop runs everything that had been pushed when it began and does what its callbacks do |
| EventLoopObject.EventLoop.Loop | backend/Inet/src/EventLoop.cpp:104-141 | the loop is a run of the machine that takes turn after turn with all its callbacks do, and ends stopped, unless its world ends first at a poll |
| RateLimiters.RateLimiter.constructor | backend/Server/include/RateLimiter.hpp:25-29 | a new bucket is full |
| RateLimiters.RateLimiter.Allow | backend/Server/include/RateLimiter.hpp:32-44 | the in-place steps refill, cap and spend as the bucket operations say |
| RateLimiters.LevelIsLeastWindow | backend/Server/include/RateLimiter.hpp:32-44 | the level that request n finds is the minimum over i of capacity plus the refill since i minus what was admitted since i, for any clock and any rate |
| RateLimiters.RefusedExactly | backend/Server/include/RateLimiter.hpp:38-43 | a request is refused exactly when admitting it would exceed the allowance of some window |
| RateLimiters.WindowBound | backend/Server/include/RateLimiter.hpp:10-17 | no window gets more than one burst and the refill of its length |
| RateLimiters.SpacedNeverRefused | backend/Server/include/RateLimiter.hpp:10-17 | a client that leaves the time of one token between requests is never refused |
| RateLimiters.LevelInRange | backend/Server/include/RateLimiter.hpp:35-40 | with a clock that does not go back, tokens stay between nothing and a full bucket |
| ClientRateLimiters.ClientRateLimiter.constructor | backend/Server/src/ser.cpp:31-32 | no buckets at first |
| ClientRateLimiters.ClientRateLimiter.Allow | backend/Server/src/ser.cpp:34-42 | the table and the answer are as the operations say; the caller's bucket is still there after the purge |
| ClientRateLimiters.ClientRateLimiter.Purge | backend/Server/src/ser.cpp:52-59 | exactly the buckets idle for more than 300000 ms are gone, in whatever order the loop visits them |
| ClientRateLimiters.LikeNew | backend/Server/src/ser.cpp:54-58 | a bucket left alone for a second answers and ends like one made anew |
| ClientRateLimiters.PurgeUnobservable | backend/Server/src/ser.cpp:34-59 | on every sequence of calls whose clock does not go back and that wait no more than 299 s for the mutex, the limiter that purges answers like one that never does |
| ClientRateLimiters.OneBucketEach | backend/Server/src/ser.cpp:63-71 | without purging, whatever the clock does: each call is answered as one token bucket would that is made at the first call of its client and asked at the calls of that client alone |
| ClientRateLimiters.EachClientIsLimited | backend/Server/src/ser.cpp:63-71 | with purging too; so a client is refused exactly when admitting it would exceed the allowance of some window of its own calls, and gets no more than that in any |
| ClientRateLimiters.ClientsAreApart | backend/Server/src/ser.cpp:63-71 | what other clients call changes nothing in the answers of a client |
| ClientRateLimiters.PurgeHappens | backend/Server/src/ser.cpp:69-88 | above the limit, a call leaves no bucket that has been idle for more than five minutes |
| ClientRateLimiters.OwnBucketStays | backend/Server/src/ser.cpp:38-41 | only idle buckets are purged, only above the limit, and never the caller's |
| OrderInvariants.StepKeeps | backend/Domain/src/service/TicketServiceTxn.cpp:138-245 | every transaction of the service, by workers that act on what they read earlier, keeps all invariants of the tables |
| OrderInvariants.PlaceKeeps | backend/Domain/src/service/TicketServiceTxn.cpp:188-212 | placing an order keeps stock, seats, requests and money in order |
| OrderInvariants.CancelKeeps | backend/Domain/src/service/TicketServiceTxn.cpp:308-353 | cancelling an order, refunding it or failing to look its payment up, keeps the invariants |
| OrderInvariants.ExpireKeeps | backend/Domain/src/service/TicketServiceTxn.cpp:463-475 | expiring an order keeps the invariants |
| OrderInvariants.CreateKeeps | backend/Domain/src/service/TicketServicePay.cpp:90-142 | creating a payment, on an outdated view or not, keeps the invariants |
| OrderInvariants.ClaimKeeps | backend/Domain/src/service/TicketServicePay.cpp:207-241 | claiming or closing a due payment keeps the invariants |
| OrderInvariants.FinishKeeps | backend/Domain/src/service/TicketServicePay.cpp:265-362 | finishing a claim with any answer of the provider keeps the invariants |
| OrderInvariants.ClaimRefundKeeps | backend/Domain/include/repository/PaymentRepository.hpp:254-273 | claiming a refund keeps the invariants |
| OrderInvariants.FinishRefundKeeps | backend/Domain/src/service/TicketServicePay.cpp:415-445 | finishing a refund keeps the invariants |
| OrderRuns.ReachedIsConsistent | backend/Domain/src/service/TicketServiceTxn.cpp:138-245 | after any sequence of transactions, from empty tables, all invariants of the tables hold |
| OrderRuns.StockConserved | scripts/stress_pay.py:6-11 | in every run, available tickets plus those of pending and confirmed orders are the total, and nothing is negative |
| OrderRuns.SeatsExclusive | backend/Domain/include/repository/SeatRepository.hpp:105-134 | a live order has all the seats it asked for, and no other live order has any of them |
| OrderRuns.StepMoves | backend/Domain/include/repository/ReservationRepository.hpp:47-131 | a step moves an order only forward |
| OrderRuns.EndedStays | backend/Domain/include/repository/ReservationRepository.hpp:47-131 | an order that has ended keeps its row for good: never both paid and expired, stock given back once |
| OrderRuns.MoneyAccounted | scripts/stress_pay.py:8-11 | a payment that took money stands behind one confirmed order or has exactly one refund of the whole amount, exactly when no cancellation overlooked it |
| OrderRuns.OverlookedExactly | backend/Domain/src/service/TicketServiceTxn.cpp:337-349 | a payment is overlooked exactly by the cancellation of its confirmed order whose look-up fails |
| OrderRuns.OverlookedStays | backend/Domain/src/service/TicketServiceTxn.cpp:337-349 | it then stays successful and is never refunded |
| OrderRuns.ConfirmedIsPaid | backend/Domain/src/service/TicketServicePay.cpp:336-343 | a confirmed order has a successful payment |
| OrderRuns.KeysAreUnique | db/init.sql:87-117 | an idempotency key names one payment of a user, a request id one order |
| OrderRuns.OneActiveExactly | backend/Domain/src/service/TicketServicePay.cpp:114-132 | creating a payment keeps one active payment per order exactly unless the look-up fails over one, or reads a snapshot and a still active one was committed after the first read of the transaction |
| OrderRuns.MissesExactly | backend/Domain/src/service/TicketServicePay.cpp:93-119 | a payment is created although the order has an active one exactly in these cases |
| OrderRuns.AlwaysOneActiveExactly | backend/Domain/src/service/TicketServicePay.cpp:93-132 | all through a run an order has one active payment at most, exactly when no look-up overlooks one |
| OrderRuns.ReadCommittedKeepsOne | docker/mysql/my.cnf:69 | on a server at READ COMMITTED, as the containers are, an order has one active payment at most while look-ups succeed |
| OrderRuns.TwoActivePayments | backend/Domain/src/service/TicketServicePay.cpp:93-132 | at REPEATABLE READ, a run of two workers with the same order and two keys that ends with two active payments |
| OrderRuns.TokensEndOnce | backend/Domain/include/repository/PaymentRepository.hpp:101-156 | each action token ends at most one claim, however many workers hold it |
| OrderRuns.SpentTokenIsIdle | backend/Domain/include/repository/PaymentRepository.hpp:122-156 | a token that has ended a claim changes nothing any more |
| OrderRuns.AttemptsRunOut | backend/Domain/include/repository/PaymentRepository.hpp:275-306 | each finished refund attempt uses up one of finitely many; the last failure is final |
| OrderRuns.RankGrows | backend/Domain/include/PaymentStateMachine.hpp:8-16 | along any chain of allowed changes the rank of the status never falls, and FAILED, CLOSED and REFUNDED are final |
| OrderRuns.TrailsAreSound | backend/Domain/include/repository/PaymentRepository.hpp:184-197 | the events of a payment are one chain of allowed changes that ends in its status; CREATED, PROCESSING and SUCCEEDED are not entered again |
| OrderRuns.RefundBegunOnce | backend/Domain/include/repository/PaymentRepository.hpp:308-313 | a payment begins to be refunded once at most |
| OrderOutcomes.SuccessOutcome | backend/Domain/src/service/TicketServicePay.cpp:321-357 | a success reported to the holder of the claim: the order is confirmed and the money kept exactly when it is pending, of that user, not yet due and the confirming statement does not fail; otherwise one refund of the whole amount is added |
| OrderOutcomes.ReplyOutcome | backend/Domain/src/service/TicketServicePay.cpp:280-328 | every other answer, row by row: an exception and a payment in process keep the status and wait, a failure and a closure end it, any other answer changes nothing |
| OrderOutcomes.LostClaim | backend/Domain/include/repository/PaymentRepository.hpp:122-156 | a worker that no longer holds the claim changes nothing |
| OrderOutcomes.ClaimsExactly | backend/Domain/src/service/TicketServicePay.cpp:203-241 | a payment not begun whose order is not pending is closed; otherwise exactly a due one is claimed, with a token that no row has |
| OrderOutcomes.RefundClaimsExactly | backend/Domain/include/repository/PaymentRepository.hpp:254-273 | exactly a due refund of the expected status is claimed, with a token that no row has |
| OrderOutcomes.RefundAttemptExactly | backend/Domain/include/repository/PaymentRepository.hpp:275-306 | a successful attempt refunds the payment, a failed one uses up one attempt and the last fails the refund |
| OrderOutcomes.AddedExactly | backend/Domain/src/service/TicketServiceAdmin.cpp:230-236 | a new ticket is on sale with all of it available, its seats free at their prices |
| OrderOutcomes.TakenOfflineExactly | backend/Domain/include/repository/TicketRepository.hpp:189-196 | a ticket taken off sale is on sale no more, and nothing else changes |
| OrderOutcomes.PlacedExactly | backend/Domain/src/service/TicketServiceTxn.cpp:188-220 | exactly when an order is placed, and which rows it changes: pending for fifteen minutes, its quantity off the stock, its seats its own |
| OrderOutcomes.CancelledExactly | backend/Domain/src/service/TicketServiceTxn.cpp:305-356 | a user cancels exactly an own pending or confirmed order; stock and seats come back, and the payment of a confirmed one is being refunded in whole unless the look-up failed |
| OrderOutcomes.ExpiredExactly | backend/Domain/src/service/TicketServiceTxn.cpp:449-489 | an order expires exactly when it is pending and its time is up; stock and seats come back |
| OrderOutcomes.WindowIsKept | backend/Domain/include/repository/ReservationRepository.hpp:48-79 | over every run, an order is expired only at or after the end of its window and confirmed only before it |
| OrderOutcomes.FifteenMinutes | backend/Domain/include/repository/ReservationRepository.hpp:19-31 | that window is fifteen minutes from the placing |
| OrderOutcomes.OfflineIsFinal | backend/Domain/include/repository/TicketRepository.hpp:189-196 | over every run, nothing can be ordered of a ticket that was taken off sale |
| OrderOutcomes.PaidForExactly | backend/Domain/src/service/TicketServicePay.cpp:93-132 | exactly when a payment is created: for an own pending order, under a new key, when no active one is seen |
| OrderOutcomes.AmountExactly | backend/Domain/include/repository/PaymentRepository.hpp:23-26 | a live order costs a hundred times the prices of the seats it named, or of its quantity of tickets if it named none |
| OrderOutcomes.ChargedExactly | backend/Domain/include/repository/PaymentRepository.hpp:17-33 | that is what a payment for it is created with |
| OrderDatabase.Database.Begin | backend/Domain/include/service/Txn.hpp:13-16 | BEGIN remembers the tables, or fails |
| OrderDatabase.Database.Commit | backend/Domain/include/service/Txn.hpp:22-27 | COMMIT keeps the tables; when it reports failure it may have taken effect or not |
| OrderDatabase.Database.Rollback | backend/Domain/include/service/Txn.hpp:28-32 | ROLLBACK restores the tables of the BEGIN |
| OrderDatabase.Database.InsertTicket | backend/Domain/include/repository/TicketRepository.hpp:152-181 | a ticket starts with all its seats available |
| OrderDatabase.Database.InsertSeats | backend/Domain/include/repository/SeatRepository.hpp:64 | the batch adds its seats, all available |
| OrderDatabase.Database.SetOffline | backend/Domain/include/repository/TicketRepository.hpp:189-196 | the ticket is no longer on sale |
| OrderDatabase.Database.LockTicket | backend/Domain/include/repository/TicketRepository.hpp:110-122 | the row as it is, or nothing |
| OrderDatabase.Database.AdjustSeats | backend/Domain/include/repository/TicketRepository.hpp:125-139 | stock changes by delta and is never taken below zero |
| OrderDatabase.Database.LockAndSell | backend/Domain/include/repository/SeatRepository.hpp:105-123 | only an available seat of the ticket is sold |
| OrderDatabase.Database.ReleaseByReservation | backend/Domain/include/repository/SeatRepository.hpp:126-134 | exactly the sold seats of the order become available |
| OrderDatabase.Database.InsertReservation | backend/Domain/include/repository/ReservationRepository.hpp:19-31 | one pending row, and none when the request id is taken |
| OrderDatabase.Database.LockOwned | backend/Domain/include/repository/ReservationRepository.hpp:92-108 | the row of that user, or nothing |
| OrderDatabase.Database.SetStatus | backend/Domain/include/repository/ReservationRepository.hpp:82-131 | the status of that row alone changes |
| OrderDatabase.Database.Pay | backend/Domain/include/repository/ReservationRepository.hpp:48-57 | confirms exactly an unexpired pending order of the user |
| OrderDatabase.Database.LockExpiredPending | backend/Domain/include/repository/ReservationRepository.hpp:60-79 | the overdue pending orders that end first, each once, as many as the limit lets |
| OrderDatabase.Database.FindActiveByResv | backend/Domain/include/repository/PaymentRepository.hpp:73-81 | whether the payments that the transaction sees at its isolation level have an active one; a failed look-up finds none |
| OrderDatabase.Database.FindByIdempotencyKey | backend/Domain/include/repository/PaymentRepository.hpp:45-53 | a payment of that key exists when one is found; the read fixes the view of the transaction |
| OrderDatabase.Database.OthersCommit | backend/Domain/src/service/TicketServicePay.cpp:93-103 | other transactions commit before this one has the row it waits for |
| OrderDatabase.Database.InsertForReservation | backend/Domain/include/repository/PaymentRepository.hpp:17-33 | one payment of the amount of the order, and none when the key is taken |
| OrderDatabase.Database.LockById | backend/Domain/include/repository/PaymentRepository.hpp:158-164 | the row as it is, or nothing |
| OrderDatabase.Database.LockSucceededByResv | backend/Domain/include/repository/PaymentRepository.hpp:199-207 | the latest successful payment of the order, or nothing, which may be a failed look-up |
| OrderDatabase.Database.AppendEvent | backend/Domain/include/repository/PaymentRepository.hpp:184-197 | one more event of the payment |
| OrderDatabase.Database.Transition | backend/Domain/include/repository/PaymentRepository.hpp:166-182 | changes the status from the expected one and leaves the token |
| OrderDatabase.Database.ClaimPaymentAction | backend/Domain/include/repository/PaymentRepository.hpp:101-120 | a due payment of the expected status gets a fresh token and a lease |
| OrderDatabase.Database.TransitionClaimed | backend/Domain/include/repository/PaymentRepository.hpp:122-156 | only the holder of status and token changes the row, and the token is cleared |
| OrderDatabase.Database.InsertRefund | backend/Domain/include/repository/PaymentRepository.hpp:209-220 | one open refund |
| OrderDatabase.Database.BeginFullRefund | backend/Domain/include/repository/PaymentRepository.hpp:308-313 | three statements that together begin the refund of a successful payment |
| OrderDatabase.Database.ClaimRefundAction | backend/Domain/include/repository/PaymentRepository.hpp:254-273 | a due refund of the expected status gets a fresh token and a lease |
| OrderDatabase.Database.CompleteRefund | backend/Domain/include/repository/PaymentRepository.hpp:275-288 | only the holder of status and token completes a refund |
| OrderDatabase.Database.RetryRefund | backend/Domain/include/repository/PaymentRepository.hpp:290-306 | only the holder of status and token counts an attempt, and the last one fails the refund |
| OrderDatabase.Txn.constructor | backend/Domain/include/service/Txn.hpp:13-16 | a scope begins a transaction, or has none |
| OrderDatabase.Txn.Commit | backend/Domain/include/service/Txn.hpp:22-27 | done exactly after a commit that reports success |
| OrderDatabase.Txn.Rollback | backend/Domain/include/service/Txn.hpp:28-32 | done, and the tables are those of the BEGIN |
| OrderDatabase.Txn.Close | backend/Domain/include/service/Txn.hpp:17-20 | leaving the scope rolls back whatever was not committed |
| OrderServices.TicketService.AdminAddTicket | backend/Domain/src/service/TicketServiceAdmin.cpp:230-236 | the ticket is added, with its seats or without; when no statement fails, with them |
| OrderServices.TicketService.AdminDeleteTicket | backend/Domain/src/service/TicketServiceAdmin.cpp:264-267 | the ticket is taken off sale |
| OrderServices.TicketService.PlaceQueued | backend/Domain/src/service/TicketServiceTxn.cpp:188-237 | all statements of placing an order take effect or none, however they fail; when none fails, it is placed exactly when it can be |
| OrderServices.TicketService.PlaceWithin | backend/Domain/src/service/TicketServiceTxn.cpp:190-211 | the statements in order add up to placing the order, and when none fails succeed exactly when it can be placed |
| OrderServices.TicketService.SellSeats | backend/Domain/src/service/TicketServiceTxn.cpp:201-208 | the loop sells all seats or fails; when no statement fails, it fails exactly when one of them is not free |
| OrderServices.TicketService.CancelTicket | backend/Domain/src/service/TicketServiceTxn.cpp:305-356 | all statements of a cancellation take effect or none; when none fails, the order is cancelled and refunded exactly when it may be |
| OrderServices.TicketService.CancelWithin | backend/Domain/src/service/TicketServiceTxn.cpp:308-349 | the statements in order add up to the cancellation, with the refund unless the look-up failed; when none fails, exactly when it may be |
| OrderServices.TicketService.ExpirePendingOrders | backend/Domain/src/service/TicketServiceTxn.cpp:449-489 | a batch of overdue orders is expired as a whole or not at all; when no statement fails, it is the overdue orders that end first, as many as the limit lets |
| OrderServices.TicketService.ExpireWithin | backend/Domain/src/service/TicketServiceTxn.cpp:465-475 | the loop expires each order of the batch once |
| OrderServices.TicketService.ExpireOne | backend/Domain/src/service/TicketServiceTxn.cpp:467-469 | three statements expire one order and leave the others alone |
| OrderServices.TicketService.PayOrder | backend/Domain/src/service/TicketServicePay.cpp:90-142 | a payment is created as a whole or not at all, on the tables that others have left when the row of the order is had; when no statement fails, exactly when it may be |
| OrderServices.TicketService.PayWithin | backend/Domain/src/service/TicketServicePay.cpp:93-136 | the statements in order create the payment only for a pending order of the user; when none fails, exactly when it may be |
| OrderServices.TicketService.ClaimDue | backend/Domain/src/service/TicketServicePay.cpp:203-241 | the first transaction on a due payment closes it, claims it or leaves it; when no statement fails, with the outcome that its rows call for |
| OrderServices.TicketService.ClaimWithin | backend/Domain/src/service/TicketServicePay.cpp:210-236 | the statements in order, with the outcome they report; when none fails, the one that the rows call for |
| OrderServices.TicketService.FinishDue | backend/Domain/src/service/TicketServicePay.cpp:265-362 | the second transaction ends the claim as a whole or changes nothing; when no statement fails, the tables are as the answer calls for, an order that can be paid for being confirmed |
| OrderServices.TicketService.FinishWithin | backend/Domain/src/service/TicketServicePay.cpp:270-357 | the branches on the answer of the provider, statement by statement; when none fails, an order that can be paid for is confirmed |
| OrderServices.TicketService.EndWith | backend/Domain/src/service/TicketServicePay.cpp:283-331 | the claim ends and its event is written; when no statement fails, exactly for its holder |
| OrderServices.TicketService.ClaimDueRefund | backend/Domain/src/service/TicketServicePay.cpp:379-388 | a due refund is claimed as a whole or not at all; when no statement fails, exactly when it is due |
| OrderServices.TicketService.FinishDueRefund | backend/Domain/src/service/TicketServicePay.cpp:418-445 | a refund attempt ends as a whole or changes nothing; when no statement fails, as its outcome calls for |
| OrderServices.TicketService.RefundWithin | backend/Domain/src/service/TicketServicePay.cpp:420-440 | the statements in order; the payment becomes refunded together with its refund; when none fails, as the outcome calls for |
| OrderQueues.StockConserved | backend/Server/src/RedisOrderQueue.cpp:53-225 | per ticket, over all proper runs, Redis stock plus accepted and uncompensated quantities is what was put in, and stock is never negative |
| OrderQueues.StockIsFirstSeats | backend/Server/src/RedisOrderQueue.cpp:98-111 | with no other change of its stock, stock plus accepted and uncompensated quantities of a ticket is the seats of its first initialisation |
| OrderQueues.RequestsAcceptedOnce | backend/Server/src/RedisOrderQueue.cpp:62-71 | a request id is accepted at most once |
| OrderQueues.TerminalFailureExactly | backend/Server/src/RedisOrderQueue.cpp:206-210 | a terminal failure conserves stock exactly when it gives none back or gives back what a still waiting entry holds |
| OrderQueues.ReclaimedTwiceOversells | backend/Server/src/RedisOrderQueue.cpp:113-220 | a run that breaks it: two consumers get one entry, the second by reclaiming it, both report a terminal failure, and the stock exceeds what was put in |
| OrderQueues.ReplyExactly | backend/Server/src/RedisOrderQueue.cpp:53-96 | over every proper run, what a request is told: duplicate, unavailable, sold out exactly when the seats put in less what accepted requests hold do not cover it, or accepted as the next entry |
| OrderQueues.AcceptedThenDuplicate | backend/Server/src/RedisOrderQueue.cpp:62-71 | a request with a status is a duplicate ever after |
| OrderQueues.DeliveredIsAcknowledged | backend/Server/src/RedisOrderQueue.cpp:113-175 | an entry just delivered is acknowledged with success |
| OrderQueues.NothingDelivered | backend/Server/src/RedisOrderQueue.cpp:113-151 | nothing is delivered exactly when every entry has been and none is reclaimed |
| OrderQueues.FailureUndoesEnqueue | backend/Server/src/RedisOrderQueue.cpp:53-220 | a round trip: accepted, delivered and given up for good, an order leaves the stock as it was, its request failed and a dead letter |
| OrderQueues.ReportIsRead | backend/Server/src/RedisOrderQueue.cpp:227-250 | what is reported of a request is what is read, over every run that does not report on it again |
| OrderQueues.TryDecrExactly | backend/Server/src/RedisStockCache.cpp:35-70 | the quantity is taken exactly when there is enough; the answer tells a missing key from too little stock |
| OrderQueues.IncrUndoesTryDecr | backend/Server/src/RedisStockCache.cpp:72-97 | giving back what was taken restores the stock |
| OrderQueues.DoneOnce | backend/Server/src/RedisOrderQueue.cpp:161-175 | at most one acknowledgement of an entry is answered with success |
| OrderQueues.DeliveryIsTotal | backend/Server/src/RedisOrderQueue.cpp:147-150 | the next undelivered entry is delivered and then waits |
| OrderQueues.EnqueueKeeps | backend/Server/src/RedisOrderQueue.cpp:62-71 | the enqueue script keeps the accounts, for every outcome |
| OrderQueues.InitializeStockKeeps | backend/Server/src/RedisOrderQueue.cpp:98-111 | initialising stock never overwrites a deduction |
| OrderQueues.DeliverKeeps | backend/Server/src/RedisOrderQueue.cpp:113-150 | delivering and reclaiming keep the accounts |
| OrderQueues.TerminalFailureKeeps | backend/Server/src/RedisOrderQueue.cpp:206-210 | for such an entry the script keeps all invariants |
| OrderQueues.TryDecrKeeps | backend/Server/src/RedisStockCache.cpp:21-27 | the check-and-decrement script keeps stock non-negative and the accounts right |
| OrderQueues.IncrKeeps | backend/Server/src/RedisStockCache.cpp:83-88 | the increment script keeps the accounts, and makes no stock for a missing key |
| OrderQueues.SetKeeps | backend/Server/src/RedisStockCache.cpp:99-112 | an unconditional SET starts a new account on top of what is queued |
| OrderQueueObject.RedisServer.Enqueue | backend/Server/src/RedisOrderQueue.cpp:53-96 | the keys and the reply are as the script says |
| OrderQueueObject.RedisServer.InitializeStock | backend/Server/src/RedisOrderQueue.cpp:98-111 | SET NX |
| OrderQueueObject.RedisServer.Consume | backend/Server/src/RedisOrderQueue.cpp:113-151 | an idle entry is reclaimed, or else the next one read |
| OrderQueueObject.RedisServer.Acknowledge | backend/Server/src/RedisOrderQueue.cpp:161-171 | the entry no longer waits; the answer is whether it did |
| OrderQueueObject.RedisServer.TerminalFailure | backend/Server/src/RedisOrderQueue.cpp:197-220 | the keys and the reply are as the script says, and the accounts are kept exactly for a matching waiting entry |
| OrderQueueObject.RedisServer.TryDecr | backend/Server/src/RedisStockCache.cpp:35-70 | the keys and the result are as the script says |
| OrderQueueObject.RedisServer.Incr | backend/Server/src/RedisStockCache.cpp:72-97 | adds only to stock that exists |
| OrderQueueObject.RedisServer.Set | backend/Server/src/RedisStockCache.cpp:99-118 | replaces the stock |
| OrderQueueObject.RedisServer.SetStatus | backend/Server/src/RedisOrderQueue.cpp:227-250 | replaces the status of the request and nothing else |
| OrderPipeline.NoRequestLost | backend/Domain/src/service/TicketServiceTxn.cpp:138-245 | however consumers crash, an accepted request is still to be delivered, waits, has its order, or is a dead letter |
| OrderPipeline.OrderedOnce | backend/Domain/src/service/TicketServiceTxn.cpp:181-220 | however often an entry is delivered, a request has one order at most |
| OrderPipeline.EntryBecomesOrder | backend/Domain/src/service/TicketServiceTxn.cpp:138-245 | the next entry, given to a consumer that nothing disturbs, becomes an order if it can be placed, and waits no more |
| OrderPipeline.PlacedIsAcknowledged | backend/Domain/src/service/TicketServiceTxn.cpp:142-180 | a consumer that finds the order of its entry placed already acknowledges the entry |
| OrderPipeline.CrashedIsRedelivered | backend/Server/src/RedisOrderQueue.cpp:113-151 | an entry whose consumer dies is given to the next one that reclaims it |
| OrderPipeline.StepKeeps | backend/Domain/src/service/TicketServiceTxn.cpp:142-243 | every step of consumers, producers and other transactions keeps the invariants of both systems |
| ConnectionPools.SlotsConserved | backend/SqlConnPool/src/ConnectionPool.cpp:13-62 | over all interleavings, free, lost, held and in-between slots add up to the size, the counters are right, and no handle is in two places |
| ConnectionPools.ReleaseExactly | backend/SqlConnPool/src/ConnectionPool.cpp:159-173 | a release keeps the accounts exactly when a client holds the handle |
| ConnectionPools.ReleaseCounts | backend/SqlConnPool/src/ConnectionPool.cpp:169 | the guard before the decrement never fails for such a handle |
| ConnectionPools.TakeKeeps | backend/SqlConnPool/src/ConnectionPool.cpp:18-37 | taking the oldest free handle or a lost slot keeps the accounts |
| ConnectionPools.RebuildKeeps | backend/SqlConnPool/src/ConnectionPool.cpp:39-47 | replacing or losing a handle outside the mutex keeps the accounts |
| ConnectionPools.FinishGetKeeps | backend/SqlConnPool/src/ConnectionPool.cpp:49-61 | handing out a handle or giving up the slot keeps the accounts |
| ConnectionPools.HealthTakeKeeps | backend/SqlConnPool/src/ConnectionPool.cpp:92-99 | taking an idle handle to check it keeps the accounts |
| ConnectionPools.HealthGiveKeeps | backend/SqlConnPool/src/ConnectionPool.cpp:109-118 | putting it back, or losing it, keeps the accounts |
| ConnectionPools.GetThenRelease | backend/SqlConnPool/src/ConnectionPool.cpp:13-62 | a round trip: the oldest connection is handed out, and returned it is the youngest |
| ConnectionPools.LostSlotIsFilled | backend/SqlConnPool/src/ConnectionPool.cpp:31-47 | with no idle connection, a lost slot that can be filled again gives the pool one more |
| ConnectionPools.NothingToGet | backend/SqlConnPool/src/ConnectionPool.cpp:49-55 | a slot that cannot be filled stays lost, and a connection that is gone leaves one |
| ConnectionPoolObject.ConnectionPool.Init | backend/SqlConnPool/src/ConnectionPool.cpp:213-232 | all connections or none, and all exactly when each can be made |
| ConnectionPoolObject.ConnectionPool.TakeSlot | backend/SqlConnPool/src/ConnectionPool.cpp:26-36 | the first critical section of an acquisition |
| ConnectionPoolObject.ConnectionPool.Repair | backend/SqlConnPool/src/ConnectionPool.cpp:39-47 | a handle that answers is kept, and any other slot gets a new one exactly when one can be made, while other threads go on |
| ConnectionPoolObject.ConnectionPool.FinishSlot | backend/SqlConnPool/src/ConnectionPool.cpp:49-60 | the last critical section of an acquisition |
| ConnectionPoolObject.ConnectionPool.GetConnectionWithTimeout | backend/SqlConnPool/src/ConnectionPool.cpp:13-62 | a client gets a handle that nobody else has, the oldest if it answers, or nothing: exactly when the wait finds none, or the connection is gone and cannot be made anew |
| ConnectionPoolObject.ConnectionPool.ReleaseConnection | backend/SqlConnPool/src/ConnectionPool.cpp:159-173 | the handle goes to the end of the list; null is refused |
| ConnectionPoolObject.ConnectionPool.HealthCheck | backend/SqlConnPool/src/ConnectionPool.cpp:79-126 | the accounts are right after any check, among any other threads; undisturbed, connections that answer stay in order and the slots of those gone are lost |
| ConnectionPoolObject.ConnectionPool.CheckOne | backend/SqlConnPool/src/ConnectionPool.cpp:91-118 | one round of the check: the oldest connection goes to the end, or its slot is lost |
| ConnectionPoolObject.ConnectionPool.PutBack | backend/SqlConnPool/src/ConnectionPool.cpp:109-118 | the checked handle is put back or its slot is lost |
| ConnectionPoolObject.RedisConnPool.constructor | backend/Server/src/RedisConnPool.cpp:8-33 | the pool starts with all its connections free |
| ConnectionPoolObject.RedisConnPool.TakeSlot | backend/Server/src/RedisConnPool.cpp:136-145 | the first critical section of an acquisition |
| ConnectionPoolObject.RedisConnPool.Repair | backend/Server/src/RedisConnPool.cpp:148-183 | a handle that answers is kept, and any other slot gets a new one exactly when one can be made, while other threads go on |
| ConnectionPoolObject.RedisConnPool.FinishSlot | backend/Server/src/RedisConnPool.cpp:151-185 | the handle is handed out or its slot is lost |
| ConnectionPoolObject.RedisConnPool.GetConnection | backend/Server/src/RedisConnPool.cpp:120-186 | a client gets a handle that nobody else has, the oldest if it answers, or nothing: exactly when the wait finds none, or the connection is gone and cannot be made anew |
| ConnectionPoolObject.RedisConnPool.ReleaseConnection | backend/Server/src/RedisConnPool.cpp:188-198 | the handle goes to the end of the list |
| Seats.LabelNumber | backend/Domain/include/repository/SeatRepository.hpp:149-157 | reading the letters of row n as a number gives n + 1 |
| Seats.NumberLabel | backend/Domain/include/repository/SeatRepository.hpp:149-157 | every string of letters is the label of one row |
| Seats.RowName | backend/Domain/include/repository/SeatRepository.hpp:149-157 | the loop writes the row label |
| Seats.LabelRoundTrip | frontend/src/components/SeatMini.tsx:15-24 | parsing the label of a row and column gives them back |
| Seats.LabelsDiffer | backend/Domain/include/repository/SeatRepository.hpp:51 | two labels are equal exactly when row and column are |
| Seats.Parse | frontend/src/components/SeatMini.tsx:15-24 | the parser: row and column of a well-formed label, zeros for any other |
| Seats.Generate | backend/Domain/include/repository/SeatRepository.hpp:18-62 | exactly the asked number of seats, row by row |
| Seats.GeneratedSeats | backend/Domain/include/repository/SeatRepository.hpp:26-62 | the generated labels all differ, rows are no longer than the columns, and each label parses back to its place |

## Left out

- Integer widths: counters, sequence numbers, token arithmetic and stock are unbounded integers; the
  eventfd counter is bounded as in the kernel.
- Timer queue: destruction, and a cancel that overtakes the queued add of its own timer is the no-op that
  the code makes of it. A repeating timer's interval is rounded down to microseconds.
- TimerQueueObject.TimerQueue.CancelTimerInLoop: leaves out the trace line (`TimerQueue.cpp:79`), which reads
  the expiry through the address in the id before the look-up, when that timer may be gone.
- Timer queue: on the 64-bit address of the sentry, `FirstAfter` compares expiries only, since no timer
  lies at that address.
- Buffer: `findCRLF`, `capacity`, and writing a buffer straight to a descriptor.
- Connections: names, addresses, keep-alive, TCP_NODELAY and the contents of user callbacks; what a
  callback calls is an event of its own. A call in another thread is its test, its store and its push, each
  one action; `startRead` and `stopRead` are their functors alone. After the half-close the socket refuses every write with EPIPE.
- Connections: functors of other connections in the same loop, so the order among connections.
- Framing: JSON parsing, the worker pool and the replies; rate limiting follows the framing and is modelled
  on its own.
- Event loop: other channels than the eventfd are one step that may queue and quit; the ten-second poll
  timeout is an ordinary poll. `Loop` is given the turns that its world takes, so it is a finite prefix of
  a run.
- Event loop: memory ordering of the flag reads outside the mutex; every step is sequentially consistent.
- Client rate limiter: the iteration order of the hash table is any order.
- Orders: transactions on the same rows run one after the other, as their row locks make them; deadlock
  victims, whose whole transaction MySQL rolls back while the code goes on, are not modelled.
- Orders: seat tiers and prices computed in floating point are any prices; order numbers, audit rows,
  notes, user and venue data, authentication, catalogue, reminders and reports.
- OrderDatabase.Database.FindByIdempotencyKey: a first read that fails is taken to have fixed the view of its
  transaction all the same; without one the later look-up would fix it, as if the first had come just then.
- Order queue: MAXLEN trimming, key expiry, `requeue`, and payloads; a consumer gives back the ticket and
  quantity it read from the payload, which the model lets be any.
- OrderQueues.StockConserved: holds for runs in which a terminal failure that gives stock back is for its
  own waiting entry, because the script does not check it; TerminalFailureExactly has the exact condition.
- Order queue and tables: that Redis stock follows MySQL availability, which a crash between the two breaks.
- Pools: timed waiting and notification, so also how long a client waits; destruction.
- Seats: `rowName` of the web client, which is not the printer of the labels. Columns and rows beyond 2^53
  would be inexact in the client.
- Sockets, epoll, logging, metrics, configuration, mail, password hashing, the web and desktop clients, the
  bridge and the tools.
