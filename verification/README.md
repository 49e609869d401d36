# Woeful, verified

Woeful is a Wisp version 1 server: it carries many TCP and UDP streams over one websocket and proxies
them to their targets. This project models its concurrent core in Dafny and proves what that core keeps
over whole runs:

- **The thread pool** (`ThreadPool`, `PoolInvariants`, `PoolHistory`, `PoolWaiting`, `PoolProgress`,
  `PoolSize`, `PoolClass`). `BS::thread_pool<tp::none>` in C++20, the only instantiation the server uses
  (`src/websocketManager.h:101`, `CMakeLists.txt:2`), as a step machine over any number of workers, tasks
  and resets. Each critical section under `tasks_mutex` is one step, `notify_one` after the unlock is a step
  of its own, wakeups may be spurious, and threads are stopped and joined one by one as `std::jthread`
  does. `PoolClass` is the class with its fields updated in place; each method takes one step of the machine,
  and a valid object is one that a run reaches, so what holds of reachable states holds of every object.
- **Parallel loops** (`Blocks`, `ParallelLoops`). The fixed-width block arithmetic, and the refinement:
  a split loop on the pool is the sequential loop.
- **The Wisp server** (`WispManager`, `ManagerClass`, `CreditLink`, `WispServer`, `ServerInvariants`,
  `Backpressure`, `Delivery`, `Callbacks`, `World`, `WatcherClass`). The event loop and the epoll watcher as a
  machine of two threads joined by a FIFO queue of deferred callbacks, Wisp clients that obey their credits, a
  FIFO channel each way, and the pool that runs the writes. `ManagerClass` and `WatcherClass` hold the classes
  with their loops over streams and websockets.
- **Frames and captures** (`Packets`, `Pcap`). The codec as classes that fill byte arrays, and the capture
  writer checked against TCP receivers after sections 3.4 and 3.5 of RFC 9293.

A step's label resolves all nondeterminism (which sleeper a notification wakes, what a read returns, in
which order an unordered map is iterated), so a run is a start state and a list of labels, and a result
for all lists holds for all schedules. Fields called history (`submitted`, `started`, `done`, `purged`,
`closed`, `read`, `finished`, `accepted`, `openedAt`, `serial`) record the past and decide nothing. A run of
the server is careful when no descriptor number is recycled that a deferred entry with bytes or an end
still names, no bytes are dropped, and CONNECT ids are fresh, which clients that obey the protocol ensure.
`Witnesses` holds a run to every failure that the findings name.

`Counting` sums a weight over a sequence and is used by several proofs; `Wrappers` is the option type. Check
everything with `dafny verify dfyconfig.toml`.

## Findings

Where a property one would expect is false of the code, the code is modelled as it is and the exact
condition is proved:

- **Purging during a wait.** `purge` does not notify waiters. It leaves a sleeping waiter behind exactly when
  no task is running (`PoolWaiting.WaiterStep`), that state is reachable (`PoolWaiting.PurgeCanStrand`), and
  then no internal step ever wakes the waiter (`PoolWaiting.StrandedForGood`).
- **CONNECT for a live stream id.** If its target can be opened, it overwrites the stream and leaks its
  descriptor; nothing else leaks one (`ServerInvariants.LeakStep`, `Witnesses.LeakCanHappen`). Bytes of the
  overwritten stream that are still deferred then find no owner and are lost (`Witnesses.OverwriteCanLose`).
  If it is refused, the client is told that its stream is closed while the stream lives on and keeps sending
  (`Delivery.RefusedBreaks`, `Witnesses.RefusalCanClose`).
- **What breaks delivery.** A deferred callback finds its stream by descriptor number. Delivery to every open
  descriptor's stream survives a step exactly when the step does none of these four: open a descriptor under a
  number that a deferred entry with bytes or an end still names; drop a non-empty send; refuse a CONNECT for a
  live stream; or insert a stream under a live id (`Delivery.DeliveryStep`). After a recycling a client is sent
  another target's bytes (`Witnesses.RecycleCanMisdeliver`); a drop loses bytes for good
  (`Witnesses.DropCanLose`).
- **Several worker threads.** The write tasks of one stream may run at once: finishing a task keeps the order of
  submission exactly when it is the oldest unfinished one (`PoolHistory.FinishStep`). With one thread that is
  always so, and what is written to a target is a beginning of what its client sent
  (`World.WritesFinishInArrivalOrder`); with any other number of threads a stream's second payload can be
  written before its first (`Witnesses.WritesCanOvertake`).
- **Clients that ignore their credit.** A DATA packet at zero credit wraps the unsigned counter; the books
  stay balanced exactly when there is credit (`WispManager.AcceptedLedger`, `Witnesses.CreditCanWrap`).
- **Late refills.** `handle_data` refills a stream at its last credit exactly when `has_backpressure` is set and
  the deferred queue is below its limit (`WispManager.RefillDecided`). A stream at zero credit leaves that state
  exactly by a refresh or drain that passes its guard, or by its end (`CreditLink.StarvedStep`), so no packet
  of its client brings credit (`CreditLink.StarvedUntilRelieved`); with no backpressure and nothing deferred
  this happens to a client that obeys its credits (`Witnesses.RefillCanBeLate`).
- **Hostname termination.** The comment at `src/packets.h:128` wants every hostname terminated. A CONNECT
  payload of three bytes whose last byte is zero yields an empty, unterminated buffer; every other payload
  is terminated (`Packets.HostnameTerminated`, `Witnesses.HostnameCanBeOpen`).
- **Captured retries.** The write task captures its payload again on every retry, so the capture grows by just
  the payload exactly when the first attempt need not be repeated, or the payload is empty
  (`Pcap.CapturedOnce`, `Witnesses.RetryCapturesTwice`).

Two properties hold in a stronger form than one would expect: no task wakeup is lost even while threads
are being stopped (`PoolHistory.NoLostTaskWakeup`), and the special case for an empty block size in
the `blocks` constructor is never reached (`Blocks.Blocks.constructor` proves its branch dead).

## Model

| member | source | states |
|---|---|---|
| `PoolHistory.ReachableInv` | src/BS_thread_pool.hpp:1995-2044 | every state of every run, resets and purges included, satisfies the pool invariant and the history invariant |
| `PoolHistory.CounterTruth` | src/BS_thread_pool.hpp:2002-2026 | `tasks_running` is the number of workers starting, running or not yet relocked; it never wraps, and is exactly 0 when a reset overwrites it |
| `PoolInvariants.CounterStep` | src/BS_thread_pool.hpp:1900-1908 | each step keeps the counter true; it is positive before a decrement, never above the number of workers, and 0 before the overwrite |
| `PoolInvariants.AllExited` | src/BS_thread_pool.hpp:1900-1908 | once every thread is joined the counter reads 0, whatever was submitted meanwhile |
| `PoolInvariants.ControlStep` | src/BS_thread_pool.hpp:1980-1988 | `waiting` is set exactly while somebody waits, and workers' phases agree with the progress of a reset |
| `PoolInvariants.WakeStep` | src/BS_thread_pool.hpp:1417-1427 | each step keeps queued tasks covered by pending notifications and signalled workers while any worker sleeps |
| `PoolInvariants.StopSignals` | src/BS_thread_pool.hpp:2014-2023 | stopping a worker, even one holding a signal, takes no signal away from a queued task |
| `PoolHistory.NoLostTaskWakeup` | src/BS_thread_pool.hpp:2000-2027 | in every reachable state a sleeping worker implies queue length at most pending `notify_one` calls plus woken workers |
| `PoolHistory.ExactlyOnce` | src/BS_thread_pool.hpp:1525-1529 | each submitted task is once in exactly one of queued, running, done, purged; nothing else is anywhere |
| `PoolHistory.RunsOnOneWorker` | src/BS_thread_pool.hpp:2024-2039 | no task runs on two workers, and every running task was submitted |
| `PoolHistory.AllAccounted` | src/BS_thread_pool.hpp:1804 | with nothing queued or running every submitted task is done or purged |
| `PoolHistory.ResetKeepsQueue` | src/BS_thread_pool.hpp:2014-2026 | no step of a reset, and no stopped worker, takes, drops or duplicates a task |
| `PoolHistory.StartOrder` | src/BS_thread_pool.hpp:1963-1972 | tasks start in submission order for any number of workers; without purges exactly a prefix of the submissions |
| `PoolHistory.SoloFinishOrder` | src/BS_thread_pool.hpp:2014-2039 | with one worker, over any run of one-thread resets, tasks finish in the order in which they start |
| `PoolHistory.FinishStep` | src/BS_thread_pool.hpp:2024-2039 | with any number of workers, the finished tasks stay the first of the started ones if and only if the task that finishes is the oldest unfinished one |
| `PoolHistory.WritesStartInOrder` | src/BS_thread_pool.hpp:1963-1972 | for each opened stream, the payloads of started writes followed by those of queued ones are those of all submitted ones, in order of submission |
| `PoolWaiting.WaitMeaning` | src/BS_thread_pool.hpp:1796-1806 | when `wait` returns, every task submitted so far is done or purged and every worker has left its init function |
| `PoolWaiting.WaiterSignal` | src/BS_thread_pool.hpp:2003-2013 | a step signals the waiter, other than spuriously, if and only if it is the last worker counting itself out with nothing queued |
| `PoolWaiting.SpuriousIsHarmless` | src/BS_thread_pool.hpp:2014-2021 | any sleeping worker may wake spuriously, and with nothing queued goes back to sleep with nothing changed |
| `PoolWaiting.SpuriousWaiter` | src/BS_thread_pool.hpp:1797-1806 | so may the waiter while something is queued or running |
| `PoolWaiting.InitFunctionUnused` | src/BS_thread_pool.hpp:1889-1899 | a reset overwrites `init_func` only while no worker uses it or has yet to use it |
| `PoolWaiting.WaiterStep` | src/BS_thread_pool.hpp:2003-2013 | a step leaves a sleeping waiter without a wakeup if and only if it is a purge that finds no task running |
| `PoolWaiting.WaiterRun` | src/BS_thread_pool.hpp:1787-1807 | over any run with safe purges a sleeping waiter has something left that wakes it |
| `PoolWaiting.StrandedForGood` | src/BS_thread_pool.hpp:1525-1529 | a waiter stranded by a purge stays stranded until somebody submits or a wakeup is spurious |
| `PoolWaiting.PurgeCanStrand` | src/BS_thread_pool.hpp:1525-1529 | a reachable state in which a purge strands the waiter |
| `PoolProgress.NoLostCompletionWakeup` | src/BS_thread_pool.hpp:1797-1806 | a sleeping unsignalled waiter implies `waiting` and a task running or queued |
| `PoolProgress.RankFalls` | src/BS_thread_pool.hpp:1995-2044 | every step the pool takes by itself, the steps of a reset included, lowers a natural number |
| `PoolProgress.SpuriousRank` | src/BS_thread_pool.hpp:2014-2021 | a spurious wakeup raises that number by at most 2 |
| `PoolProgress.DrainBound` | src/BS_thread_pool.hpp:1995-2044 | a run without calls from outside has at most that many steps plus three for each spurious wakeup |
| `PoolProgress.QuietIsDrained` | src/BS_thread_pool.hpp:2014-2021 | the pool can take no step by itself if and only if it is drained: nothing queued or running, all asleep, no one waiting |
| `PoolProgress.DrainEnds` | src/BS_thread_pool.hpp:1787-1807 | once callers stop, every run is bounded and can only end with all tasks done or purged, all workers asleep, and the wait or reset finished |
| `PoolSize.RunSize` | src/BS_thread_pool.hpp:1949-1956 | over any run, from its labels alone: the pool has as many threads as its last reset asked for, or its constructor if there was none, where 0 asks for one per processor; and a reset under way will get there |
| `PoolSize.ResetEnds` | src/BS_thread_pool.hpp:1981-1988 | a reset happens: from any idle pool a call of `reset` and what the pool then does by itself end in just the threads asked for, all asleep, with every queued task done |
| `PoolSize.CallsAreTaken` | src/BS_thread_pool.hpp:1417-1427 | tasks and purges are taken at any time, waits and resets by any idle pool |
| `PoolClass.Pool.constructor` | src/BS_thread_pool.hpp:1281-1284 | a new pool is a state that a run of the machine starts from, and has the threads asked for |
| `PoolClass.Pool.DetachTask` | src/BS_thread_pool.hpp:1417-1427 | submitting in place is the machine's submit step, and names the task by its place in the history |
| `PoolClass.Pool.NotifyOne` | src/BS_thread_pool.hpp:1426 | a notification wakes some sleeper, or nobody only if none sleeps |
| `PoolClass.Pool.PopTask` | src/BS_thread_pool.hpp:1963-1972 | pops the oldest task and records its start |
| `PoolClass.Pool.TakeTask` | src/BS_thread_pool.hpp:2014-2026 | the tail of a critical section stops, sleeps or takes a task as the machine does |
| `PoolClass.Pool.WorkerRelocks` | src/BS_thread_pool.hpp:2002-2026 | the critical section after a task is one machine step, and its decrement never finds zero |
| `PoolClass.Pool.WorkerWakes` | src/BS_thread_pool.hpp:2014-2026 | the critical section after a wakeup is one machine step |
| `PoolClass.Pool.FinishTask` | src/BS_thread_pool.hpp:2032 | the end of a task is one machine step, of a submitted task that was not done or purged before |
| `PoolClass.Pool.PurgeTasks` | src/BS_thread_pool.hpp:1525-1529 | a purge empties the queue and touches nothing that runs |
| `PoolClass.Pool.Wait` | src/BS_thread_pool.hpp:1796-1806 | one machine step; if it returns, every task submitted so far is done or was purged, and a reset goes on to replace the threads |
| `PoolClass.Pool.WaiterWakes` | src/BS_thread_pool.hpp:1798-1806 | a woken waiter rechecks under the mutex; if it returns, every task submitted so far is done or was purged, and a reset goes on to replace the threads |
| `PoolClass.Pool.StartReset` | src/BS_thread_pool.hpp:1889-1900 | the thread count asked for is in place before the old threads stop, and no worker is in or before its init function |
| `PoolClass.Pool.StopThread` | src/BS_thread_pool.hpp:1901 | replacing the array stops its last thread first and wakes every sleeper if that one waits |
| `PoolClass.Pool.InstallThreads` | src/BS_thread_pool.hpp:1901-1908 | new threads, counter set to their number; the overwritten counter was 0 |
| `PoolClass.Pool.SpawnThreads` | src/BS_thread_pool.hpp:1909-1924 | the loop starts every thread once |
| `PoolClass.Pool.SubmitBlocks` | src/BS_thread_pool.hpp:1621-1641 | the k-th future names a task from the start to the end of the k-th block; the tasks are queued in block order behind what was there, each notified once, nothing else changed; nothing for an empty range |
| `Blocks.Blocks.constructor` | src/BS_thread_pool.hpp:463-481 | computes the exact split, and its branch for an empty block size is dead |
| `Blocks.SizePositive` | src/BS_thread_pool.hpp:465-467 | a non-empty range's size is converted to `size_t` exactly |
| `Blocks.SplitProper` | src/BS_thread_pool.hpp:465-476 | the constructor's numbers divide the range exactly into the smaller of the requested count and the size |
| `Blocks.WhenDefined` | src/BS_thread_pool.hpp:465-467 | the arithmetic is defined if and only if both ends are indices and, for signed types of 32 and 64 bits, the size is one too |
| `Blocks.CastsCancel` | src/BS_thread_pool.hpp:510-513 | for every index width the truncating casts in `start` cancel modulo the width |
| `Blocks.StartExact` | src/BS_thread_pool.hpp:510-513 | `start` is the exact value, with no signed overflow and no `size_t` wrap on the way |
| `Blocks.Tiling` | src/BS_thread_pool.hpp:489-513 | blocks are adjacent, begin at the first index and end at the last, and `start(num_blocks)` would be `index_after_last` |
| `Blocks.Balanced` | src/BS_thread_pool.hpp:489-513 | no block is empty, sizes differ by at most one and the larger come first |
| `Blocks.BlocksApart` | src/BS_thread_pool.hpp:489-513 | different blocks do not overlap |
| `ParallelLoops.InterleavedCall` | src/BS_thread_pool.hpp:1629-1637 | however other callers interleave, a call's futures name its blocks in block order |
| `ParallelLoops.Get` | src/BS_thread_pool.hpp:359-363 | the values of the futures in the order of the futures |
| `ParallelLoops.RunLoop` | src/BS_thread_pool.hpp:1668-1672 | the loop inside a block task is the sequential loop over its range |
| `ParallelLoops.FlattenBlocks` | src/BS_thread_pool.hpp:1629-1637 | loops over the blocks concatenate to the loop over the whole range |
| `ParallelLoops.ParallelEqualsSequential` | src/BS_thread_pool.hpp:1621-1641 | with the futures ready, `get` returns results that concatenate to the sequential loop, one per block |
| `ParallelLoops.EveryIndexOnce` | src/BS_thread_pool.hpp:1657-1678 | with the futures ready, the body was called exactly once on each index of the range and never elsewhere |
| `ParallelLoops.FuturesReady` | src/BS_thread_pool.hpp:1725-1767 | a drained pool that purged nothing has set every promise |
| `ParallelLoops.RunIsSequential` | src/BS_thread_pool.hpp:1621-1678 | for every run from construction, interleaving, worker count and block count that ends drained: the call's values are the sequential loop and each index was visited once |
| `ManagerClass.WebSocketManager.constructor` | src/websocketManager.cpp:23-38 | a new websocket has announced 127 credits and has no stream |
| `ManagerClass.WebSocketManager.Receive` | src/websocketManager.h:104-163 | parses and dispatches a message: CONNECT and DATA act on the streams, DATA for a live stream submits one write of its payload to the pool, everything else leaves both alone; the first packet that is not INFO ends the time for INFO |
| `WispManager.ByType` | src/websocketManager.h:104-163 | what a message does, by the value of its first byte, with the id and the stream type read from their places |
| `ManagerClass.WebSocketManager.HandleConnect` | src/websocketManager.cpp:84-124 | an opened stream starts with full credit, a refused one is answered with CLOSE 0x41 |
| `ManagerClass.WebSocketManager.HandleData` | src/websocketManager.cpp:126-168 | submits one write task with the packet's payload, takes the packet into account and returns the credit left; for an unknown stream nothing happens and nothing is returned |
| `ManagerClass.WebSocketManager.UpdateStreams` | src/websocketManager.h:204-215 | the loop refills exactly the streams at zero and sends each one CONTINUE |
| `ManagerClass.WebSocketManager.Drain` | src/server.cpp:61-71 | a drain clears the backpressure and then refills |
| `ManagerClass.WebSocketManager.SendData` | src/websocketManager.h:177-191 | what is put on the wire, and the backpressure the callback records |
| `ManagerClass.WebSocketManager.CloseStream` | src/websocketManager.cpp:63-82 | sends one CLOSE, forgets the stream and gives up its descriptor |
| `ManagerClass.WebSocketManager.ListStreams` | src/websocketManager.cpp:46-52 | lists every live stream once |
| `ManagerClass.WebSocketManager.ForceClose` | src/websocketManager.cpp:39-57 | closes every stream once, each with its own descriptor |
| `WispManager.AllClosedStreams` | src/websocketManager.cpp:53-55 | a forced close leaves no stream and no backpressure and sends one CLOSE for each stream |
| `WispManager.AcceptedLedger` | src/websocketManager.cpp:156-165 | a DATA packet keeps the credit ledger if and only if its TCP stream had credit |
| `WispManager.RefillDecided` | src/websocketManager.cpp:159-164 | a packet that finds credit leaves no further stream at zero if and only if it was not the last credit of a TCP stream, or the websocket has backpressure and the queue is below its limit |
| `WispManager.RefreshedLedger` | src/websocketManager.h:204-215 | a refresh keeps the ledger of every stream |
| `WispManager.OtherLedger` | src/websocketManager.cpp:119-120 | opening, closing and sending other frames keep every other stream's ledger |
| `WispManager.RefreshIsIdempotent` | src/websocketManager.h:204-215 | a refresh leaves no zero credit, and a second one at once changes and sends nothing |
| `CreditLink.EventKeeps` | src/websocketManager.cpp:126-168 | every step of client, channels and server keeps the credit invariant of every stream |
| `CreditLink.DataFindsCredit` | src/websocketManager.cpp:156-157 | a DATA packet that arrives for a live TCP stream finds credit, so `buffer--` does not wrap |
| `CreditLink.CreditConserved` | src/websocketManager.h:193-215 | over any run: client credit + DATA in flight + 127 per CONTINUE in flight = `buffer`; at most one CONTINUE in flight, and then the other two are 0 |
| `CreditLink.LedgerOverRuns` | src/websocketManager.cpp:156-167 | over any run: accepted DATA = 127·(1 + CONTINUEs) − `buffer`, with `buffer` in 0..127; UDP streams keep 127 and get no CONTINUE |
| `CreditLink.ConnectsAreFresh` | src/websocketManager.cpp:119-120 | a CONNECT of a client that obeys the protocol never names a live stream |
| `CreditLink.StarvedStep` | src/websocketManager.cpp:156-165 | a TCP stream at zero credit stays there over a step if and only if the step is not a refresh or drain that passes its guard, nor its end |
| `CreditLink.StarvedUntilRelieved` | src/websocketManager.cpp:159-164 | over any run without such a step, or of client packets only, the stream stays at zero credit and its client may not send |
| `CreditLink.MessageIsEvent` | src/websocketManager.h:104-163 | parsing and dispatching the bytes of a client's frame has exactly the effect of the protocol's event for that frame, so the protocol's results hold of the bytes |
| `ServerInvariants.QueueStep` | src/websocketManager.cpp:224-271 | each step of either thread keeps `send_queue_len` exact and the refresh loop's promise |
| `ServerInvariants.DeferredAccounting` | src/websocketManager.cpp:224-268 | in every reachable state `send_queue_len` is the number of callbacks deferred or about to be, so it never underflows |
| `ServerInvariants.CallbackRefreshes` | src/websocketManager.cpp:268-273 | a callback that leaves the queue below its limit ends with no zero-credit stream on any websocket without backpressure, and another refresh sends nothing |
| `ServerInvariants.QueueDecides` | src/websocketManager.cpp:160-161 | what each reader of `send_queue_len` makes of it: refills and refreshes happen at the limits of the code |
| `ServerInvariants.TargetsAreWatched` | src/websocketManager.cpp:116 | over any run every opened target, TCP or UDP, is watched until it ends or is closed |
| `Backpressure.FlagOverRuns` | src/websocketManager.cpp:247-251 | over any run, from its labels alone: a websocket has backpressure if and only if some send to it met backpressure and it has not drained since |
| `Backpressure.FlagStep` | src/websocketManager.cpp:156-168 | no other step touches the flag, refreshes and DATA packets included |
| `ServerInvariants.OwnershipStep` | src/websocketManager.cpp:97-123 | each step keeps every open descriptor with at most one stream and every descriptor closed at most once |
| `ServerInvariants.LeakStep` | src/websocketManager.cpp:119-120 | a step leaves an open descriptor without an owner if and only if it inserts a stream under a live id |
| `ServerInvariants.DescriptorOwnership` | src/websocketManager.cpp:39-82 | over any run: each descriptor ever opened is open or was closed exactly once, has at most one owner, and exactly one if no stream was inserted under a live id |
| `ServerInvariants.DestroyedManagerOwnsNothing` | src/server.cpp:72-80 | destroying a websocket closes each of its descriptors, which were open until then |
| `Delivery.DeliveryStep` | src/websocketManager.cpp:84-275 | every open descriptor keeps its stream, and every byte read its place, over a step if and only if the step recycles no number still named by a deferred entry, drops no bytes, refuses no CONNECT for a live stream and inserts no stream under a live id |
| `Delivery.LiveStreamsStep` | src/websocketManager.cpp:84-275 | the streams that are live after a step have what was read for them if and only if the first three of these hold |
| `Delivery.RefusedBreaks` | src/websocketManager.h:135-142 | a CONNECT refused for a live stream puts a CLOSE into that stream's frames |
| `Delivery.OpenDelivers` | src/websocketManager.cpp:93-102 | opening a target keeps delivery sound if and only if no pending entry with bytes or an end names its number |
| `Delivery.CallbackDelivers` | src/websocketManager.cpp:235-266 | a callback keeps delivery sound if and only if it does not drop bytes |
| `Delivery.DeliveredInOrder` | src/websocketManager.cpp:189-262 | after any careful run, for every live stream: DATA payloads sent since its opening, followed by what is deferred, are exactly the bytes read, in order, those read before its insertion included |
| `Delivery.RecordsStep` | src/websocketManager.cpp:39-82 | in any run a closed descriptor ended with its target or with its websocket, which is then gone |
| `Delivery.EndsWithOneClose` | src/websocketManager.cpp:219-266 | after any careful run every target that ended is accounted for: all its bytes were sent and then exactly one CLOSE; or its end is deferred behind all its bytes; or its websocket was closed first |
| `Callbacks.GoesOn` | src/websocketManager.cpp:227-275 | the loop is never stuck before or inside a callback, whatever the next send returns |
| `Callbacks.CallbacksFinish` | src/websocketManager.cpp:227-275 | left to its callbacks the loop comes to rest within a bound with nothing deferred, and if nothing was dropped every live stream's client was sent exactly what was read |
| `Callbacks.WatcherGoesOn` | src/websocketManager.cpp:176-227 | any open target that has not ended can be fetched, read and deferred, and what was read is then queued behind the rest |
| `Callbacks.EventsAreTaken` | src/server.cpp:44-80 | a loop at rest takes every event of every websocket: CONNECTs for TCP and UDP, DATA for any id, drains and the end |
| `Delivery.PlacesStep` | src/websocketManager.cpp:244-266 | the frames of a finished stream stay where they are in its websocket's frames |
| `World.WorldKeeps` | src/websocketManager.h:104-163 | every step of the composed system keeps credit, queue, ownership and the submitted writes together |
| `World.SystemInvariant` | src/websocketManager.cpp:84-168 | over any run of server, pool and clients: credit conserved on every websocket, every descriptor owned and watched until its target ends, queue count exact |
| `World.CreditNeverWraps` | src/websocketManager.cpp:156-157 | a packet taken by the server leaves the credit between 0 and 127 |
| `World.EndToEnd` | src/websocketManager.cpp:189-275 | after any careful run: what a client has received of a live stream, then what is on its way, then what is deferred, is what was read from the target; of a finished stream it has received a beginning, and with the last frame all of it and one CLOSE |
| `World.WritesStartInArrivalOrder` | src/websocketManager.cpp:126-154 | over any run of clients, server and pool: the payloads that a client sent on a live stream are, in order, those of the writes started, those of the writes queued and those on their way; and each of these writes names this websocket and this stream |
| `World.HandleDataIsStep` | src/websocketManager.cpp:132-154 | a DATA step changes the pool as `HandleData` of the websocket's object does |
| `World.WritesComplete` | src/websocketManager.cpp:132-154 | left to itself the pool stops within a bound, and where it can do no more every write ever submitted is done |
| `World.PoolGoesOn` | src/BS_thread_pool.hpp:1995-2044 | in any world whose pool is not drained the pool can take a step by itself |
| `World.PacketsAreTaken` | src/websocketManager.h:104-163 | a loop at rest can take the next packet of any client, whatever it is |
| `World.WritesFinishInArrivalOrder` | src/websocketManager.cpp:132-154 | over any run with a pool of one thread, the finished writes of a live stream are a beginning of what its client sent |
| `World.GoneForGood` | src/websocketManager.cpp:126-154 | once a stream is gone, no run submits another write for it |
| `WatcherClass.ReadAvailable` | src/websocketManager.cpp:193-217 | each read's bytes lie behind those of the reads before it, and nothing else is returned; reading goes on up to end, error, would-block or a full frame, says which, and stays below the largest websocket frame |
| `WatcherClass.ReadIsStep` | src/websocketManager.cpp:193-227 | what the read loop returns is what the machine's read step defers and adds to the bytes read |
| `WatcherClass.ForceCloseIsStep` | src/websocketManager.cpp:39-57 | the descriptors that a forced close gives up are those that the machine's step closes |
| `WatcherClass.SystemWatcher.SendToOwner` | src/websocketManager.cpp:228-263 | the nested search sends to the stream that owns the descriptor and to nobody else |
| `WatcherClass.SystemWatcher.Find` | src/websocketManager.cpp:235-236 | finds a stream with the descriptor, or there is none |
| `WatcherClass.SystemWatcher.RefreshAll` | src/websocketManager.cpp:270-272 | the last loop refreshes every websocket once |
| `WatcherClass.SystemWatcher.Callback` | src/websocketManager.cpp:227-275 | the whole callback: send, close at the end of the target, count out, refresh only below the limit |
| `WatcherClass.CallbackIsStep` | src/websocketManager.cpp:227-266 | the callback's search and send are the machine's step |
| `Packets.Le32RoundTrip` | src/packets.h:33 | little-endian 32-bit fields round trip both ways |
| `Packets.FrameBytes` | src/packets.h:55-65 | the bytes of a frame one by one: type, id from its lowest byte up, payload |
| `Packets.ParsedBytes` | src/packets.h:31-42 | a parsed frame, byte by byte |
| `Packets.WispPacket.Parse` | src/packets.h:31-42 | parsing a buffer in place yields the decoded frame |
| `Packets.WispPacket.Make` | src/packets.h:43-48 | a frame built from a payload holds a copy of it |
| `Packets.WispPacket.Serialize` | src/packets.h:55-65 | serializing in place yields the encoded frame |
| `Packets.DecodeEncode` | src/packets.h:31-65 | parsing undoes serializing for every frame |
| `Packets.EncodeDecode` | src/packets.h:31-65 | serializing undoes parsing for every buffer of at least five bytes |
| `Packets.ReadWire` | src/websocketManager.h:168-202 | the round trip composes through nested DATA, CONTINUE and CLOSE payloads |
| `Packets.WireBytes` | src/websocketManager.h:168-202 | DATA is type 2, CONTINUE 3 with its credit lowest byte first, CLOSE 4 with its reason |
| `Packets.SendContinue` | src/websocketManager.h:193-202 | the message built in place reads back as that CONTINUE |
| `Packets.SendClose` | src/websocketManager.h:168-176 | the message built in place reads back as that CLOSE |
| `Packets.InfoRoundTrip` | src/packets.h:75-109 | information packets round trip both ways |
| `Packets.InfoBytes` | src/packets.h:75-87 | major version, minor version, extensions, in this order |
| `Packets.ConnectPacket.Parse` | src/packets.h:119-140 | the fields of a CONNECT payload, hostname extended by a zero byte when it lacks one |
| `Packets.ConnectBytes` | src/packets.h:119-140 | type, port with its low byte first, hostname, in this order |
| `Packets.HostnameTerminated` | src/packets.h:128-137 | the hostname is terminated if and only if the payload is longer than three bytes or its third byte is not zero; exactly one byte is added when missing |
| `Packets.ConnectRoundTrip` | src/packets.h:119-140 | terminated on the wire or not, the server sees the hostname that the client encoded |
| `Pcap.PcapInterface.constructor` | src/pcap.h:36-60 | a capture starts with the three handshake segments |
| `Pcap.PcapInterface.WriteDummyUser` | src/pcap.h:85-99 | a user write appends one segment and advances the user's number by its length |
| `Pcap.PcapInterface.WriteDummyTarget` | src/pcap.h:101-115 | a target write appends one segment and advances the target's number by its length |
| `Pcap.CaptureReplays` | src/pcap.h:32-115 | for any interleaving and lengths TCP receivers accept every segment as the next expected modulo 2^32, every ack is the peer's next number, and the payloads reassemble to both streams |
| `Pcap.ReceiversAreStrict` | src/pcap.h:85-115 | in an established conversation the receivers accept a segment if and only if it is the sender's next one and acknowledges all that the receiver has sent |
| `Pcap.HandshakeIsStrict` | src/pcap.h:36-60 | three segments open a conversation only if they are a SYN, its acknowledged SYN and the acknowledgement of that |
| `Pcap.SequenceNumbers` | src/pcap.h:98-114 | the fields are 3 plus the bytes written by each side, modulo 2^32 |
| `Pcap.WriteTask` | src/websocketManager.cpp:135-153 | the retry loop makes attempts up to the first that does not have to be repeated, and the capture shows the payload once for each |
| `Pcap.CapturedOnce` | src/websocketManager.cpp:135-153 | the capture's user stream grows by just the payload if and only if the first attempt need not be repeated, or the payload is empty |
| `Witnesses.LeakCanHappen` | src/websocketManager.cpp:119-120 | a reachable state in which inserting a stream under a live id leaks a descriptor |
| `Witnesses.OverwriteCanLose` | src/websocketManager.cpp:119-120 | a run in which a CONNECT for a live id succeeds while a byte is deferred, and the byte is then neither sent nor deferred while its descriptor is open |
| `Witnesses.RefusalCanClose` | src/websocketManager.h:135-142 | a reachable state in which a refused CONNECT sends a CLOSE for a stream that lives on |
| `Witnesses.DropCanLose` | src/websocketManager.cpp:244-257 | a reachable state in which a dropped send loses a byte for good |
| `Witnesses.RecycleCanMisdeliver` | src/websocketManager.cpp:235-246 | a reachable state in which the client of a recycled descriptor number is sent another target's byte |
| `Witnesses.CreditCanWrap` | src/websocketManager.cpp:156-157 | a reachable state in which one more packet wraps the credit to 2^32 - 1 |
| `Witnesses.RefillCanBeLate` | src/websocketManager.cpp:159-164 | a reachable world in which an obedient client is stopped at zero credit with no backpressure, `send_queue_len` 0 and nothing deferred |
| `Witnesses.WritesCanOvertake` | src/websocketManager.cpp:132-154 | for every thread count but one, a reachable pool in which the second write of a stream has finished and the first has not |
| `Witnesses.HostnameCanBeOpen` | src/packets.h:128-137 | a payload whose hostname is left unterminated |
| `Witnesses.RetryCapturesTwice` | src/websocketManager.cpp:135-153 | one retry makes the capture show the payload twice |

## Left out

- Pools with pause, priorities or deadlock checks, several or timed waiters, and the pool's destructor.
- Exceptions thrown by tasks or init functions; futures that carry them.
- What a write does that starts after its stream or websocket is gone: it looks the stream up by id again.
- Other users of the server's pool: in `World` nobody but `handle_data` submits and nobody purges, as in the server; the pool may do anything else, waits and resets included.
- Affinity, thread names and priorities, `synced_stream`, `common_index_type`, version comparison, the semaphore polyfill.
- Sockets, DNS, `poll`, `write`, epoll, uWebSockets, PcapPlusPlus, tinyxml2 and CLI11: each is an environment step or a parameter. The defer queue is FIFO, and closing a descriptor removes it from epoll.
- Configuration and block lists: they decide only whether a CONNECT is refused.
- Short writes: the result of `write` is ignored by the code unless it is an error, so what the target receives is not claimed.
- A descriptor number recycled while the watcher is in the middle of reading it: one read is one step. Reading a fetched number that is no longer a target always fails in the model; in the code that number may by then belong to another descriptor, such as an accepted websocket, whose bytes the watcher would take.
- Frames other than DATA that the websocket drops, and overflow of `send_queue_len` at the top of `size_t`.
- Clients that reuse a stream id before the server's CLOSE for it arrived are covered by the server machine, not by the credit protocol.
- Length limits of IP packets in captures, and the checksums and addresses of the lower layers.
- Memory visibility: critical sections are atomic, and a worker reads its stop token once per section.
- ManagerClass.WebSocketManager.Receive: what opening a target yields and the deferred queue's length are parameters.
- ManagerClass.WebSocketManager.HandleConnect: what opening a target yields is a parameter; registering the descriptor with epoll is part of the machine's `ConnectOpens` step.
- Packets.WispPacket.Parse: asks for at least five bytes, and `Packets.ConnectPacket.Parse` for three; the code reads out of bounds on shorter messages instead of rejecting them.
- PoolClass.Pool.SpawnThreads: is its loop undisturbed by other threads; the interleaved loop is the machine's `Spawn` steps.
- PoolClass.Pool.SubmitBlocks: is its loop undisturbed by other threads; `ParallelLoops.InterleavedCall` covers interleaved calls.
- WatcherClass.SystemWatcher.Callback: runs with the watcher quiet; `WispServer` lets the watcher step inside it.
- ManagerClass.WebSocketManager.SendData: the status that the websocket returns is a parameter.
