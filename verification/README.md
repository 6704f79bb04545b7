# Verification of the kaycc reactor library

kaycc is a C++ network library in the reactor style: every I/O thread runs an
event loop, connections and timers belong to one loop, and other threads reach
a loop by queueing functors in it. This project models the parts whose
correctness rests on several functions or several threads at once and proves
what they are meant to guarantee. `dafny verify dfyconfig.toml` checks all of
it.

| file | models |
|---|---|
| `option.dfy`, `sequences.dfy` | the optional value and the sequence facts that the models share |
| `endian.dfy` | byte order conversions and the integers of the buffer |
| `buffer.dfy` | the growable byte buffer, as a class over an array |
| `orderedentries.dfy`, `timerqueue.dfy` | the timer queue, as a class over an explicit heap of timers |
| `pollers.dfy` | channels, both pollers, and the interest map that both refine |
| `eventloop.dfy` | the functor queue and wakeup protocol |
| `threadpool.dfy` | the bounded task queue with two condition variables |
| `connector.dfy` | the retrying connect state machine |
| `tcpconnection.dfy` | sending, half-close and close of one connection |
| `tcpserver.dfy` | a connection's trip between the accept loop and its I/O loop |

How the models are built:

* The kernel, the clock, other threads and user callbacks are inputs: a write
  may take any number of bytes or fail, events and functors may come in any
  order the loop allows, a callback may make any finite sequence of calls.
* A part that one thread runs is a class whose fields are the fields of the
  source. Each method is proved equal to a function on values, and the
  properties are lemmas about those functions over whole runs. Ghost fields
  hold history (what was sent, which timer ran when).
* The protocols between threads are transition systems, one step for each
  critical section, handler or functor; a run is any sequence of steps that are
  enabled. A lemma about a run holds for every interleaving. The classes
  `EventLoops.EventLoop`, `ThreadPools.ThreadPool`, `Connectors.Connector` and
  `Lifecycles.TcpServer` transcribe these steps into statements on fields, so
  that a reader can lay the source beside them; apart from the loop of
  `DoPendingFunctors` they add no proof of their own, and the results are the
  lemmas about the steps. The classes for the buffer, the timer queue, the
  pollers and the connection over its buffer are proofs: they work on arrays,
  objects and loops.
* What a step is for is stated from its inputs, not from the history the model
  keeps: tallies over runs (bytes the kernel reported, functors queued, messages
  posted, tasks given, channels reported) are read off the steps and the state
  before each, and then shown to account for that history.
* Calls that a callback makes while a handler runs are steps after that
  handler. A call on a connection changes only Connected to Disconnecting and
  the functor queue, and no handler reads either again before it ends, except
  that handleWrite may see a shutdown made by the message callback of the same
  dispatch; that is the run in which the shutdown comes between the two.
* An assert of the source is either proved where it stands, or recorded in a
  `fault` flag whose exact condition is then proved.

Where a promise fails, a lemma says exactly when:

* `net/buffer.h:61` compares a new buffer's space with the default size whatever
  size was asked for: it holds if and only if the default was asked for
  (`Buffers.ConstructorAssert`).
* The comment of `shrink` promises a writable space equal to the reserve. That
  is so if and only if contents and reserve together reach the initial size
  (`Buffers.ShrunkShape`).
* The sentry of `getExpired` has a 32-bit address. Its assert holds if and only
  if no timer at or above it expires at exactly the current microsecond
  (`Timers.SentrySeparates`).
* A functor the loop's own thread queues before `loop()` is signalled at the
  next poll of every interleaving if and only if a wakeup was stored or on its
  way at the call (`EventLoops.EarlyPushIff`).
* A `quit()` holds until `loop()` is next entered, which discards it
  (`EventLoops.QuitTakesHold`, `EventLoops.EarlyQuitIsOverwritten`).
* A running pool with a task queued can take it, without spurious wakeups, if
  and only if some worker is outside `run()`, or was woken inside it while there
  is room (`ThreadPools.TaskIsTakenIff`).
* A producer blocked when `stop()` is called can still be released if and only
  if some worker is inside `takeTask` at that moment
  (`ThreadPools.StopStrandsIff`).
* `Connector::connecting` asserts that the previous channel was reset. It fails
  if and only if a connect gets under way while the reset is still queued, which
  takes one round of event handlers of half a second, or a `restart()` at once
  (`Connectors.FaultIffFails`). If the reset then runs while the new channel is
  registered, it drops that channel: nobody closes its socket any more and the
  connector stays connecting for ever (`Connectors.SocketIsLostIff`,
  `Connectors.DeadForEver`).
* A further `start()` of a connector can make an assert fail unless it is
  disconnected with no attempt on its way and, when the loop's own thread calls,
  no channel left (`Connectors.StartIsSafeIff`).
* `shutdown()` can make the loop drop a message queued before it if and only if
  one is queued and the shutdown acts in the loop's own thread, or something
  waits to be written, or a queued message with content stands before another
  one (`Connections.ShutdownOvertakesIff`).
* A dispatch with HUP but not IN, together with PRI or RDHUP, and a read that
  returns 0, closes a connection twice; nothing else makes an assert of the
  connection's trip fail (`Lifecycles.AssertsHold`).

`peekInt16` (`net/buffer.h:273-277`) has no return statement; its evident intent
is modelled. All sizes and counters are unbounded integers except where an
integer's width is the point (the encoded integers, the eventfd counter, the
connection id).

## Model

| member | source | states |
|---|---|---|
| Endian.FromToNetwork | net/endian.h:15-38 | reading the big-endian image of a number gives it back, for every width |
| Endian.ToFromNetwork | net/endian.h:15-38 | every byte string is the image of the number it reads as |
| Endian.MostSignificantFirst | net/endian.h:15-25 | the k-th byte of the image is the k-th most significant digit in base 256 |
| Endian.WireImage | net/endian.h:15-25 | on a host of either byte order, copying the converted integer to memory gives the network image |
| Endian.WireValue | net/endian.h:28-38 | on a host of either byte order, loading network bytes and converting gives the value they stand for |
| Endian.DecodeEncode | net/buffer.h:213-283 | a signed integer of any width survives encoding and decoding |
| Endian.EncodeDecode | net/buffer.h:213-283 | every byte string is the encoding of the integer it decodes to |
| Endian.TwosComplement | net/buffer.h:213-256 | a number that is not negative is encoded as the image of itself, and -1 - x as the image of x with every bit turned over |
| Endian.MinusOneImage | net/buffer.h:213-256 | -1 is all ones at every width |
| Endian.DecodeAllEncodeAll | net/buffer.h:213-256 | integers appended in any mix of widths read back unchanged in order, and what follows them is untouched |
| Buffers.PrependAllImage | net/buffer.h:286-303 | prepended integers stand in the buffer in reverse order before the old content |
| Buffers.PrependRoundTrip | net/buffer.h:286-303 | prepended integers read back last first, and the old content is untouched |
| Buffers.PrependsRun | net/buffer.h:286-315 | prepending integers that fit in front, one call after the other, leads to exactly those contents |
| Buffers.SlideMovesForward | net/buffer.h:353-358 | the assert before the slide is always true: the readable bytes are not yet at the front |
| Buffers.GrowthBound | net/buffer.h:345-365 | one append or scatter read leaves the size at most max(old size, readable + 2 * len + 7) and never shrinks it |
| Buffers.RunSpaceBound | net/buffer.h:174-190 | over any run the size is bounded by the largest backlog and the largest request alone |
| Buffers.ShrunkShape | net/buffer.h:317-323 | after shrink the writable space is the reserve if and only if contents plus reserve reach the initial size |
| Buffers.ConstructorAssert | net/buffer.h:55-63 | the constructor's assert holds if and only if the default size was asked for |
| Buffers.StepIsQueue | net/buffer.h:126-178 | append, retrieve, shrink and readFd put bytes at the back, take them from the front and do nothing else |
| Buffers.RunIsQueue | net/buffer.h:126-178 | over a run of append, readFd, retrieve and shrink the contents are what was there and all that was written, without what was retrieved |
| Buffers.RunIsTape | net/buffer.h:126-323 | over any run of all six calls the contents are the stretch from front (retrieved less prepended) to back (written less unwritten), each position holding the byte last written there |
| Buffers.CheapPrepend | net/buffer.h:345-365 | until something is prepended every run leaves eight bytes of room in front |
| Buffers.EmptyIsFresh | net/buffer.h:126-161 | taking everything gives all the space back |
| Buffers.Buffer.constructor | net/buffer.h:55-63 | a new buffer is empty with the asked space and eight bytes before it |
| Buffers.Buffer.Retrieve | net/buffer.h:126-133 | drops the first bytes; taking all resets both indexes |
| Buffers.Buffer.RetrieveAsString | net/buffer.h:167-172 | returns exactly the bytes that are dropped |
| Buffers.Buffer.Unwrite | net/buffer.h:205-208 | drops the last bytes |
| Buffers.Buffer.SlideToFront | net/buffer.h:357-363 | the overlapping copy to the front keeps every readable byte |
| Buffers.Buffer.MakeSpace | net/buffer.h:345-365 | makes room, by growing or sliding, with the contents unchanged |
| Buffers.Buffer.EnsureWritableBytes | net/buffer.h:184-190 | there is room afterwards and the contents are unchanged |
| Buffers.Buffer.Append | net/buffer.h:174-178 | the contents are the old contents followed by the new bytes |
| Buffers.Buffer.Prepend | net/buffer.h:307-315 | the contents are the new bytes followed by the old contents |
| Buffers.Buffer.Shrink | net/buffer.h:318-323 | the contents survive the swap of buffers |
| Buffers.Buffer.ReadFd | net/buffer.cpp:25-54 | bytes delivered in two segments come out in order after the old contents; an error leaves the buffer alone and is reported |
| Buffers.Buffer.PerformAll | net/buffer.h:126-365 | any run of append, prepend, retrieve, unwrite, shrink and readFd over the growing, sliding and swapped array ends in the value of the run, with the contents that the edits of the tape leave; without prepend and unwrite they are what was there and was written, less what was taken |
| Buffers.Buffer.AppendInt | net/buffer.h:213-230 | appends the network image of the integer on either kind of host |
| Buffers.Buffer.PrependInt | net/buffer.h:286-303 | prepends the network image of the integer on either kind of host |
| Buffers.Buffer.PeekInt | net/buffer.h:259-283 | the result is what the first bytes encode, on either kind of host |
| Buffers.Buffer.ReadInt | net/buffer.h:234-256 | the result is what the first bytes encode, and they are consumed |
| Timers.HowMuchTimeFromNow | net/timerqueue.cpp:31-42 | the timespec is normalised, never zero and worth exactly the clamped distance |
| Timers.SetTimeArms | net/timerqueue.cpp:65-77 | the kernel timer is armed for the later of the expiration and 100 microseconds from now |
| Timers.Run | net/timerqueue.cpp:119-280 | every state of every run, callbacks included, satisfies ownership, index agreement, history and punctuality |
| Timers.AddMakes | net/timerqueue.cpp:119-125 | addTimer makes a timer with exactly the given time, interval and repeat flag under a sequence number never used before; all others stay as they were |
| Timers.AddedTimerFate | net/timerqueue.cpp:119-251 | in every run a timer that is added and not cancelled goes from its functor into the queue, leaves it at the first handleRead that finds it due and, if it repeats, is back at once, due one interval after that time, with its values unchanged; if not, it is freed |
| Timers.DoLeaves | net/timerqueue.cpp:119-173 | a call leaves every timer alone that it does not cancel, and only time moves the clock |
| Timers.HandledReadLeaves | net/timerqueue.cpp:175-251 | handleRead leaves every timer alone that is not in its batch and that no callback of the batch cancels |
| Timers.AddTakesHold | net/timerqueue.cpp:143-151 | the add functor puts exactly its timer into both indexes, changes no timer, and re-arms the kernel timer exactly when this one expires first |
| Timers.SingleOwner | net/timerqueue.cpp:143-280 | in every run, callbacks that add and cancel included, a live timer is held by one functor or by both indexes, and a timer made is live or freed, never both |
| Timers.IndexesAgree | net/timerqueue.cpp:253-280 | both indexes hold the same live timers, each under its current expiration and sequence |
| Timers.FiringSemantics | net/timerqueue.cpp:175-251 | no callback before its time, batches in order of expiration, a one-shot at most once, repeats an interval apart, nothing after delete |
| Timers.CancelIsFinal | net/timerqueue.cpp:153-173 | a cancel that found its timer frees it by the end of handleRead, and it runs later at most in the batch being executed |
| Timers.CancelTakesHold | net/timerqueue.cpp:153-173 | the cancel of a live timer takes hold if and only if its add functor has run; otherwise nothing changes but the set of cancels of the running batch |
| Timers.NeverArmedTooLate | net/timerqueue.cpp:143-151 | outside handleRead a non-empty queue has the kernel timer readable, or armed, in time for its earliest expiration up to the clamp |
| Timers.HandledReadRearms | net/timerqueue.cpp:239-250 | handleRead sets the kernel timer anew for the earliest expiration left, if that is a valid time |
| Timers.IdleReadKeepsTimerfd | net/timerqueue.cpp:175-251 | with no timer in the queue it stays as it was, unless it had gone off |
| Timers.HandledReadRuns | net/timerqueue.cpp:175-195 | handleRead runs exactly the expired timers, each once and in order, whatever their callbacks do |
| Timers.DueTimersRun | net/timerqueue.cpp:197-219 | a queued timer is in the batch if and only if it expired before now, or expires now at an address below the sentry |
| Timers.SentrySeparates | net/timerqueue.cpp:200-204 | the assert of getExpired holds if and only if no timer at or above the sentry address expires exactly now |
| Timers.SentryMisses | net/timerqueue.cpp:200-204 | for every address at or above the sentry, a run with one such timer reaches handleRead with the kernel timer readable and that assert failing |
| Timers.RecycleAllTreats | net/timerqueue.cpp:222-251 | reset restarts exactly the repeating timers of the batch that nobody cancelled and frees the others |
| Timers.HandledReadOutcome | net/timerqueue.cpp:175-251 | a timer of the batch lives on, one interval after the batch, if and only if it repeats and no callback body that ran cancels it |
| Timers.SizesAgree | net/timerqueue.cpp:155-278 | both indexes have the same number of entries whenever timers have one owner, as the size asserts say |
| Timers.AddedInLoopKeeps | net/timerqueue.cpp:143-151 | addTimerInLoop keeps ownership, history and punctuality, and finds its place free in both indexes |
| Timers.CancelledInLoopKeeps | net/timerqueue.cpp:153-173 | cancelInLoop keeps them too, and the erase it does finds its entry |
| Timers.BegunKeeps | net/timerqueue.cpp:175-186 | taking the expired timers out of both indexes keeps them |
| Timers.RecycledKeeps | net/timerqueue.cpp:225-237 | one round of reset keeps them, and a reinserted timer finds its place free in both indexes |
| Timers.TimerQueue.ResetTimerfd | net/timerqueue.cpp:65-77 | the kernel timer is set for the expiration, clamped |
| Timers.TimerQueue.NewTimer | net/timerqueue.cpp:119-125 | a timer with exactly the given values exists under a new sequence number, which the id carries, and waits for its functor |
| Timers.TimerQueue.Insert | net/timerqueue.cpp:253-280 | the timer enters both indexes, whose sizes agree before and after, and the result says whether the earliest expiration changed |
| Timers.TimerQueue.AddTimerInLoop | net/timerqueue.cpp:143-151 | inserts the timer and re-arms the kernel timer exactly when the earliest expiration changed |
| Timers.TimerQueue.CancelInLoop | net/timerqueue.cpp:153-173 | erases and frees a queued timer, or marks one of the running batch; the index sizes agree before and after |
| Timers.TimerQueue.GetExpired | net/timerqueue.cpp:197-219 | splits both indexes at the sentry and returns the expired entries; the index sizes agree before and after |
| Timers.TimerQueue.Recycle | net/timerqueue.cpp:225-237 | restarts and reinserts a surviving timer, deletes any other |
| Timers.TimerQueue.Reset | net/timerqueue.cpp:222-251 | treats the whole batch and re-arms for the earliest valid expiration |
| Timers.TimerQueue.HandleRead | net/timerqueue.cpp:175-195 | the whole of handleRead with callbacks that add and cancel equals its value function |
| Timers.RestartedKeeps | net/timer.cpp:8-14 | restart moves a repeating timer's expiration one interval past the batch time, touches nothing else and keeps every invariant |
| Channels.Channel.EnableReading | net/channel.h:89-92 | turns reading on and leaves writing as it was |
| Channels.Channel.DisableReading | net/channel.h:95-98 | turns reading off and leaves writing as it was |
| Channels.Channel.EnableWriting | net/channel.h:101-104 | turns writing on and leaves reading as it was |
| Channels.Channel.DisableWriting | net/channel.h:107-110 | turns writing off and leaves reading as it was |
| Channels.Channel.DisableAll | net/channel.h:113-116 | the mask is zero, so neither reading nor writing is on |
| PollPollers.IndexedAppend | net/poller/pollpoller.cpp:66-78 | a new slot keeps descriptors and slots in bijection with equal masks |
| PollPollers.IndexedUpdate | net/poller/pollpoller.cpp:80-94 | rewriting a slot keeps it, a zero mask hiding the slot |
| PollPollers.IndexedRemove | net/poller/pollpoller.cpp:98-128 | swap-remove keeps it and repoints exactly the moved channel |
| PollPollers.ReadyOnce | net/poller/pollpoller.cpp:42-60 | no descriptor is reported twice |
| PollPollers.PollPoller.UpdateChannel | net/poller/pollpoller.cpp:62-96 | map, array and back pointers fit the calls made so far; only this channel's slot changes |
| PollPollers.PollPoller.RemoveChannel | net/poller/pollpoller.cpp:98-128 | the same after a removal; the removed channel keeps its index |
| PollPollers.PollPoller.FillActiveChannels | net/poller/pollpoller.cpp:42-60 | a channel is listed if and only if its slot was reported, once, with its events; the others are untouched |
| EPollPollers.EPollPoller.Update | net/poller/epollpoller.cpp:189-210 | the kernel set changes as epoll_ctl says, or the call is counted as failed |
| EPollPollers.EPollPoller.UpdateChannel | net/poller/epollpoller.cpp:130-166 | the kernel set mirrors the added channels and no control call fails |
| EPollPollers.EPollPoller.RemoveChannel | net/poller/epollpoller.cpp:168-187 | the channel leaves map and kernel set and may be registered again |
| EPollPollers.EPollPoller.FillActiveChannels | net/poller/epollpoller.cpp:110-127 | every event leads to the registered channel of its descriptor, no channel twice |
| PollerRefinement.PollPollerWatches | net/poller/pollpoller.cpp:62-128 | the slots the kernel polls are the interest map without its zero masks |
| PollerRefinement.EPollPollerWatches | net/poller/epollpoller.cpp:130-187 | the kernel set without zero masks is that same map |
| PollerRefinement.PollersAgree | net/poller/epollpoller.cpp:130-187 | after the same calls both pollers watch the same descriptors with the same masks |
| EventLoops.StepKeepsInv | net/eventloop.cpp:103-182 | every step of any thread keeps the signalling and ordering invariant |
| EventLoops.WakeupNeverLost | net/eventloop.cpp:172-182 | in every interleaving a loop at poll with a functor or a quit pending is signalled, save for a push its own thread made outside loop() |
| EventLoops.DisciplinedRunsAreSafe | net/eventloop.cpp:172-182 | in any run in which the loop thread queues nothing outside loop(), no wakeup is ever lost |
| EventLoops.EarlyPushIff | net/eventloop.cpp:172-182 | after a push of the loop thread before loop(), every interleaving comes to its next poll signalled if and only if a wakeup was stored or on its way at the push |
| EventLoops.EarlyPushBlocks | net/eventloop.cpp:178-180 | from the start state such a push leaves the loop blocked in poll with the functor pending |
| EventLoops.EarlyQuitIsOverwritten | net/eventloop.cpp:103-107 | loop() discards any quit made before it and goes to poll |
| EventLoops.FunctorsAreFifo | net/eventloop.cpp:311-329 | functors started, then the rest of the snapshot, then the queue are the functors of the queueInLoop calls of the run, in call order |
| EventLoops.ReportedAreHandled | net/eventloop.cpp:113-137 | in every run the channels that polls report are handled once each, in that order |
| EventLoops.OnlyHandlingClears | net/eventloop.cpp:286-308 | only the handler of the wakeup channel takes wakeups away, all at once, and only a wakeup adds one |
| EventLoops.SnapshotIsBounded | net/eventloop.cpp:311-329 | one doPendingFunctors runs only its snapshot, however much is queued meanwhile |
| EventLoops.SignalledLoopDrains | net/eventloop.cpp:113-138 | once the wakeups under way are written, a loop at poll runs everything queued so far by its own steps |
| EventLoops.QuitIffCalled | net/eventloop.cpp:103-159 | in every run a quit is requested if and only if some quit() of the run, or one before it, was not followed by loop() |
| EventLoops.QuitIsKept | net/eventloop.cpp:152-159 | a quit stays requested in every run that does not enter loop() again |
| EventLoops.QuitReturns | net/eventloop.cpp:103-143 | wherever the loop is, at poll with the wakeup written, a requested quit makes its own steps return from loop() |
| EventLoops.QuitTakesHold | net/eventloop.cpp:103-159 | after a quit() by any thread, in every run that does not enter loop() again, the flag is set and the loop returns by its own steps |
| EventLoops.DidPendingRuns | net/eventloop.cpp:311-329 | doPendingFunctors runs exactly what was pending and leaves exactly what those functors queued, in order |
| EventLoops.EventLoop.QueueFrom | net/eventloop.cpp:172-182 | queueInLoop of another thread is a push and then a wakeup |
| EventLoops.EventLoop.QuitFrom | net/eventloop.cpp:152-159 | quit of another thread sets the flag and then writes a wakeup |
| EventLoops.EventLoop.QueueInLoop | net/eventloop.cpp:172-182 | queueInLoop of the loop's thread wakes itself exactly while functors run |
| EventLoops.EventLoop.HandleRead | net/eventloop.cpp:302-308 | clears the eventfd counter |
| EventLoops.EventLoop.DoPendingFunctors | net/eventloop.cpp:311-329 | the loop over the swapped vector makes the steps of the protocol, re-entrant pushes included |
| ThreadPools.StepKeepsInv | base/threadpool.cpp:48-145 | every step, barging and spurious wakeups included, keeps the covering, conservation and stop invariants |
| ThreadPools.NoLostSignal | base/threadpool.cpp:65-117 | with single notifies, queued tasks and a sleeping worker mean another worker is on its way, and likewise for free places and producers |
| ThreadPools.NoDeadlock | base/threadpool.cpp:65-117 | when all workers of a running pool sleep, nothing is queued and a waiting producer means another is on its way |
| ThreadPools.TaskIsTakenIff | base/threadpool.cpp:65-117 | in a running pool with a task queued, a run without spurious wakeups takes a task if and only if some worker is outside run(), or was woken inside it while there is room |
| ThreadPools.TaskCanBeTakenIff | base/threadpool.cpp:65-117 | with spurious wakeups allowed for, some run takes one if and only if some worker is outside run() or there is room |
| ThreadPools.PlainPoolTakes | base/threadpool.cpp:65-117 | with an unbounded queue, or one worker whose tasks never call run(), a queued task can always be taken |
| ThreadPools.WorkerBlocksItself | base/threadpool.cpp:65-80 | the stuck pool is reachable with one worker whose task calls run() |
| ThreadPools.TasksConserved | base/threadpool.cpp:65-117 | tasks taken followed by the queue are the tasks submitted in order, and the queue never exceeds its maximum |
| ThreadPools.EveryCallIsQueuedOnce | base/threadpool.cpp:65-80 | every task given to run() enters the queue exactly once, each caller's in call order, at the first turn that finds room; until then the caller holds it |
| ThreadPools.TakeWaitsIff | base/threadpool.cpp:99-117 | takeTask waits if and only if the pool runs and the queue is empty, and returns without a task only when stopped |
| ThreadPools.StopReleasesWorkers | base/threadpool.cpp:48-58 | after stop no worker sleeps unsignalled and each takes at most one more task |
| ThreadPools.RunningUntilStop | base/threadpool.cpp:48-53 | in every run the pool is running if and only if stop() was not called |
| ThreadPools.StoppedWorkerExits | base/threadpool.cpp:48-145 | after stop(), in every run, a worker that is not inside run() exits by its own steps |
| ThreadPools.StopStrandsIff | base/threadpool.cpp:48-58 | a producer blocked at stop can still be released, other than spuriously, if and only if some worker is inside takeTask at the stop |
| ThreadPools.BlockedForEver | base/threadpool.cpp:48-58 | after stop, with no worker inside takeTask, a blocked producer stays blocked in every run in which its own wait does not end spuriously |
| ThreadPools.StopStrandsProducer | base/threadpool.cpp:48-58 | such a stranded producer is reachable |
| ThreadPools.ThreadPool.Offer | base/threadpool.cpp:65-80 | one turn of run(): waits if and only if the queue is full, else queues and notifies one worker |
| ThreadPools.ThreadPool.Fetch | base/threadpool.cpp:99-117 | one turn of takeTask(): waits, or returns the oldest task or none, and notifies one producer of a bounded queue |
| ThreadPools.ThreadPool.StopPool | base/threadpool.cpp:48-53 | stops and wakes every waiting worker |
| Connectors.StepKeepsInv | net/connector.cpp:34-238 | every step, a safe start included, keeps the invariant and fails an assert if and only if it connects before the previous channel was reset |
| Connectors.FaultIffFails | net/connector.cpp:129-133 | over any run, whatever its timing, whose starts are safe an assert fails if and only if some step connects before the previous channel was reset |
| Connectors.PromptRunsAreSafe | net/connector.cpp:34-238 | if the loop gets to its functors within the initial delay, each restart waits for the queued reset and starts are safe, no assert fails |
| Connectors.SocketsAreLinear | net/connector.cpp:67-238 | in every run, whatever its timing, each socket made is closed once, handed over once, lost, or the one in the registered channel, as long as startInLoop has not run while not disconnected |
| Connectors.SocketIsLostIff | net/connector.cpp:150-163 | in any run with safe starts a socket is lost if and only if a queued reset runs while the channel is registered, and then a connect had got under way before that reset and an assert has failed |
| Connectors.NoFaultLosesNothing | net/connector.cpp:67-238 | with no assert failed every socket is closed once, handed over once, or in the registered channel |
| Connectors.LostMeansDead | net/connector.cpp:150-163 | a run that loses a socket ends connecting without a channel |
| Connectors.DeadForEver | net/connector.cpp:57-64 | no run with safe starts leaves that state, and no socket is made, closed or handed over in it |
| Connectors.SlowRoundLoses | net/connector.cpp:129-163 | the slow round of handlers, going on to its functors, loses the second socket |
| Connectors.SafeStartsNeverOverlap | net/connector.cpp:40-48 | with safe starts startInLoop never does, whatever the timing |
| Connectors.SlowRoundFails | net/connector.cpp:129-133 | one round of handlers of half a second makes the assert fail |
| Connectors.DispatchKeeps | net/connector.cpp:166-216 | an error and a write event in one dispatch close the socket once |
| Connectors.DispatchEndsAttempt | net/connector.cpp:166-216 | an error or write event ends the attempt: the channel waits for its reset, and the socket is handed over if established and wanted and closed if not |
| Connectors.AttemptResult | net/connector.cpp:40-115 | a socket is made if and only if the step is an attempt; it is in a registered channel if the connect is in progress, and closed on any error |
| Connectors.BackoffIsExponential | net/connector.cpp:219-238 | in every run the k-th retry delay since a reset is min(500 * 2^k, 30000) |
| Connectors.RetriesIff | net/connector.cpp:67-238 | exactly a transient error, and the end of an attempt still wanted, set one timer, at the time of the next delay; a fatal error sets none |
| Connectors.RestartStartsOver | net/connector.cpp:118-126 | in every run after a restart the delays start over at 500 milliseconds |
| Connectors.StartIsSafeIff | net/connector.cpp:34-48 | whatever connect returns and however the run goes on promptly, no assert fails after a start if and only if the connector was disconnected with no attempt on its way and, for a call in the loop, no channel left |
| Connectors.SecondStartFails | net/connector.cpp:40-48 | a start while a retry waits lets that retry fail the assert of startInLoop |
| Connectors.HandOverIff | net/connector.cpp:166-199 | a socket is handed to the callback if and only if a write event without error finds it established and still wanted, and it is the one owned |
| Connectors.StoppedStaysQuiet | net/connector.cpp:51-64 | after stop, until started or restarted, no socket is made or handed over and no retry is scheduled |
| Connectors.StopEndsAttempt | net/connector.cpp:57-64 | the functor of stop() closes the socket of an attempt under way once, owns none and leaves the channel waiting for its reset |
| Connectors.StopEndsAttempts | net/connector.cpp:51-64 | after stop() at any point of any run, until started again, once its functor has run the connector is never connecting, as long as no socket was lost |
| Connectors.WishesAreQueued | net/connector.cpp:34-54 | start() and stop() leave their wish and, but for a start in the loop, one functor |
| Connectors.NeverGivesUp | net/connector.cpp:67-115 | in any run without a fatal connect error a connector that is wanted and has lost no socket is connected, has a registered channel, or has its next attempt on the way |
| Connectors.Connector.DoConnect | net/connector.cpp:67-115 | makes a socket and connects, retries or closes it as the error says |
| Connectors.Connector.DoHandleWrite | net/connector.cpp:166-199 | hands the socket over, or closes and retries, after taking the channel out |
| Connectors.Connector.DoStopInLoop | net/connector.cpp:57-64 | disconnects an attempt under way, closing its socket once and taking its channel out; with no channel the null pointer is a fault |
| Connectors.Connector.DoRetry | net/connector.cpp:219-238 | closes the socket, schedules the next attempt and doubles the delay |
| Connectors.Connector.DoResetChannel | net/connector.cpp:161-163 | the channel is gone; one still registered is a fault and its socket is lost |
| Connectors.Connector.DoRestart | net/connector.cpp:118-126 | starts again with the initial delay |
| Connectors.Connector.DoDispatch | net/channel.cpp:71-109 | the error callback comes before the write callback |
| Connections.ByteStream | net/tcpconnection.cpp:163-224 | in every run the bytes the kernel took and then the output buffer are the accepted messages, whole and in order, and write interest follows the buffer until close |
| Connections.KernelGotTheStream | net/tcpconnection.cpp:163-400 | in every run what was sent is the accepted messages as far as the reports of the write calls add up to, and the output buffer is the rest |
| Connections.HandleWriteResult | net/tcpconnection.cpp:365-400 | handleWrite moves exactly the reported bytes from the buffer to what is sent; any other report moves none |
| Connections.MessagesKeepCallOrder | net/tcpconnection.cpp:98-128 | in every run the messages of calls by other threads reach sendInLoop in call order, none lost and none twice |
| Connections.EveryMessageIsJudged | net/tcpconnection.cpp:163-224 | in every run the messages accepted or dropped are exactly those that reached sendInLoop, in that order |
| Connections.SendVerdict | net/tcpconnection.cpp:163-224 | a message is dropped if and only if the connection is closed or the direct write breaks, and always after a half-close |
| Connections.GracefulHalfClose | net/tcpconnection.cpp:227-241 | on a connection not closed SHUT_WR is issued only with nothing unsent, nothing is sent after it, and once asked for it has been issued when the buffer is empty |
| Connections.DrainIssuesShutdown | net/tcpconnection.cpp:365-400 | the handleWrite that drains a disconnecting connection issues it at once |
| Connections.ShutdownIsHonoured | net/tcpconnection.cpp:227-241 | in every run after a shutdown() the connection is closed, half-closed, has bytes to drain first, or its functor waits |
| Connections.ShutdownCompletes | net/tcpconnection.cpp:227-400 | from every state of such a run the loop's own functors and a draining write half-close it, if nothing closes it first |
| Connections.StepMovesForward | net/tcpconnection.cpp:227-271 | the state never moves backwards |
| Connections.ClosesIff | net/tcpconnection.cpp:227-416 | exactly a peer's close, forceCloseInLoop and the destruction of a connected one close a connection, and exactly the close and shutdown calls end its being connected before that |
| Connections.ForceCloseIsHonoured | net/tcpconnection.cpp:244-271 | in every run after a forceClose() the connection is closed or the functor waits, and running it closes |
| Connections.CompletesMeanSent | net/tcpconnection.cpp:183-185 | a write-complete notice is queued only with no accepted byte unsent |
| Connections.SendQueuesNotices | net/tcpconnection.cpp:178-211 | sendInLoop queues a high-water notice with the new length exactly at an upward crossing and a write-complete notice exactly when the direct write took the whole message |
| Connections.WriteQueuesNotices | net/tcpconnection.cpp:373-382 | handleWrite queues a write-complete notice exactly when it empties the buffer |
| Connections.HighsAreCrossings | net/tcpconnection.cpp:205-211 | high-water notices of a run are as many as upward crossings of the mark by the buffer length |
| Connections.DropBetweenNotices | net/tcpconnection.cpp:205-211 | between the steps of two high-water notices of one run the buffer was drained below the mark |
| Connections.ShutdownOvertakesIff | net/tcpconnection.cpp:98-241 | some run after a shutdown brings a queued message to a half-closed live connection if and only if one is queued and the shutdown acts in the loop, or something waits to be written, or a queued message with content stands before another |
| Connections.OvertakenIsDropped | net/tcpconnection.cpp:163-224 | such a message is dropped whatever the kernel reports |
| Connections.LogIsFinal | net/tcpconnection.cpp:98-111 | once the connection is no longer connected and no message is queued, no run changes what was accepted or dropped |
| Connections.ShutdownOvertakesSend | net/tcpconnection.cpp:98-111 | such a run from a new connection, with the message dropped |
| Connections.StepKeepsInv | net/tcpconnection.cpp:98-416 | every call, functor and event keeps conservation, interest, half-close and notice invariants |
| Connections.TcpConnection.DoSendInLoop | net/tcpconnection.cpp:163-224 | direct write, partial write, slow path and error as the value function says, over the real buffer |
| Connections.TcpConnection.DoHandleWrite | net/tcpconnection.cpp:365-400 | retrieves exactly what the kernel reports and ends write interest, notice and half-close with the last byte |
| Connections.TcpConnection.DoShutdownInLoop | net/tcpconnection.cpp:235-241 | half-closes exactly when nothing waits to be written |
| Connections.TcpConnection.DoSend | net/tcpconnection.cpp:98-128 | sends at once in the loop's thread, queues elsewhere, ignores a connection that is not connected |
| Connections.TcpConnection.DoShutdown | net/tcpconnection.cpp:227-233 | moves a connected connection to disconnecting and half-closes now or later |
| Connections.TcpConnection.DoForceClose | net/tcpconnection.cpp:244-250 | queues the close of a connection not yet closed |
| Connections.TcpConnection.RunNext | net/tcpconnection.cpp:264-271 | runs the oldest functor of the connection |
| Lifecycles.KeysDistinct | net/tcpserver.cpp:82-86 | connection ids give distinct names as long as the address has at most 51 characters, as every IPv4 and IPv6 address has |
| Lifecycles.LongAddressCollides | net/tcpserver.cpp:82-83 | that bound is tight: one character more and the name buffer would cut the id, though no address is that long |
| Lifecycles.AssertsHold | net/tcpserver.cpp:78-139 | in any run an assert of the trip fails if and only if some dispatch reports HUP without IN but with PRI or RDHUP and reads 0 |
| Lifecycles.HangUpWithUrgentData | net/channel.cpp:71-99 | such a dispatch closes a connection twice |
| Lifecycles.DispatchClosesIff | net/channel.cpp:71-109 | a dispatch closes the connection if and only if it reports HUP without IN, or IN, PRI or RDHUP with a read of 0; otherwise the server is unchanged |
| Lifecycles.ClosedIffEnded | net/tcpconnection.cpp:264-416 | in every run a connection is closed if and only if such a dispatch was made or its forceCloseInLoop ran once established |
| Lifecycles.ExactlyOnce | net/tcpserver.cpp:78-139 | established once, closed at most once, then erased once with result 1, then destroyed once, each stage done or its one functor waiting |
| Lifecycles.InPollerBetween | net/tcpconnection.cpp:319-343 | the channel is in the poller exactly from connectEstablished to connectDestroyed, with interest exactly until handleClose |
| Lifecycles.ReleasedWhenDone | net/tcpconnection.cpp:72-78 | a registered channel's connection is held, and one the library lets go of is disconnected, unregistered and through all stages |
| Lifecycles.RawFunctorsAreSafe | net/tcpconnection.cpp:98-241 | the functors of sendInLoop and shutdownInLoop, which hold a raw pointer, stand before any connectDestroyed of their connection, and it is held and registered while they wait and when they run |
| Lifecycles.NamesAreFresh | net/tcpserver.cpp:78-100 | the next connection's name is not in the map and was never used |
| Lifecycles.PhasesMoveForward | net/tcpconnection.cpp:227-416 | no step moves a connection's state backwards or changes its loop or name |
| Lifecycles.CloseCompletes | net/tcpserver.cpp:119-139 | from any reachable state running the accept loop's queue and the connection's own takes a closed connection to its end |
| Lifecycles.ForceCloseCloses | net/tcpconnection.cpp:244-271 | after forceClose() of a live connection, however the run goes on, one pass through its loop's queue closes it if nothing else has |
| Lifecycles.EstablishCompletes | net/tcpserver.cpp:112 | from any reachable state running its loop's queue establishes an accepted connection |
| Lifecycles.StepKeepsInv | net/tcpserver.cpp:78-139 | every accept, functor, event and call keeps all connections on their trip |
| Lifecycles.AcceptKeeps | net/tcpserver.cpp:78-115 | a new connection enters the map under a fresh name and is established at once or by one functor |
| Lifecycles.AcceptPlaces | net/tcpserver.cpp:78-115 | it belongs to the chosen loop and is established at once in the accept loop, by one queued functor elsewhere; nobody else changes |
| Lifecycles.CallEffect | net/tcpconnection.cpp:98-250 | send, shutdown and forceClose change at most their connection from connected to disconnecting and queue exactly their own functor behind what waits |
| Lifecycles.HandleCloseKeeps | net/tcpconnection.cpp:403-416 | closing a live connection leaves one removal on its way, or done in the accept loop |
| Lifecycles.RemovedKeeps | net/tcpserver.cpp:125-139 | the erase finds its entry and one connectDestroyed is queued |
| Lifecycles.DestroyedKeeps | net/tcpconnection.cpp:332-343 | the channel it removes has no interest and is registered |
| Lifecycles.DestroyedDisconnects | net/tcpconnection.cpp:332-343 | connectDestroyed of a connection still connected disconnects it and clears its interest before the channel is removed |
| Lifecycles.TcpServer.AcceptConnection | net/tcpserver.cpp:78-115 | newConnection as a step on map, id and queues |
| Lifecycles.TcpServer.RemoveInLoop | net/tcpserver.cpp:125-139 | removeConnectionInLoop as a step on map and queues |
| Lifecycles.TcpServer.CloseConnection | net/tcpconnection.cpp:403-416 | handleClose with its close callback, direct in the accept loop and queued elsewhere |
| Lifecycles.TcpServer.DestroyConnection | net/tcpconnection.cpp:332-343 | connectDestroyed with the removal of the channel |
| Lifecycles.TcpServer.DispatchEvent | net/channel.cpp:71-109 | handleEventWithGuard: close, then read; the connection ends disconnected if the event closes it, and nothing changes if not |
| Lifecycles.TcpServer.RunNext | net/eventloop.cpp:311-329 | the oldest functor of a loop runs |

## Left out

- Channels.Channel.EnableReading: the call of the poller that the source makes in the same method is made by the caller of both here.
- Channels.Channel.DisableReading: the same.
- Channels.Channel.EnableWriting: the same.
- Channels.Channel.DisableWriting: the same.
- Channels.Channel.DisableAll: the same.
* `findCRLF`, `findEOL`, `retrieveUntil` and the fixed-width `retrieveInt` calls of the buffer: searches and special cases of `Retrieve`.
* Overflow of `size_t` and of the timer sequence number; the connection id is bounded, what comes after its last value is not modelled.
* The clock stands still between two readings inside one timer operation; it may advance between calls, and `handleRead` keeps the time it read.
* Intervals are whole microseconds; the rounding of `double` seconds is not modelled.
* A failing assert of `getExpired` ends a debug build; the model goes on as a release build does.
* Failing system calls other than connect, write and readv, among them `timerfd_settime` and `epoll_ctl` for lack of memory.
* Re-registering a channel that `PollPoller` removed: its index is not reset and the asserts of `updateChannel` exclude it. A `PollPoller` channel must also have had a zero mask in an update after its first before it is removed.
* The growth of the epoll event array and the `poll` calls themselves; what they report is an input.
* `Channel` tie, `eventHandling_` and `addedToLoop_`: an event is only dispatched to a connection that is held, and a channel is only removed by a functor.
* EventLoop and ThreadPool steps are atomic: a flag is read or written in one step, memory ordering of plain `bool` fields is not modelled.
* The classes `EventLoops.EventLoop` and `ThreadPools.ThreadPool` run one thread undisturbed; interleaving is in the step functions.
* A pool without threads, which runs a task in the caller, the join at the end of `stop`, and exceptions thrown by tasks.
* `restart()` of a connector that is not connected.
* `startRead` and `stopRead`, `setHighWaterMark` after the start, TCP options, and `forceCloseWithDelay` beyond its change of state and its later `forceClose`.
* The kernel is taken to refuse bytes after SHUT_WR.
* Write interest of a connection is in `Connections` only; in the lifecycle model the functors of `sendInLoop` and `shutdownInLoop` have no effect when they run.
* What the source does after `stopInLoop` has used a null `channel_`: the connector's state stays as it was and `fault` is set.
* Destructors of server, client and loop, `TcpClient`, the choice of the I/O loop (any choice is allowed), the acceptor, logging, and thread start-up.
