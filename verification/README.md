# rust-async-bench, modelled in Dafny

rust-async-bench runs one fake network server twice: as a hand-written event loop, and as async functions
on a small single-threaded executor. It counts the I/O calls each makes and checks, for 256 connections,
that the counts agree. This project models that stack, from the intrusive list up to both servers, and
proves the comparison for every number of connections.

## The layers

| file | what it models |
|---|---|
| `IntrusiveList.dfy` | the doubly linked list over a shared node store |
| `QueuedSlab.dfy` | a slab with one such list threaded through it |
| `Scheduler.dfy` | the FIFO scheduler as a value: tasks, awake flags, waker counts, queue |
| `ArgExecutor.dfy`, `BxExecutor.dfy`, `BoxRcExecutor.dfy` | the three task tables, each refining that scheduler |
| `TaskLog.dfy` | the log of every operation on a task table, and what holds of all such logs |
| `Executors.dfy` | any one of the three task tables, with its log |
| `Futures.dfy`, `ProcessNext.dfy` | arbitrary futures that spawn, and wake, clone and drop wakers, while they are polled and when they are dropped; `process_next` over them, on any of the three |
| `FutureLaws.dfy` | what such scripts come to, said of the tasks: each use, spawn and poll by what it leaves, and when a future completes |
| `FakeIo.dfy` | streams, listener, poll table, the counters, and the tape of every call they counted |
| `Echo.dfy`, `ManualConnection.dfy` | one request and response, as resumable loop and as straight-line code |
| `Pipeline.dfy`, `PipelineRuns.dfy` | what a round does to the connections, every schedule of it, and the calls it makes |
| `ObjectCalls.dfy`, `RoundOrder.dfy` | the calls each object sees, and their order within a round |
| `ManualServer.dfy` | the event loop |
| `Reactor.dfy` | registrations, readiness and counted wakers |
| `AsyncModel.dfy`, `AsyncServer.dfy` | the I/O futures, `listen` and `connection` as resumable state machines, the main loop over any of the three executors |
| `Comparison.dfy` | the manual server and the async one on each executor, side by side |

The number of connections `n` and the buffer size are parameters (the size at least that of a request).
A slab may hand out any vacant key and the poll table may report its events in any order: both are
nondeterministic choices, so no result depends on an allocation policy. `will_wake` may fail to recognise an
equal waker.

## Main results

* **Equal I/O.** `Comparison.Compare`: for every `n`, every run of the manual server, and of the async server on
  each of the three executors, ends with register = unregister = n + 1, accept = read = write = 2n and poll = n + 2
  (no poll at all when n = 0), and `k` runs cost exactly `k` times that. The runs go all the way down: linked queue,
  slab, poll table, registrations, waker counts.
* **The same calls on every object.** The counters keep a ghost tape of every call: its kind, its object, whether it
  blocked, and the bytes a write was given; each counter is the number of calls of its kind on the tape
  (`FakeIo.NoteAllCounts`). `Comparison.CompareCalls`: in one run of each server the listener and every stream see the
  same calls, with the same outcomes, in the same order.
* **Order within a round.** Both servers read and write the streams accepted in a round after the older ones
  (`RoundOrder.NewLast`): the manual loop because it serves its queue in order, the async server because its executor
  does. The manual loop also makes all its accepts before any read or write (`RoundOrder.AcceptsFirst`). Both `Run`
  methods promise it of the calls they made.
* **No wasted call.** On that tape (`Frugal`), after a call on an object has blocked no call names the object until
  the next poll; both `Run` methods promise it of the calls they made.
* **Every schedule.** `PipelineRuns.EveryScheduleFinishes`: in whatever order the ready objects are called and
  whatever keys are chosen, no run is longer than 5n + 2 moves and the polls, none gets stuck, and all end with the
  same counts. Each server's tape is proved to be, call by call, that of the schedule it returns.
* **No lost wake-up.** `AsyncModel.ParkedIsArmed`, `AsyncServer.Server.Park`: when the server parks, each live task
  has exactly one registration holding its waker, not ready, with a live poll item; the next reactor poll queues
  every live task.
* **Exact waker counts.** `TaskLog.CountIsExact`: for any use of a task table, a live task's count is one more than
  the clones of its waker made and not yet dropped, and a vacant slot has none. `Reactor.Counted`: with the reactor,
  those clones are the ones the registrations hold, so the assertion in a waker's drop never fails there; the one at
  completion does not fail for the server's tasks (`AsyncServer.Server.Retire`).
* **When a pass fails.** `Futures.CleanIffNoneLeft`: a pass over arbitrary futures meets no failed count check exactly
  if every task that completed in it had, once its future was dropped, no clone of its waker outstanding; a future
  that stashes a clone of its own waker fails it (`Futures.StashedWakerFails`), and futures that make no clones never
  do (`Futures.TameNeverLeak`).
* **What a poll does.** `FutureLaws.Used`, `SpawnMeans`, `PendingMeans` and `ReadyMeans` say of the tasks themselves what
  each use of a waker, each spawn and each poll of a script leaves in the table; `FutureLaws.CompletesAfterPendings`: a
  future that is pending `m` times completes at its next poll after those, in every run.
* **First in, first out.** `TaskLog.QueueByAge`, `TaskLog.QueuedIffOwed`: whatever was done to a task table, its queue
  is exactly the live tasks woken or spawned since their last poll began, the longest waiting first. This holds of the
  server's tables too, whose log is such a log.
* **Where the executors differ.** `Futures.SameChoicesSamePass`, `Futures.PassesAgree`: given the same keys the three
  make the same pass, clones, drops and failures included. There is one exception: `arg` drops a completed future
  while its table is borrowed, so it stops at the first destructor that wakes or spawns, exactly where the boxed ones
  run it, having agreed with them up to there.
* **Resumption.** `Echo.ResumableIsStraightLine`: however a stream blocks and however it splits its data, the
  resumable loop does what the straight-line code does on the calls that succeeded.

## Model

| member | source | states |
|---|---|---|
| `IntrusiveList.List.Insert` | src/list.rs:46-80 | the new key stands directly after the given one, or first; the list stays well formed and only links of its own nodes change |
| `IntrusiveList.List.Remove` | src/list.rs:82-112 | a member is deleted and detached, the order of the rest kept; on a detached key nothing changes, even when that key looks like the only member of another list |
| `IntrusiveList.List.PopFront` | src/list.rs:114-126 | yields and deletes the first member, nothing on an empty list |
| `IntrusiveList.List.PushBack` | src/list.rs:128-133 | appends |
| `IntrusiveList.List.Concat` | src/list.rs:135-159 | appends the whole other list and leaves it empty, whether or not this list was empty |
| `IntrusiveList.List.MoveToBack` | src/executor.rs:88-89 | remove and push_back together move any node, queued or not, to the back |
| `IntrusiveList.OtherListUnchanged` | src/list.rs:46-159 | every list in the same store that shares no node with the one operated on is still the same list |
| `QueuedSlab.Slab.InsertQueued` | src/executor.rs:64-73 | a new entry at the back of the queue |
| `QueuedSlab.Slab.Requeue` | src/run.rs:318-319 | the entry is at the back, queued once |
| `QueuedSlab.Slab.Dequeue` | src/run.rs:278-279 | the front entry leaves the queue and stays in the slab |
| `QueuedSlab.Slab.Free` | src/executor.rs:151-152 | the entry leaves queue and slab |
| `Scheduler.SpawnWellFormed` | src/executor.rs:54-78 | a spawn keeps the queue a duplicate-free list of exactly the live awake tasks |
| `Scheduler.WakeWellFormed` | src/executor.rs:80-91 | so does a wake, of an awake or a sleeping task |
| `Scheduler.BeginWellFormed` | src/executor.rs:98-107 | so does taking the front task for its poll |
| `Scheduler.FinishWellFormed` | src/executor.rs:142-153 | so does freeing a task, even one that woke itself in its last poll |
| `ArgExecutor.Tasks.Add` | src/executor.rs:54-78 | refused exactly when the table is full; otherwise a spawn under some vacant key, into a future slot that was not initialised and now is |
| `ArgExecutor.Tasks.Wake` | src/executor.rs:80-91 | is the scheduler's wake |
| `ArgExecutor.Tasks.Begin` | src/executor.rs:95-112 | is the scheduler's begin, and hands out the future of a slot that is initialised |
| `ArgExecutor.Tasks.Finish` | src/executor.rs:142-153 | is the scheduler's finish; an initialised slot is uninitialised again; the count asserted is its precondition |
| `ArgExecutor.Tasks.CloneWaker` | src/waker.rs:54-63 | one more reference |
| `ArgExecutor.Tasks.DropWaker` | src/waker.rs:77-85 | one reference fewer; the assertion in drop is its precondition |
| `ArgExecutor.Tasks.WakeAndDrop` | src/waker.rs:65-69 | wakes, then gives up the reference |
| `BxExecutor.Tasks.Add` | src/executor.rs:299-322 | as above, with the boxed future kept in the task |
| `BxExecutor.Tasks.Wake` | src/executor.rs:324-335 | is the same scheduler's wake |
| `BxExecutor.Tasks.Begin` | src/executor.rs:339-365 | is the same scheduler's begin; the future is present |
| `BxExecutor.Tasks.Finish` | src/executor.rs:381-390 | is the same scheduler's finish |
| `BoxRcExecutor.Tasks.Add` | src/executor.rs:625-645 | as above; the slot's shared waker starts with a count of one again |
| `BoxRcExecutor.Tasks.Wake` | src/executor.rs:647-658 | is the same scheduler's wake |
| `BoxRcExecutor.Tasks.Begin` | src/executor.rs:662-687 | is the same scheduler's begin |
| `BoxRcExecutor.Tasks.Finish` | src/executor.rs:697-706 | is the same scheduler's finish, leaving the slot's waker uncloned for the next occupant |
| `BoxRcExecutor.Tasks.CloneWaker` | src/waker.rs:130-141 | one more strong reference to the slot's waker |
| `BoxRcExecutor.Tasks.DropWaker` | src/waker.rs:156-158 | one strong reference fewer |
| `Executors.Tasks.Wake` | src/executor.rs:647-658 | on any of the three tables, the wake, and one entry more in its log |
| `Executors.Tasks.WakeAndDrop` | src/waker.rs:65-69 | waking by value is a wake, then a drop of the clone |
| `TaskLog.LogWellFormed` | src/executor.rs:54-155 | whatever is done to a task table, its queue is a duplicate-free list of exactly the live awake tasks |
| `TaskLog.QueueByAge` | src/executor.rs:93-107 | at every moment the queue is exactly the tasks for which a poll is due, the longest due first |
| `TaskLog.QueuedIffOwed` | src/executor.rs:80-107 | a live task is queued exactly if it was woken or spawned since its last poll began, said of the log alone |
| `TaskLog.AwakeIffOwed` | src/executor.rs:80-91 | a live task is awake exactly while it is owed a poll, so a wake leaves it owed one |
| `TaskLog.NothingOwed` | src/executor.rs:98-101 | when process_next returns, no live task has been woken since its last poll began |
| `TaskLog.PolledBecauseOwed` | src/executor.rs:80-107 | no poll begins that is not owed, so repeated wakes cause one poll |
| `TaskLog.LongestDueFirst` | src/executor.rs:93-107 | of all the polls that are due, the one that begins has been due longest |
| `TaskLog.CountIsExact` | src/waker.rs:54-85 | a live task has a count of one and its clones made and not dropped; a vacant slot has no clone outstanding |
| `TaskLog.SpawnsAndEndsAlternate` | src/executor.rs:54-78 | between two spawns into a slot it is freed, and between two times it is freed there is a spawn: each future is dropped exactly once |
| `TaskLog.NeverPolledAfterReady` | src/executor.rs:142-153 | a slot whose future completed is polled again only after another spawn into it |
| `ProcessNext.UseWaker` | src/waker.rs:54-85 | said of the tasks: a wake leaves the task awake, queued and owed a poll, a clone costs one reference, a drop gives one back, a wake by value does both; all other tasks are unchanged, and without a waker to use nothing happens |
| `ProcessNext.Perform` | src/executor.rs:127-140 | carries out a script of spawns and waker uses exactly |
| `FutureLaws.UseMeans` | src/waker.rs:54-85 | a script that begins with a use of a waker makes that use and goes on with the rest |
| `FutureLaws.SpawnMeans` | src/executor.rs:54-78 | one that begins with a spawn puts that very future into a vacant slot, awake, last in the queue and with a count of one, and goes on; with the table full it goes on as refused |
| `FutureLaws.LoudIsHeard` | src/executor.rs:142-145 | a destructor is kept out of a borrowed table exactly if it wakes or spawns, and otherwise only clones and drops |
| `FutureLaws.PendingMeans` | src/executor.rs:127-140 | a poll of a pending future carries out its script and leaves its continuation in the slot |
| `FutureLaws.ReadyMeans` | src/executor.rs:142-153 | a poll of a ready one carries out its script, then its destructor's, and frees the slot exactly if the count is then one |
| `FutureLaws.CompletesAfterPendings` | src/executor.rs:127-153 | a future that is pending m times completes at its (m + 1)-th poll and at no other, in every run; one that is never ready completes at none |
| `FutureLaws.LiveUntilReady` | src/executor.rs:127-153 | until then it is live, with that many fewer polls to go |
| `ProcessNext.PerformBorrowed` | src/executor.rs:142-145 | a destructor run while the table is borrowed gets through exactly if it neither wakes nor spawns |
| `ProcessNext.TakeTurn` | src/executor.rs:93-155 | one poll of the front task by its script, then the future put back, or dropped, its count checked and the task freed |
| `ProcessNext.Process` | src/executor.rs:337-392 | on any of the three executors: ends, having made a pass of the scheduler over the given futures, with an empty queue or at the first failed check; the check of a count fails exactly if a clone of a completed task was left |
| `Futures.RunsWellFormed` | src/executor.rs:93-155 | whatever futures spawn, wake, clone and drop, every run keeps the queue a duplicate-free list of exactly the live awake tasks |
| `Futures.FirstInFirstOut` | src/executor.rs:93-107 | a pass polls what was queued when it began, in that order, before anything queued during it |
| `Futures.PollDecreases` | src/executor.rs:93-155 | each poll uses up part of a future or shortens the queue, so a pass over finite scripts ends |
| `Futures.CleanIffNoneLeft` | src/executor.rs:149-149 | no count check fails in a pass exactly if every task that completed had no clone of its waker outstanding once its future was dropped, said of the log alone |
| `Futures.StashedWakerFails` | src/executor.rs:149-149 | a future that stashes a clone of its own waker and is ready fails the check, in every executor |
| `Futures.TameNeverLeak` | src/executor.rs:381-384 | where no waker is cloned and none will be, no check fails |
| `Futures.SameChoicesSamePass` | src/executor.rs:660-708 | two passes over the same tasks that got the same keys made the same polls, did the same in each, and ended alike, failures included, whichever executors made them |
| `Futures.PassesAgree` | src/executor.rs:142-145 | an executor that drops futures with its table borrowed stops exactly at the first destructor that wakes or spawns, and until there makes the same pass as the others |
| `Futures.WakeInDropStopsTheStrict` | src/executor.rs:382-388 | a future whose destructor wakes by value stops `arg` and is finished by the other two |
| `FakeIo.Stats.Inc` | src/run.rs:111-124 | one more call on the tape, and just the counter of its kind, told by its constructor, is one higher |
| `FakeIo.NoteAllCounts` | src/run.rs:111-124 | each counter grows by the number of calls of its kind |
| `FakeIo.RequestIs` | src/fakeio.rs:57-57 | what a read delivers is "hello world" and a newline, byte by byte, the newline last and only once |
| `FakeIo.InterestBits` | src/fakeio.rs:143-144 | the two interests are different bits, and a stream is registered for both |
| `FakeIo.FakeStream.Read` | src/fakeio.rs:49-65 | every odd call blocks, every even one delivers the request, which must fit |
| `FakeIo.FakeStream.Write` | src/fakeio.rs:72-82 | every odd call blocks, every even one takes all it is given; the bytes are on the tape |
| `FakeIo.FakeListener.Accept` | src/fakeio.rs:120-130 | every odd call blocks, every even one yields a fresh stream |
| `FakeIo.PollTable.Register` | src/fakeio.rs:162-168 | enters the item under some vacant index |
| `FakeIo.PollTable.Unregister` | src/fakeio.rs:170-178 | removes the handle's item; a handle without an index only costs the call |
| `FakeIo.PollTable.Poll` | src/fakeio.rs:180-188 | reports every item exactly once, in some order |
| `Echo.ResumeSound` | src/run.rs:173-210 | at every call the send position lies within what was received, that fits the buffer, what was written is the part before it, and sending began with the newline |
| `Echo.EchoesTheRequest` | src/run.rs:173-210 | a finished exchange wrote exactly the bytes it read, and they contain a newline |
| `Echo.BlockingIsInvisible` | src/run.rs:177-200 | would-block replies change nothing |
| `Echo.ResumableIsStraightLine` | src/run.rs:401-420 | for any replies, of any sizes and blocking anywhere, the resumable loop ends where the straight-line code ends on the successful ones |
| `Echo.BlockEndsTurn` | src/run.rs:177-200 | a call that blocks is the last of its turn, after which the exchange goes on and the next call succeeds |
| `Echo.OutcomeIsResume` | src/run.rs:173-210 | a turn on a fake stream is an instance of the general exchange, call by call on the tape |
| `Echo.WrittenIsDelivered` | src/run.rs:192-207 | what a connection counts as written is what its write calls were given and the stream took of it |
| `Echo.TurnByTurn` | src/run.rs:276-289 | all the replies are those of one turn, then all the others |
| `Echo.EveryExchangeEnds` | src/run.rs:401-420 | from any point of an exchange and any number of calls before, the turns end with everything that was read written |
| `Echo.WholeExchange` | src/run.rs:401-420 | whatever parity a stream starts from, its turns together echo the request and are what the straight-line code does |
| `Echo.PhaseOutcome` | src/fakeio.rs:49-82 | each turn takes a connection to its next phase by the calls the ledger charges |
| `ManualConnection.Connection.Process` | src/run.rs:173-210 | ends where the fake stream's replies lead, is done exactly when everything is sent, stays resumable otherwise, and clears just the flag of the call that blocked |
| `ManualConnection.Connection.Receive` | src/run.rs:176-191 | one read; a success fills the buffer and switches to sending once it holds a newline |
| `ManualConnection.Connection.Send` | src/run.rs:192-207 | one write, of exactly the unsent bytes |
| `ManualConnection.Connection.Mark` | src/run.rs:303-315 | sets the flags the event names, and asks for processing if it names either |
| `Pipeline.AcceptConnInv` | src/run.rs:250-270 | accepting keeps one connection per round and every call accounted for |
| `Pipeline.ServeInv` | src/run.rs:278-289 | a service keeps each phase equal to the connection's age and every call accounted for |
| `Pipeline.PollAllInv` | src/run.rs:291-322 | a poll with work left keeps the invariant, and there are at most n + 2 of them |
| `Pipeline.FinishedCounts` | src/run.rs:676-683 | a finished ledger has the closed counts |
| `Pipeline.FewConnections` | src/run.rs:249-323 | never more than three live connections, nor more than were accepted |
| `PipelineRuns.EveryScheduleFinishes` | src/run.rs:249-323 | every schedule is bounded, one that cannot go on has finished, and all finished ones have the same length and the closed counts |
| `PipelineRuns.NeverStuck` | src/run.rs:291-295 | an unfinished state always allows a move |
| `PipelineRuns.RecordedThen` | src/run.rs:249-323 | one more move puts exactly its calls on the tape |
| `PipelineRuns.NoWastedCall` | src/future.rs:268-278 | on the tape of any schedule, after a call on an object has blocked no call names that object until the next poll |
| `PipelineRuns.ServedOncePerPoll` | src/run.rs:276-289 | a connection that has had its turn gets no other before the next poll |
| `PipelineRuns.ListenerWaitsForPoll` | src/future.rs:361-371 | nor is the listener called again once an accept has blocked |
| `ObjectCalls.EveryObjectSeesTheSame` | src/run.rs:676-683 | every complete schedule makes the same calls on every object, with the same outcomes, in the same order |
| `RoundOrder.RoundsAreOrdered` | src/run.rs:249-289 | of the calls of a schedule that keeps to rounds: no accept follows a read or write in its round, and the streams accepted in a round are called after the older ones |
| `RoundOrder.InOrderServe` | src/executor.rs:93-107 | serving the front of a queue in which new connections stand last keeps to that order |
| `RoundOrder.InOrderListen` | src/run.rs:336-340 | so does polling the listener, whose new connections join at the back |
| `ManualServer.EventsCover` | src/run.rs:297-321 | a sweep finds the listener and exactly the live connections, so the slot an event names is occupied |
| `ManualServer.FewLive` | src/run.rs:249-323 | at every point of a manual run at most min(n, 3) connections are live |
| `ManualServer.RunManual.AcceptAll` | src/run.rs:250-274 | accepts until the listener blocks or none is left: the moves made are these accepts and, if it blocked, that; the new connections join the queue in the same order |
| `ManualServer.RunManual.ServeAll` | src/run.rs:276-289 | the moves made are one service of each queued connection, in the order of the queue, which is then empty |
| `ManualServer.RunManual.PollRound` | src/run.rs:295-322 | one poll; the listener may be called again, the queue is exactly the live connections, and each of them is readable and writable |
| `ManualServer.RunManual.Dispatch` | src/run.rs:297-321 | each event, in turn, moves its connection to the back of the queue and sets its flags |
| `ManualServer.RunManual.Round` | src/run.rs:249-322 | accepts, then serves what was queued and what is new once each, then polls unless all is finished |
| `ManualServer.RunManual.Run` | src/run.rs:234-326 | ends for every n with the closed counts and empty tables; the calls it made are those of the schedule it returns, each counter grew by the calls of its kind, none was wasted, each object saw the expected ones, and within a round accepts come first and new streams last |
| `ManualServer.RunManual.RunTimes` | src/run.rs:460-470 | k runs cost k times one run |
| `Reactor.CountedPut` | src/future.rs:77-98 | rebinding keeps each count one more than the number of registrations holding a clone |
| `Reactor.HeldCount` | src/waker.rs:77-85 | a clone in a registration makes the count at least two, as dropping asserts |
| `Reactor.UnheldCount` | src/executor.rs:149-149 | a task whose waker no registration holds has count one, as completion asserts |
| `Reactor.FakeReactor.Register` | src/future.rs:18-43 | refused exactly when full; otherwise one registration and one poll item that names it |
| `Reactor.FakeReactor.BindWaker` | src/future.rs:77-90 | the registration holds the waker and all counts are exact, whether or not an equal waker was recognised |
| `Reactor.FakeReactor.UnbindWaker` | src/future.rs:92-98 | the registration holds none and all counts are exact |
| `Reactor.FakeReactor.Deregister` | src/future.rs:106-110 | the registration and the clone it held are gone |
| `Reactor.FakeReactor.Poll` | src/future.rs:144-160 | exactly the registrations with a poll item become ready and lose their wakers, and exactly the tasks those belonged to become awake |
| `AsyncModel.ParkedIsArmed` | src/future.rs:263-281 | on a parked server each live task has exactly one registration holding its waker, not ready, with a live poll item |
| `AsyncModel.AllWoken` | src/future.rs:144-160 | the next reactor poll wakes every live task |
| `AsyncModel.ItemsMatchRegistrations` | src/future.rs:31-43 | registrations and poll items are in bijection through the stored key, each owned by one live task that knows its index |
| `AsyncModel.FewTasks` | src/run.rs:336-340 | never more than min(n, 3) + 1 tasks or registrations, and room for one more of each while a connection is still to come |
| `AsyncModel.NobodyHolds` | src/future.rs:101-111 | a completed task has left no waker behind |
| `AsyncModel.PollStep` | src/executor.rs:236-244 | parking and polling keeps registrations, poll items, tasks and ledger in step |
| `AsyncModel.EndStep` | src/fakeio.rs:191-196 | when no task is left the poll table and the registrations are empty, as the poll table's drop asserts |
| `AsyncServer.Server.ReadFuture` | src/future.rs:263-281 | binds the waker; calls only a ready stream; on would-block the readiness is withdrawn |
| `AsyncServer.Server.WriteFuture` | src/future.rs:310-328 | the same for a write |
| `AsyncServer.Server.AcceptFuture` | src/future.rs:356-374 | the same for an accept; the new stream is registered and ready |
| `AsyncServer.Server.NewHandle` | src/future.rs:181-187 | the registration that is unwrapped succeeds, and is ready |
| `AsyncServer.Server.AwaitRead` | src/run.rs:407-410 | a completed read leaves no waker bound; a pending one leaves the waker bound and the registration not ready |
| `AsyncServer.Server.AwaitWrite` | src/run.rs:414-417 | the same for a write |
| `AsyncServer.Server.PollConnection` | src/run.rs:401-420 | ends where the fake stream's replies lead, as the manual connection does; a completed one has left the poll table and the registrations |
| `AsyncServer.Server.DropHandle` | src/future.rs:198-206 | the object leaves the poll table, then its registration goes |
| `AsyncServer.Server.PollListen` | src/run.rs:329-343 | the moves made are the registration if this is the first poll, then accepts with their spawns, then either a blocked accept, with which it is pending, or, all accepted, the listener gone, with which it is ready |
| `AsyncServer.Server.AwaitAccept` | src/run.rs:337-339 | either a blocked accept and left waiting with its waker bound, or one connection more, registered and spawned |
| `AsyncServer.Server.PollServing` | src/run.rs:401-420 | the poll of a connection task is one turn of its connection |
| `AsyncServer.Server.Retire` | src/executor.rs:142-153 | the completed task is freed, and the count asserted then was one |
| `AsyncServer.Server.ProcessNext` | src/executor.rs:93-155 | ends with all tables in step with the ledger, no live task woken since its last poll began, and new connections served after older ones |
| `AsyncServer.Server.Park` | src/executor.rs:243-243 | after the reactor's poll every live task is awake, and at most n + 2 polls are made |
| `AsyncServer.Server.Run` | src/executor.rs:232-245 | the same as the manual run, on any of the three executors, save that accepts need not come first |
| `AsyncServer.Server.RunTimes` | src/run.rs:472-493 | k runs cost k times one run |
| `Comparison.Compare` | src/run.rs:676-693 | any number of runs of the manual server and of the async one on the table of each executor, for any number of connections, make the same number of I/O calls of each kind, spelled out counter by counter |
| `Comparison.CompareCalls` | src/run.rs:684-743 | in one run of each, every object sees the same calls with the same outcomes in the same order, none is wasted, and new streams come last |

## Left out

- Futures that go on for ever: a script is finite, and when its polls are used up the future stays pending; an endlessly self-waking pass is not modelled.
- What a future learns from others: a script branches on a spawn's refusal, which is all that the executor tells it; state it shares with other futures is not modelled. What is proved of logs does not depend on scripts.
- `AsyncInvoke` and the boxed forms of `listen` and `connection`: they differ from the plain ones in how they are allocated and spawned, and are modelled by the same state machine on another executor.
- What is left of a table after a failed check: a failed check is a panic, and the pass ends there.
- In-place aliasing of streams and listeners: each belongs to one connection or future, so it is a value held by its owner; the poll index cell is a field of that value.
- In-place waker cells: a waker's count is kept in its task (or its slot, for `boxrc`), and a waker is the task's key.
- Counter width: the six counters are natural numbers, not `u32`.
- Slab internals: a slab is a map whose insert picks any vacant key; capacity is exactly the number asked for.
- The thread check of the checked Rc waker, raw pointers, pinning, vtables and uninitialised memory beyond "slot initialised or not".
- The spawner indirection: a spawn is the table's `add`.
- I/O errors other than would-block: the fake objects never give them.
- System calls, timing, benchmarking and printing.
- Separate models of the large-buffer and caller-boxed variants: the buffer size is a parameter.
