# little-tokio, modelled in Dafny

This project models the bookkeeping core of **little-tokio**, a minimal single-threaded
`Future` runtime for Unix that multiplexes I/O with kqueue. The runtime is a state machine
over three pieces of state:

- a task table (`map<Id, Task>`);
- a FIFO ready queue of task ids (duplicates allowed);
- a wake registry (`map<Token, Waker>`) keyed by the token of a blocked file descriptor.

The operations over that state are `spawn`, `poll`, `schedule`/wake, `block`,
`try_register`, `try_deregister`, `try_turn` (kernel events to wakes) and the three-way
`status` that drives the `block_on` loop. The model also covers the small pure cores
around the machine:

- the `Interest` bit set;
- the `Id`/`Token` counters and pointer conversions;
- the kevent flag predicates;
- the `MaybeDone` combinator;
- the would-block protocol of the TCP `Accept` and `Read` futures.

Each generation of the runtime that the repository carries is its own module:

- **live path**: `core::runtime` plus the crate root (`CoreRuntime`, `LittleTokio`);
- **singleton split**: `core::scheduler`, `core::executer` and `core::reactor`
  (`CoreScheduler`, `CoreExecuter`, `CoreReactor`);
- **earlier draft**: `core`, `vtable`, `task`, `runtime`, `scheduler` and `waker`
  (`DraftCore`, `DraftVtable`, `DraftTask`, `DraftRuntime`, `DraftScheduler`, `DraftWaker`).

How the model is built:

- **Futures are oracles.** A task's body is a function `resume: T -> Step<T, ()>`
  (module `Futures`). It gives the poll outcome and the future's state after the poll,
  since a pending future advances in place.
- **Polls have no side effects on the runtime.** In the live path this follows from the
  code: `block_on` polls while `RUNTIME` is mutably borrowed (lib.rs:44), so a wake or
  spawn from inside the poll could not change the runtime. The other generations are
  modelled the same way. Where their code would let a future act on the scheduler
  during its poll, "## Left out" names the member.
- **The kqueue selector is an oracle.** `try_select`'s answer is a parameter, and
  register/deregister answers are parameters too. Every register or deregister call is
  appended to a ghost log `selectorCalls`.
- **The descriptor's token keeps its number.** The source writes `fd.as_raw_fd().into()`
  for the token of a descriptor, and no such conversion is defined in the crate. It is
  modelled as `FromRawFd(fd) = Token(fd)`, the same in `block`, `try_register` and
  `try_deregister`.
- **A core-generation waker is the task id it carries** (`CoreTask.Waker = Id`). A draft
  waker is a `RawWaker(data, vtable)`, where the vtable is one of the two static tables.
- **Singletons and thread-locals become explicit objects.** A `Runtime`, `Scheduler`,
  `Reactor` or `Core` object is passed in. The one exception is the `RUNTIME` slot that
  `block_on` checks (`LittleTokio.RuntimeSlot`).
- **Panics are values.** A call that may panic returns `Exit<R>`, which is
  `Return(value)` or `Panic(message)`. The message is the text given to `panic!` or
  `expect`. The `": "` and the error's `Debug` form that `expect` appends are not
  modelled.
- **`block_on` runs on fuel.** Its loop is specified by the function `LittleTokio.RunFrom`
  over a `Machine(tasks, queue, turns)`, and the selector's `n`-th answer is `select(n)`.
  `RunLoop` runs at most `fuel` rounds and is proved to follow `RunFrom` exactly.

Behaviour of the code worth knowing:

- **A turn does not consume registry entries.** `try_turn` looks up a woken waker with
  `get` (core/runtime.rs:96-100), so the entry stays and can fire again on a later event.
  It is removed only by `try_deregister`.
- **A batch takes the whole queue.** Each round of `block_on` takes the entire ready
  queue at once and polls it in FIFO order (lib.rs:41-45).
- **TCP futures abort on registration errors.** The futures call `register` on a
  thread-local `REACTOR` that the crate does not define (net/tcp.rs:75-80, 170-175). The
  model puts `core::reactor::Reactor::register` (core/reactor.rs:72-79) in its place.
  That wrapper aborts on a selector error instead of handing the error to the future.
- **Registration happens at construction.** A TCP future registers its descriptor when
  it is built. On would-block, it only records its waker.
- **The turn has no timeout and no retry.** The selector call in a turn has no timeout
  and no retry bound in this crate.
- **Nothing wakes a pending task during `block_on`.** In the live path nothing adds to
  the runtime's wake registry: no code in the crate calls `Runtime::block` or
  `Runtime::try_register`, and the TCP futures record their wakers through `REACTOR`
  instead. `block_on` therefore runs with an empty registry, and every turn wakes
  nothing. A main task that is pending on its first poll is never polled again. The loop
  never returns (`LittleTokio.PendingMainNeverReturns`), and the selector call it keeps
  making has no timeout.

## Model

| member | source | states |
|---|---|---|
| CoreTask.Id.Less | crates/little-tokio/src/core/task.rs:29-30 | the derived order compares the wrapped numbers; a smaller id is a different id |
| CoreTask.LessIsStrictTotalOrder | crates/little-tokio/src/core/task.rs:29-30 | the derived order is irreflexive and transitive, and any two distinct ids are comparable |
| CoreTask.Id.Default | crates/little-tokio/src/core/task.rs:29-30 | the default id is below or equal to every id (it is 0) |
| CoreTask.Id.Increment | crates/little-tokio/src/core/task.rs:34-38 | hands out the old id and stores one exactly one greater: an id is below the new counter iff it is below or equal to the old one |
| CoreTask.Id.ToPtr | crates/little-tokio/src/core/task.rs:43-45 | the pointer's address is the id's number |
| CoreTask.Id.FromPtr | crates/little-tokio/src/core/task.rs:50-52 | converting the result back gives the same pointer |
| CoreTask.IdPtrRoundTrip | crates/little-tokio/src/core/task.rs:43-52 | from_ptr(to_ptr(id)) == id |
| CoreTask.Issue | crates/little-tokio/src/core/task.rs:34-38 | n successive increments hand out n ids and leave the counter exactly n higher |
| CoreTask.IssueIncreasing | crates/little-tokio/src/core/task.rs:34-38 | ids from successive spawns are strictly increasing (so distinct), at least the starting counter and all below the counter left behind, which moved up by exactly n |
| CoreToken.Token.Default | crates/little-tokio/src/core/token.rs:22-23 | the default token is the least one (0) |
| CoreToken.Token.Increment | crates/little-tokio/src/core/token.rs:27-31 | hands out the old token and stores one exactly one greater |
| CoreToken.Token.ToPtr | crates/little-tokio/src/core/token.rs:36-38 | the udata pointer's address is the token's number |
| CoreToken.Token.FromPtr | crates/little-tokio/src/core/token.rs:43-45 | converting the result back gives the same pointer |
| CoreToken.Token.FromTaskId | crates/little-tokio/src/core/token.rs:48-52 | the token keeps the id's number |
| CoreToken.Token.ToTaskId | crates/little-tokio/src/core/task.rs:55-59 | the id keeps the token's number |
| CoreToken.TokenPtrRoundTrip | crates/little-tokio/src/core/token.rs:36-45 | from_ptr(to_ptr(t)) == t |
| CoreToken.TokenIdRoundTrip | crates/little-tokio/src/core/token.rs:48-52 | Token to Id to Token and Id to Token to Id are both the identity |
| CoreToken.FromRawFd | crates/little-tokio/src/core/runtime.rs:111 | a descriptor's token carries the descriptor's number |
| CoreToken.FromRawFdInjective | crates/little-tokio/src/core/runtime.rs:106-130 | two descriptors share a token iff they are the same descriptor, so the registry is keyed consistently by descriptor |
| CoreInterest.Interest.IsReadable | crates/little-tokio/src/core/interest.rs:46-48 | holds of READABLE, not of WRITABLE |
| CoreInterest.Interest.IsWritable | crates/little-tokio/src/core/interest.rs:51-53 | holds of WRITABLE, not of READABLE |
| CoreInterest.Interest.Add | crates/little-tokio/src/core/interest.rs:41-43 | the result contains both operands and is readable (writable) iff one operand is; non-zero by its type |
| CoreInterest.Interest.BitOr | crates/little-tokio/src/core/interest.rs:60-62 | the bitwise or of the operands, readable (writable) iff one operand is |
| CoreInterest.BitOrAssign | crates/little-tokio/src/core/interest.rs:67-69 | the new value is self \| other, readable (writable) iff one of them is |
| CoreInterest.ConstantsSeparate | crates/little-tokio/src/core/interest.rs:28-53 | READABLE is 1, readable and not writable; WRITABLE is 2, writable and not readable |
| CoreInterest.AddIsSetUnion | crates/little-tokio/src/core/interest.rs:41-62 | add is commutative, associative and idempotent, and bitor equals add |
| CoreInterest.EvalIsKnownSet | crates/little-tokio/src/core/interest.rs:28-43 | every interest built from the two constants is 1, 2 or 3 |
| DraftInterest.IsReadable | crates/little-tokio/src/interest.rs:39-41 | holds of READABLE, not of WRITABLE |
| DraftInterest.IsWritable | crates/little-tokio/src/interest.rs:44-46 | holds of WRITABLE, not of READABLE |
| DraftInterest.DisjointBits | crates/little-tokio/src/interest.rs:27-36 | the two tests look at disjoint bits and both constants are non-zero |
| Kqueue.WithCapacity | crates/little-tokio/src/sys/unix/kqueue.rs:33-35 | a fresh event vector holds no event |
| Kqueue.IsReadable | crates/little-tokio/src/sys/unix/kqueue.rs:55-57 | holds iff the filter is EVFILT_READ or EVFILT_USER, and then the filter is not EVFILT_WRITE |
| Kqueue.IsWritable | crates/little-tokio/src/sys/unix/kqueue.rs:61-63 | holds iff the filter is EVFILT_WRITE; a writable event is never readable |
| Kqueue.IsError | crates/little-tokio/src/sys/unix/kqueue.rs:66-69 | true whenever EV_ERROR is set; otherwise iff EV_EOF is set with non-zero fflags; without EV_EOF iff EV_ERROR is set |
| Kqueue.IsReadClosed | crates/little-tokio/src/sys/unix/kqueue.rs:73-75 | holds iff the filter is EVFILT_READ and EV_EOF is set; then the event is readable and not writable |
| Kqueue.IsWriteClosed | crates/little-tokio/src/sys/unix/kqueue.rs:79-81 | holds iff the event is writable and EV_EOF is set; never true together with is_read_closed |
| Registry.EventToken | crates/little-tokio/src/core/runtime.rs:97 | the token an event names converts back to the event's udata pointer, so it carries the udata's number |
| Registry.Woken | crates/little-tokio/src/core/runtime.rs:96-100 | a turn fires at most one waker per event |
| Registry.WokenAppend | crates/little-tokio/src/core/runtime.rs:96-100 | firing is event by event: the wakes for a + b are the wakes for a followed by those for b |
| Registry.WokenMembership | crates/little-tokio/src/core/runtime.rs:96-100 | a waker fires iff some event names a token it is registered under |
| Registry.WokenAreBlocked | crates/little-tokio/src/core/runtime.rs:96-100 | only registered wakers ever fire |
| Registry.UnknownTokensIgnored | crates/little-tokio/src/core/runtime.rs:97 | events whose tokens are all unknown wake nothing |
| Registry.NoWakeAfterRemoval | crates/little-tokio/src/core/runtime.rs:115-121 | after a descriptor's entry is removed, every waker that fires is due to an event naming some other registered token |
| TaskTable.PollEntry | crates/little-tokio/src/core/runtime.rs:76-90 | absent id: no change; present id: kept (with its advanced state) iff the future is pending; every other task untouched; no task added |
| TaskTable.PollAll | crates/little-tokio/src/lib.rs:43-45 | polling a batch never adds a task |
| TaskTable.NestedPollIsNoop | crates/little-tokio/src/core/runtime.rs:77-84 | while a task is out for polling, polling its id again changes nothing |
| TaskTable.PollAllAppend | crates/little-tokio/src/lib.rs:43-45 | polling a + b is polling a then b |
| TaskTable.PollAllUntouched | crates/little-tokio/src/lib.rs:43-45 | a task whose id is not in the batch keeps its place and state |
| TaskTable.StaleIdHarmless | crates/little-tokio/src/lib.rs:43-45 | an id whose task is already gone when it comes up leaves the batch's result as if it were absent |
| TaskTable.CompletedTaskGone | crates/little-tokio/src/core/runtime.rs:85-88 | a task that reports Ready is gone for the rest of the batch |
| RuntimeStatus.StatusOf | crates/little-tokio/src/core/runtime.rs:134-142 | Done iff no task; WaitingForEvents iff tasks and an empty queue; RunningTasks iff tasks and a non-empty queue |
| CoreRuntime.Runtime.constructor | crates/little-tokio/src/core/runtime.rs:54-67 | the default runtime is empty with next id 0 and satisfies the fresh-id invariant |
| CoreRuntime.Runtime.Schedule | crates/little-tokio/src/core/runtime.rs:71-73 | appends exactly id; tasks, registry, next id and selector untouched |
| CoreRuntime.Runtime.Poll | crates/little-tokio/src/core/runtime.rs:76-90 | the table becomes PollEntry of the old one; queue, registry, next id untouched; fresh-id invariant kept |
| CoreRuntime.Runtime.TryTurn | crates/little-tokio/src/core/runtime.rs:93-102 | a selector error is passed back with nothing woken; otherwise the queue grows by exactly Woken(registry, events), in event order; the registry is unchanged |
| CoreRuntime.Runtime.TryRegister | crates/little-tokio/src/core/runtime.rs:106-112 | registers fd under FromRawFd(fd) and passes back the selector's answer; registry untouched |
| CoreRuntime.Runtime.TryDeregister | crates/little-tokio/src/core/runtime.rs:115-121 | removes the fd's entry (a no-op when absent), then deregisters and passes back the answer |
| CoreRuntime.Runtime.Block | crates/little-tokio/src/core/runtime.rs:125-130 | inserts or overwrites the single waker under FromRawFd(fd); no selector call |
| CoreRuntime.Runtime.Status | crates/little-tokio/src/core/runtime.rs:134-142 | the three-way partition of the runtime's state |
| LittleTokio.RuntimeSlot.constructor | crates/little-tokio/src/core/runtime.rs:24-29 | a thread starts with no runtime installed |
| LittleTokio.DrainAndPoll | crates/little-tokio/src/lib.rs:41-45 | the queue ends empty, so the status after a batch is never RunningTasks; no task added; tasks not in the batch untouched |
| LittleTokio.RunFrom | crates/little-tokio/src/lib.rs:40-55 | the loop's reference semantics: each round makes at most one turn, a run that ends (returns or fails a turn) leaves the queue empty, and one that runs out of fuel made a turn in every round |
| LittleTokio.RunReturnsOnlyWhenDone | crates/little-tokio/src/lib.rs:40-55 | the loop returns only with an empty task table, and never creates a task |
| LittleTokio.UnscheduledTaskUntouched | crates/little-tokio/src/lib.rs:40-55 | a task neither queued nor registered to be woken keeps its state for the whole run |
| LittleTokio.StalledNeverReturns | crates/little-tokio/src/lib.rs:40-55 | with an empty registry, a run whose queue is empty while tasks remain never returns |
| LittleTokio.PendingMainNeverReturns | crates/little-tokio/src/lib.rs:29-55 | a main task pending on its first poll makes the loop of `block_on` (empty registry) never return |
| LittleTokio.ImmediateTaskNeverTurns | crates/little-tokio/src/lib.rs:38-53 | a main task ready on its first poll ends the loop in round one without a turn of the event loop |
| LittleTokio.Spawn | crates/little-tokio/src/lib.rs:61-69 | the task gets the old next id, which no stored task has; next id moves up by one; task stored and id appended |
| LittleTokio.RunBatch | crates/little-tokio/src/lib.rs:41-45 | takes the whole queue leaving it empty, and polls the taken ids in FIFO order (PollAll) |
| LittleTokio.RunLoop | crates/little-tokio/src/lib.rs:40-55 | the exit, task table and queue are exactly those RunFrom gives: Done returns, WaitingForEvents makes exactly one turn with the selector's next answer, a failed turn ends the loop; registry and selector untouched |
| LittleTokio.BlockOn | crates/little-tokio/src/lib.rs:29-58 | panics with the source's message when a runtime is installed; otherwise installs a fresh one, spawns the main task as id 0 and runs the loop, panicking (`expect("")`) when a turn fails; the runtime stays installed |
| LittleTokio.BlockOnWithCleanup | crates/little-tokio/src/lib.rs:29-58 | as BlockOn, but a loop that returns uninstalls the runtime; a failed turn still panics |
| LittleTokio.SecondBlockOnPanics | crates/little-tokio/src/lib.rs:31-57 | as written, a second block_on on the same thread panics even after the first returned |
| LittleTokio.SecondBlockOnRunsWithCleanup | crates/little-tokio/src/lib.rs:31-57 | with the cleanup, the second block_on runs normally |
| CoreScheduler.Scheduler.constructor | crates/little-tokio/src/core/scheduler.rs:62-70 | the singleton starts empty with next id 0 |
| CoreScheduler.Scheduler.GetStatus | crates/little-tokio/src/core/scheduler.rs:113-121 | the three-way partition over pending tasks and queue |
| CoreScheduler.Scheduler.GetScheduledIds | crates/little-tokio/src/core/scheduler.rs:124-126 | hands over the whole queue in order and leaves it empty |
| CoreScheduler.Scheduler.GetTask | crates/little-tokio/src/core/scheduler.rs:129-131 | removes and returns the task under id, or None when absent |
| CoreScheduler.Scheduler.DoSchedule | crates/little-tokio/src/core/scheduler.rs:134-138 | the task gets the old next id, fresh; next id up by one; task stored and id appended |
| CoreScheduler.Scheduler.DoPend | crates/little-tokio/src/core/scheduler.rs:141-143 | stores the task under its id, queue untouched; storing under an id already handed out keeps the fresh-id invariant |
| CoreScheduler.Scheduler.DoNotify | crates/little-tokio/src/core/scheduler.rs:146-148 | appends id unconditionally |
| CoreScheduler.Scheduler.Poll | crates/little-tokio/src/core/scheduler.rs:94-108 | get_task, one poll, do_pend on Pending: the table becomes PollEntry of the old one; queue and next id untouched |
| CoreScheduler.NotifyTwice | crates/little-tokio/src/core/scheduler.rs:146-148 | notifying twice queues the id twice |
| CoreExecuter.Executer.constructor | crates/little-tokio/src/core/executer.rs:43-51 | the default executer is empty with next id 0 |
| CoreExecuter.Executer.Poll | crates/little-tokio/src/core/executer.rs:56-70 | the table becomes PollEntry of the old one; queue and next id never change |
| CoreExecuter.Executer.Status | crates/little-tokio/src/core/executer.rs:74-82 | Done whenever nothing is pending, even with ids queued; otherwise by queue emptiness |
| CoreReactor.Reactor.constructor | crates/little-tokio/src/core/reactor.rs:43-50 | the singleton starts with an empty registry |
| CoreReactor.Reactor.TryTurn | crates/little-tokio/src/core/reactor.rs:113-122 | a selector error is passed back; otherwise the wakes are exactly Woken(registry, events), in event order, all of registered wakers; the registry is only read |
| CoreReactor.Reactor.TryRegister | crates/little-tokio/src/core/reactor.rs:131-137 | the fd is registered under its own token; registry untouched |
| CoreReactor.Reactor.TryDeregister | crates/little-tokio/src/core/reactor.rs:145-151 | removes the fd's entry, then deregisters |
| CoreReactor.Reactor.DoBlock | crates/little-tokio/src/core/reactor.rs:155-160 | inserts or overwrites the waker under the fd's token |
| CoreReactor.Reactor.Turn | crates/little-tokio/src/core/reactor.rs:59-63 | aborts with "should turn the event loop properly" on a selector error, else returns the wakes |
| CoreReactor.Reactor.Register | crates/little-tokio/src/core/reactor.rs:72-79 | aborts with the source's message on a selector error |
| CoreReactor.Reactor.Deregister | crates/little-tokio/src/core/reactor.rs:87-94 | aborts with the source's message on a selector error; the entry is gone either way |
| CoreReactor.Reactor.Block | crates/little-tokio/src/core/reactor.rs:98-103 | records the waker; never calls the selector |
| DraftTask.Id.ToPtr | crates/little-tokio/src/task.rs:37-39 | the pointer's address is the id's number |
| DraftTask.Id.FromPtr | crates/little-tokio/src/task.rs:44-46 | converting back gives the same pointer |
| DraftTask.DefaultId | crates/little-tokio/src/task.rs:30-31 | the default id is 0 |
| DraftTask.IntoWaker | crates/little-tokio/src/task.rs:49-55 | the waker carries the id's pointer (from_ptr gives the id back) and the shared vtable |
| DraftTask.PtrRoundTrip | crates/little-tokio/src/task.rs:37-46 | from_ptr(to_ptr(id)) == id, and to_ptr is injective |
| DraftCore.Core.constructor | crates/little-tokio/src/core.rs:37-43 | the default core is empty |
| DraftCore.Core.Schedule | crates/little-tokio/src/core.rs:47-49 | appends the id, nothing else changes |
| DraftCore.Core.Poll | crates/little-tokio/src/core.rs:52-63 | the table becomes PollEntry of the old one; queue unchanged |
| DraftCore.Core.Status | crates/little-tokio/src/core.rs:72-80 | the three-way partition |
| DraftVtable.Clone | crates/little-tokio/src/vtable.rs:33-35 | same data, same vtable |
| DraftVtable.WakeByRef | crates/little-tokio/src/vtable.rs:53-57 | appends from_ptr(data) to the core's queue; tasks untouched |
| DraftVtable.Wake | crates/little-tokio/src/vtable.rs:43-45 | exactly the effect of wake_by_ref |
| DraftVtable.Drop | crates/little-tokio/src/vtable.rs:64-66 | no state changes |
| DraftVtable.WakeRepeatedly | crates/little-tokio/src/vtable.rs:53-57 | waking a task's waker k times appends k copies of its id |
| DraftRuntime.Runtime.constructor | crates/little-tokio/src/runtime.rs:30-36 | the default runtime is empty |
| DraftScheduler.Schedule | crates/little-tokio/src/scheduler.rs:35-39 | appends exactly one copy of id; tasks untouched |
| DraftScheduler.StatusOf | crates/little-tokio/src/scheduler.rs:42-53 | Done iff no task (even with ids queued), else WaitingForIOEvents iff the queue is empty, else RunningTasks |
| DraftScheduler.ScheduleTwice | crates/little-tokio/src/scheduler.rs:37 | scheduling twice queues the id twice |
| DraftWaker.Clone | crates/little-tokio/src/waker.rs:29-31 | same data, this module's vtable |
| DraftWaker.WakeByRef | crates/little-tokio/src/waker.rs:41-43 | schedules from_ptr(data) on the runtime queue |
| DraftWaker.Wake | crates/little-tokio/src/waker.rs:35-37 | exactly the effect of wake_by_ref |
| DraftWaker.Drop | crates/little-tokio/src/waker.rs:46-48 | no state changes |
| DraftWaker.IntoWaker | crates/little-tokio/src/waker.rs:50-54 | data is id.to_ptr(), which converts back to the id |
| MaybeDoneCombinator.MaybeDoneOf | crates/little-tokio/src/utils/maybe_done.rs:56-61 | wraps the future in the Future state |
| MaybeDoneCombinator.PollOnce | crates/little-tokio/src/utils/maybe_done.rs:39-52 | Gone panics and only Gone does; Future+Pending gives Pending and stays Future; Future+Ready(v) gives Ready and Done(v); Done gives Ready and stays; never Gone after a poll; Ready iff Done |
| MaybeDoneCombinator.DoneIsFinal | crates/little-tokio/src/utils/maybe_done.rs:47-51 | any number of polls of Done(v) leaves Done(v) |
| MaybeDoneCombinator.WrappedNeverPanics | crates/little-tokio/src/utils/maybe_done.rs:42-51 | a state that is not Gone never panics and never becomes Gone under repeated polls |
| MaybeDoneCombinator.MaybeDoneFuture.constructor | crates/little-tokio/src/utils/maybe_done.rs:56-61 | starts in maybe_done(f) |
| MaybeDoneCombinator.MaybeDoneFuture.Poll | crates/little-tokio/src/utils/maybe_done.rs:39-52 | result and new state are those PollOnce gives; a panic leaves the state as it was |
| Tcp.NewStream | crates/little-tokio/src/net/tcp.rs:125-128 | succeeds iff set_nonblocking does, wrapping the same descriptor; otherwise passes the error back |
| Tcp.AcceptOutcome | crates/little-tokio/src/net/tcp.rs:90-104 | Pending iff accept would block; an accepted connection is Ready with a new stream or the set_nonblocking error; other errors are Ready(Err) |
| Tcp.ReadOutcome | crates/little-tokio/src/net/tcp.rs:185-199 | Pending iff the read would block; otherwise Ready with the read's own result (a count of 0 included) |
| Tcp.NewAccept | crates/little-tokio/src/net/tcp.rs:70-82 | aborts if set_nonblocking fails; otherwise registers the listener for READABLE under its token (aborting on a selector error) |
| Tcp.PollAccept | crates/little-tokio/src/net/tcp.rs:90-104 | reports AcceptOutcome and records the waker under the listener's token exactly when Pending |
| Tcp.DropAccept | crates/little-tokio/src/net/tcp.rs:107-116 | deregisters the listener and removes its waker entry |
| Tcp.NewRead | crates/little-tokio/src/net/tcp.rs:165-177 | aborts if set_nonblocking fails; otherwise registers the stream for READABLE under its token |
| Tcp.PollRead | crates/little-tokio/src/net/tcp.rs:185-199 | reports ReadOutcome and records the waker under the stream's token exactly when Pending |
| Tcp.DropRead | crates/little-tokio/src/net/tcp.rs:203-209 | deregisters the stream and removes its waker entry |
| Tcp.PendingAcceptWokenByItsEvent | crates/little-tokio/src/net/tcp.rs:93-101 | after an accept would block, a turn reporting the listener's token wakes exactly the polling task |
| Tcp.DroppedReadNeverWoken | crates/little-tokio/src/net/tcp.rs:203-209 | after a Read is dropped, events for its stream wake nothing |

## Left out

- The futures' bodies and anything they do while polled. They are oracles. In the live
  path a wake or spawn during a poll would find the runtime already borrowed.
- The `RunningTasks` arm of the `block_on` loop (lib.rs:47), which goes round again at
  once. `RunFrom` has no such arm, because `DrainAndPoll` proves the status after a batch
  is never RunningTasks. `RunLoop` keeps the arm as an empty, unreachable case.
- The kqueue `Selector` (`try_select`, `try_register`, `try_deregister`), which is not
  part of this model. Its answers are inputs, and the register/deregister calls are
  logged.
- The `syscall!` wrapper (`sys.rs`) and the `assert_future` identity (`utils/misc.rs`).
- The process-wide singletons (`Mutex`/`Lazy`) and the thread-local `RefCell` holders,
  except the `RUNTIME` slot checked by `block_on`. The objects are passed explicitly.
- The `REACTOR` thread-local used by `net/tcp.rs`. The crate never defines it, so the
  futures are modelled against `core::reactor`'s `register`/`block`/`deregister`.
- `core/waker.rs` (the vtable behind the live runtime's wakers), which is not part of
  this model. A live-path waker is the task id it carries.
- Unsafe pointer casts, `RawWaker` construction and pinning. Pointers are addresses; Dafny
  objects do not move.
- `Core::turn`, and the draft `Runtime::block_on` and `Runtime::spawn`: their bodies are
  `todo!()`.
- `Listener::bind`, `Listener::accept`, `Stream::read` (thin constructors of the modelled
  futures), the `Deref`/`DerefMut` delegations, and the `Debug` impls.
- The echo-server example application.
- The contents of the read buffer. A `Read` keeps only the buffer's length, and a
  successful read's byte count is taken as given.
- CoreTask.Id.Increment: does not model `usize` overflow (ids are unbounded `nat`), because
  the counter would need 2^64 spawns to wrap.
- CoreToken.Token.Increment: does not model `usize` overflow, for the same reason.
- LittleTokio.RunLoop: runs at most `fuel` rounds and reports OutOfFuel after that, because
  `block_on` need not terminate (a task may stay blocked forever).
- LittleTokio.BlockOn: the unbounded loop is bounded by `fuel` as in RunLoop.
- LittleTokio.BlockOnWithCleanup: the unbounded loop is bounded by `fuel` as in RunLoop.
- CoreReactor.Reactor.TryTurn: returns the fired wakers in order instead of firing them,
  because where a live-path waker delivers its wake (`core/waker.rs`) is not part of this
  model.
- CoreScheduler.Scheduler.Poll: a future's own `Scheduler::notify` or `Scheduler::schedule`
  during its poll is not modelled. The singleton's lock is released before the poll
  (core/scheduler.rs:95), so in the source such calls change the queue, the next id and the
  pending tasks while `poll` runs.
- CoreRuntime.Runtime.TryTurn: a fired live-path waker is taken to append its id to this
  runtime's queue. Where the waker really delivers the wake (`core/waker.rs`) is not part
  of this model, and `try_turn` itself runs while `RUNTIME` is mutably borrowed
  (lib.rs:49-50).
- DraftCore.Core.Poll: a wake during the poll (`DraftVtable.WakeByRef` on the same core) is
  not modelled. The caller that would drive the poll is a `todo!()` stub.
- LittleTokio.BlockOn: a panic's message is the `expect` text only. The appended error
  is not modelled.
- CoreReactor.Reactor.Turn: the panic message is the `expect` text without the appended
  error. The same holds for `Register`, `Deregister`, `Tcp.NewAccept` and `Tcp.NewRead`.
- CoreExecuter.Executer.Poll: the wakes a polled future performs go through its waker,
  whose target is not part of this model.

## Findings

| source | as written | input that shows it | evidently intended | confidence | as-written member | corrected member |
|---|---|---|---|---|---|---|
| crates/little-tokio/src/lib.rs:40-57 | the `loop` is left only through `return` (or a panic), so `RUNTIME.take()` after it never runs and the runtime stays installed on the thread | `block_on` of a main task that is Ready on its first poll, then a second `block_on` on the same thread: the second panics with "can not spawn more than 1 runtime on the same thread" | once the loop finishes, the runtime is removed from the thread so `block_on` can run again | not executed | LittleTokio.SecondBlockOnPanics | LittleTokio.SecondBlockOnRunsWithCleanup |
