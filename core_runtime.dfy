/** `core::runtime`: the single-threaded runtime of the live path. It owns the task table,
    the FIFO ready queue, the wake registry keyed by descriptor token, and the selector. */
module CoreRuntime {
  import opened Wrappers
  import opened Sys
  import Futures
  import opened CoreTask
  import opened CoreToken
  import opened CoreInterest
  import opened Kqueue
  import TaskTable
  import Registry
  import opened RuntimeStatus

  /** `runtime::Runtime`; `T` is the type of the tasks' futures. */
  class Runtime<T> {
    /** The id the next spawned task gets. */
    var nextId: Id
    /** The tasks not yet completed. */
    var tasks: map<Id, T>
    /** The ids of the tasks ready to be polled, in FIFO order; duplicates are allowed. */
    var scheduledIds: seq<Id>
    /** The waker to fire for each blocked descriptor's token. */
    var blockedFds: map<Token, Waker>
    /** The registrations and deregistrations made on the selector, in order. */
    ghost var selectorCalls: seq<SelectorCall>

    /** Every stored task has an id below `nextId`, so the id handed out next is fresh. */
    ghost predicate Valid()
      reads this
    {
      forall id :: id in tasks ==> id.Less(nextId)
    }

    /** `Runtime::default()`. */
    constructor ()
      ensures Valid()
      ensures nextId == Id.Default() && tasks == map[] && scheduledIds == []
      ensures blockedFds == map[] && selectorCalls == []
    {
      nextId := Id.Default();
      tasks := map[];
      scheduledIds := [];
      blockedFds := map[];
      selectorCalls := [];
    }

    /** `Runtime::schedule`: appends exactly `id` to the ready queue, even if it is already
        there; nothing else changes. A waker's `wake_by_ref` does this. */
    method Schedule(id: Id)
      modifies this
      ensures scheduledIds == old(scheduledIds) + [id]
      ensures nextId == old(nextId) && tasks == old(tasks) && blockedFds == old(blockedFds)
      ensures selectorCalls == old(selectorCalls)
    {
      scheduledIds := scheduledIds + [id];
    }

    /** `Runtime::poll`: an id with no task is a no-op; otherwise the task is taken out of
        the table, polled once with a waker for `id`, and stored back under `id` only if
        it is still pending. The queue, the registry and `nextId` are untouched. */
    method Poll(id: Id, resume: T -> Futures.Step<T, ()>)
      requires Valid()
      modifies this
      ensures Valid()
      ensures tasks == TaskTable.PollEntry(old(tasks), id, resume)
      ensures scheduledIds == old(scheduledIds) && nextId == old(nextId)
      ensures blockedFds == old(blockedFds) && selectorCalls == old(selectorCalls)
    {
      if id !in tasks {
        return;
      }
      var task := tasks[id];
      tasks := tasks - {id};
      var step := resume(task);
      if step.poll.Pending? {
        tasks := tasks[id := step.resumed];
      }
    }

    /** `Runtime::try_turn`, given what `try_select` returned: a selector error is passed
        back with nothing woken; otherwise each reported event whose token has a blocked
        waker wakes it, in event order. Unknown tokens are ignored and no registry entry
        is removed. */
    method TryTurn(selected: Result<seq<Event>, ErrorKind>) returns (r: Result<(), ErrorKind>)
      modifies this
      ensures selected.Failure? ==> r == Failure(selected.error) && scheduledIds == old(scheduledIds)
      ensures selected.Success? ==>
                r == Success(()) && scheduledIds == old(scheduledIds) + Registry.Woken(blockedFds, selected.value)
      ensures tasks == old(tasks) && nextId == old(nextId) && blockedFds == old(blockedFds)
      ensures selectorCalls == old(selectorCalls)
    {
      if selected.Failure? {
        return Failure(selected.error);
      }
      var events := selected.value;
      for i := 0 to |events|
        invariant scheduledIds == old(scheduledIds) + Registry.Woken(blockedFds, events[..i])
        invariant tasks == old(tasks) && nextId == old(nextId) && blockedFds == old(blockedFds)
        invariant selectorCalls == old(selectorCalls)
      {
        assert events[..i + 1][..i] == events[..i];
        var token := Token.FromPtr(events[i].udata);
        if token in blockedFds {
          Schedule(blockedFds[token]);
        }
      }
      assert events[..|events|] == events;
      return Success(());
    }

    /** `Runtime::try_register`: registers the descriptor with the selector, using the
        descriptor's own token, and passes back the selector's answer. The registry is
        untouched. */
    method TryRegister(fd: RawFd, interest: Interest, answer: Result<(), ErrorKind>) returns (r: Result<(), ErrorKind>)
      modifies this
      ensures r == answer
      ensures selectorCalls == old(selectorCalls) + [Register(fd, FromRawFd(fd), interest)]
      ensures tasks == old(tasks) && nextId == old(nextId) && scheduledIds == old(scheduledIds)
      ensures blockedFds == old(blockedFds)
    {
      selectorCalls := selectorCalls + [Register(fd, FromRawFd(fd), interest)];
      r := answer;
    }

    /** `Runtime::try_deregister`: drops the descriptor's waker first (a no-op when there is
        none), then deregisters it from the selector and passes back its answer. */
    method TryDeregister(fd: RawFd, answer: Result<(), ErrorKind>) returns (r: Result<(), ErrorKind>)
      modifies this
      ensures r == answer
      ensures blockedFds == old(blockedFds) - {FromRawFd(fd)}
      ensures FromRawFd(fd) !in old(blockedFds) ==> blockedFds == old(blockedFds)
      ensures selectorCalls == old(selectorCalls) + [Deregister(fd)]
      ensures tasks == old(tasks) && nextId == old(nextId) && scheduledIds == old(scheduledIds)
    {
      blockedFds := blockedFds - {FromRawFd(fd)};
      selectorCalls := selectorCalls + [Deregister(fd)];
      r := answer;
    }

    /** `Runtime::block`: records `waker` as the one waker for the descriptor's token,
        replacing any earlier one. The selector is not called. */
    method Block(fd: RawFd, waker: Waker)
      modifies this
      ensures blockedFds == old(blockedFds)[FromRawFd(fd) := waker]
      ensures tasks == old(tasks) && nextId == old(nextId) && scheduledIds == old(scheduledIds)
      ensures selectorCalls == old(selectorCalls)
    {
      blockedFds := blockedFds[FromRawFd(fd) := waker];
    }

    /** `Runtime::status`: Done iff no task is left, else WaitingForEvents iff the ready
        queue is empty, else RunningTasks. */
    function Status(): (s: Status)
      reads this
      ensures s == Done <==> tasks == map[]
      ensures s == WaitingForEvents <==> tasks != map[] && scheduledIds == []
      ensures s == RunningTasks <==> tasks != map[] && scheduledIds != []
    {
      StatusOf(tasks, scheduledIds)
    }
  }
}
