/** `core` of the earlier draft: the thread-local `Core` with a task table and a ready
    queue. `Core::turn` is an unimplemented stub and is not modelled. */
module DraftCore {
  import Futures
  import opened DraftTask
  import TaskTable
  import opened RuntimeStatus

  /** `core::Core`; `T` is the type of the tasks' futures. */
  class Core<T> {
    /** The tasks not yet completed. */
    var tasks: map<Id, T>
    /** The ids of the tasks ready to be polled, in FIFO order. */
    var scheduledIds: seq<Id>

    /** `Core::default()`. */
    constructor ()
      ensures tasks == map[] && scheduledIds == []
    {
      tasks := map[];
      scheduledIds := [];
    }

    /** `Core::schedule`: appends exactly `id`; nothing else changes. */
    method Schedule(id: Id)
      modifies this
      ensures scheduledIds == old(scheduledIds) + [id]
      ensures tasks == old(tasks)
    {
      scheduledIds := scheduledIds + [id];
    }

    /** `Core::poll`: an absent id is a no-op; otherwise the task is taken out, polled once,
        and reinserted under `id` only if it is still pending. The queue is untouched. */
    method Poll(id: Id, resume: T -> Futures.Step<T, ()>)
      modifies this
      ensures tasks == TaskTable.PollEntry(old(tasks), id, resume)
      ensures scheduledIds == old(scheduledIds)
    {
      if id !in tasks {
        return;
      }
      var task := tasks[id];
      tasks := tasks - {id};
      var step := resume(task);
      if step.poll.Pending? {
        tasks := tasks[id := step.resumed];
      }
    }

    /** `Core::status`: Done iff no task is left, else WaitingForEvents iff the queue is
        empty, else RunningTasks. */
    function Status(): (s: Status)
      reads this
      ensures s == Done <==> tasks == map[]
      ensures s == WaitingForEvents <==> tasks != map[] && scheduledIds == []
      ensures s == RunningTasks <==> tasks != map[] && scheduledIds != []
    {
      StatusOf(tasks, scheduledIds)
    }
  }
}
