/** `core::executer`: the task half of the runtime as a plain object with public fields. */
module CoreExecuter {
  import Futures
  import opened CoreTask
  import TaskTable
  import opened RuntimeStatus

  /** `core::executer::Executer`; `T` is the type of the tasks' futures. */
  class Executer<T> {
    /** The id the next task gets. */
    var nextId: Id
    /** The tasks not yet completed. */
    var pendingTasks: map<Id, T>
    /** The ids of the tasks ready to be polled, in FIFO order. */
    var scheduledIds: seq<Id>

    /** `Executer::default()`. */
    constructor ()
      ensures nextId == Id.Default() && pendingTasks == map[] && scheduledIds == []
    {
      nextId := Id.Default();
      pendingTasks := map[];
      scheduledIds := [];
    }

    /** `Executer::poll`: an absent id changes nothing; otherwise the task is taken out,
        polled once, and reinserted under `id` only if it is still pending. The queue and
        `next_id` are never touched. */
    method Poll(id: Id, resume: T -> Futures.Step<T, ()>)
      modifies this
      ensures pendingTasks == TaskTable.PollEntry(old(pendingTasks), id, resume)
      ensures nextId == old(nextId) && scheduledIds == old(scheduledIds)
    {
      if id !in pendingTasks {
        return;
      }
      var task := pendingTasks[id];
      pendingTasks := pendingTasks - {id};
      var step := resume(task);
      if step.poll.Pending? {
        pendingTasks := pendingTasks[id := step.resumed];
      }
    }

    /** `Executer::status`: Done whenever no task is pending, even with ids still queued;
        otherwise WaitingForEvents iff the queue is empty, else RunningTasks. */
    function Status(): (s: Status)
      reads this
      ensures pendingTasks == map[] ==> s == Done
      ensures s == Done ==> pendingTasks == map[]
      ensures s == WaitingForEvents <==> pendingTasks != map[] && scheduledIds == []
      ensures s == RunningTasks <==> pendingTasks != map[] && scheduledIds != []
    {
      StatusOf(pendingTasks, scheduledIds)
    }
  }
}
