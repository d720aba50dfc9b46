/** `core::scheduler`: the task half of the runtime, kept in a process-wide singleton. The
    singleton and its mutex are not modelled; a `Scheduler` object stands for the one
    instance, and each static entry point is the method of the same name on it. */
module CoreScheduler {
  import opened Wrappers
  import Futures
  import opened CoreTask
  import TaskTable
  import opened RuntimeStatus

  /** `core::scheduler::Scheduler`; `T` is the type of the tasks' futures. */
  class Scheduler<T> {
    /** The id the next scheduled task gets. */
    var nextId: Id
    /** The tasks not yet completed. */
    var pendingTasks: map<Id, T>
    /** The ids of the tasks ready to be polled, in FIFO order; duplicates are allowed. */
    var scheduledIds: seq<Id>

    /** Every stored task has an id below `nextId`. */
    ghost predicate Valid()
      reads this
    {
      forall id :: id in pendingTasks ==> id.Less(nextId)
    }

    /** `Scheduler::default()`, the singleton's first state. */
    constructor ()
      ensures Valid()
      ensures nextId == Id.Default() && pendingTasks == map[] && scheduledIds == []
    {
      nextId := Id.Default();
      pendingTasks := map[];
      scheduledIds := [];
    }

    /** `get_status`: Done iff no task is pending, else WaitingForEvents iff the queue is
        empty, else RunningTasks. */
    function GetStatus(): (s: Status)
      reads this
      ensures s == Done <==> pendingTasks == map[]
      ensures s == WaitingForEvents <==> pendingTasks != map[] && scheduledIds == []
      ensures s == RunningTasks <==> pendingTasks != map[] && scheduledIds != []
    {
      StatusOf(pendingTasks, scheduledIds)
    }

    /** `get_scheduled_ids`: hands over the whole queue, in order, and leaves it empty. */
    method GetScheduledIds() returns (ids: seq<Id>)
      modifies this
      ensures ids == old(scheduledIds) && scheduledIds == []
      ensures nextId == old(nextId) && pendingTasks == old(pendingTasks)
    {
      ids := scheduledIds;
      scheduledIds := [];
    }

    /** `get_task`: removes and returns the task stored under `id`, or None if there is
        none. */
    method GetTask(id: Id) returns (task: Option<T>)
      modifies this
      ensures id in old(pendingTasks) ==> task == Some(old(pendingTasks)[id])
      ensures id !in old(pendingTasks) ==> task == None
      ensures pendingTasks == old(pendingTasks) - {id}
      ensures nextId == old(nextId) && scheduledIds == old(scheduledIds)
    {
      if id in pendingTasks {
        task := Some(pendingTasks[id]);
      } else {
        task := None;
      }
      pendingTasks := pendingTasks - {id};
    }

    /** `do_schedule`: the task gets the current `next_id`, which no pending task has;
        `next_id` moves up by one; the task is stored and its id appended to the queue. */
    method DoSchedule(task: T) returns (id: Id)
      requires Valid()
      modifies this
      ensures Valid()
      ensures id == old(nextId) && id !in old(pendingTasks)
      ensures nextId == old(nextId).Increment().1
      ensures pendingTasks == old(pendingTasks)[id := task]
      ensures scheduledIds == old(scheduledIds) + [id]
    {
      var counter := nextId.Increment();
      id := counter.0;
      nextId := counter.1;
      pendingTasks := pendingTasks[id := task];
      scheduledIds := scheduledIds + [id];
    }

    /** `do_pend`: stores the task back under its id, leaving the queue alone. Storing
        under an id already handed out keeps every stored id below `nextId`. */
    method DoPend(id: Id, task: T)
      modifies this
      ensures old(Valid()) && id.Less(nextId) ==> Valid()
      ensures pendingTasks == old(pendingTasks)[id := task]
      ensures nextId == old(nextId) && scheduledIds == old(scheduledIds)
    {
      pendingTasks := pendingTasks[id := task];
    }

    /** `do_notify`: appends `id` to the queue unconditionally, so an id can be queued
        several times. */
    method DoNotify(id: Id)
      modifies this
      ensures scheduledIds == old(scheduledIds) + [id]
      ensures nextId == old(nextId) && pendingTasks == old(pendingTasks)
    {
      scheduledIds := scheduledIds + [id];
    }

    /** `Scheduler::poll`: takes the task out with `get_task` (an absent id ends the poll
        there), polls it once, and puts it back with `do_pend` only if it is still
        pending; a completed task is dropped. */
    method Poll(id: Id, resume: T -> Futures.Step<T, ()>)
      requires Valid()
      modifies this
      ensures Valid()
      ensures pendingTasks == TaskTable.PollEntry(old(pendingTasks), id, resume)
      ensures nextId == old(nextId) && scheduledIds == old(scheduledIds)
    {
      var task := GetTask(id);
      if task.None? {
        return;
      }
      var step := resume(task.value);
      if step.poll.Pending? {
        DoPend(id, step.resumed);
      }
    }
  }

  /** Notifying the same id twice queues it twice: there is no deduplication. */
  method NotifyTwice<T>(s: Scheduler<T>, id: Id)
    modifies s
    ensures s.scheduledIds == old(s.scheduledIds) + [id, id]
    ensures s.pendingTasks == old(s.pendingTasks) && s.nextId == old(s.nextId)
  {
    s.DoNotify(id);
    s.DoNotify(id);
  }
}
