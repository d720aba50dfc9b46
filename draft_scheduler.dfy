/** `scheduler` of the earlier draft: static functions over the thread-local `Runtime`,
    which is passed explicitly here. */
module DraftScheduler {
  import opened DraftTask
  import opened DraftRuntime

  /** `scheduler::Status`. */
  datatype Status = RunningTasks | WaitingForIOEvents | Done

  /** `Scheduler::schedule`: appends exactly one copy of `id`; the task table is
      untouched. */
  method Schedule<T>(rt: Runtime<T>, id: Id)
    modifies rt
    ensures rt.scheduledIds == old(rt.scheduledIds) + [id]
    ensures rt.tasks == old(rt.tasks)
  {
    rt.scheduledIds := rt.scheduledIds + [id];
  }

  /** `Scheduler::status`: Done iff no task is left, even with ids still queued; else
      WaitingForIOEvents iff the queue is empty; else RunningTasks. */
  function StatusOf<T>(rt: Runtime<T>): (s: Status)
    reads rt
    ensures s == Done <==> rt.tasks == map[]
    ensures s == WaitingForIOEvents <==> rt.tasks != map[] && rt.scheduledIds == []
    ensures s == RunningTasks <==> rt.tasks != map[] && rt.scheduledIds != []
  {
    if rt.tasks == map[] then Done
    else if rt.scheduledIds == [] then WaitingForIOEvents
    else RunningTasks
  }

  /** Scheduling the same id twice queues it twice. */
  method ScheduleTwice<T>(rt: Runtime<T>, id: Id)
    modifies rt
    ensures rt.scheduledIds == old(rt.scheduledIds) + [id, id]
    ensures rt.tasks == old(rt.tasks)
  {
    Schedule(rt, id);
    Schedule(rt, id);
  }
}
