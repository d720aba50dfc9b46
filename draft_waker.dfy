/** `waker` of the earlier draft: the waker functions over the top-level `Scheduler`,
    whose runtime is passed explicitly here. */
module DraftWaker {
  import opened Sys
  import opened DraftTask
  import opened DraftRuntime
  import DraftScheduler

  /** `clone`: a waker with the same data and this module's vtable. */
  function Clone(data: Ptr): (w: RawWaker)
    ensures w.data == data && w.vtable == SchedulerVTable
  {
    RawWaker(data, SchedulerVTable)
  }

  /** `wake_by_ref`: `Scheduler::schedule` of the id the data pointer carries. */
  method WakeByRef<T>(rt: Runtime<T>, data: Ptr)
    modifies rt
    ensures rt.scheduledIds == old(rt.scheduledIds) + [Id.FromPtr(data)]
    ensures rt.tasks == old(rt.tasks)
  {
    DraftScheduler.Schedule(rt, Id.FromPtr(data));
  }

  /** `wake`: exactly the effect of `wake_by_ref`. */
  method Wake<T>(rt: Runtime<T>, data: Ptr)
    modifies rt
    ensures rt.scheduledIds == old(rt.scheduledIds) + [Id.FromPtr(data)]
    ensures rt.tasks == old(rt.tasks)
  {
    WakeByRef(rt, data);
  }

  /** `drop`: does nothing. */
  method Drop<T>(rt: Runtime<T>, data: Ptr)
    ensures rt.scheduledIds == old(rt.scheduledIds) && rt.tasks == old(rt.tasks)
  {
  }

  /** `From<TaskId> for Waker` in `waker`: the id's pointer as data, with this module's
      vtable; waking it schedules the id again. */
  function IntoWaker(id: Id): (w: RawWaker)
    ensures w.data == id.ToPtr() && w.vtable == SchedulerVTable
    ensures Id.FromPtr(w.data) == id
  {
    RawWaker(id.ToPtr(), SchedulerVTable)
  }
}
