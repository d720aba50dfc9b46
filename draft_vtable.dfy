/** `vtable` of the earlier draft: the waker functions over the thread-local `Core`. The
    thread-local holder is not modelled; the `Core` is passed explicitly. */
module DraftVtable {
  import opened Sys
  import opened DraftTask
  import opened DraftCore

  /** `clone`: a waker with the same data and this module's vtable. */
  function Clone(data: Ptr): (w: RawWaker)
    ensures w.data == data && w.vtable == CoreVTable
  {
    RawWaker(data, CoreVTable)
  }

  /** `wake_by_ref`: schedules the task whose id the data pointer carries. */
  method WakeByRef<T>(core: Core<T>, data: Ptr)
    modifies core
    ensures core.scheduledIds == old(core.scheduledIds) + [Id.FromPtr(data)]
    ensures core.tasks == old(core.tasks)
  {
    core.Schedule(Id.FromPtr(data));
  }

  /** `wake`: exactly the effect of `wake_by_ref`. */
  method Wake<T>(core: Core<T>, data: Ptr)
    modifies core
    ensures core.scheduledIds == old(core.scheduledIds) + [Id.FromPtr(data)]
    ensures core.tasks == old(core.tasks)
  {
    WakeByRef(core, data);
  }

  /** `drop`: does nothing. */
  method Drop<T>(core: Core<T>, data: Ptr)
    ensures core.scheduledIds == old(core.scheduledIds) && core.tasks == old(core.tasks)
  {
  }

  /** `k` copies of `x`. */
  function Repeat<X>(x: X, k: nat): (s: seq<X>)
    ensures |s| == k
    ensures forall i :: 0 <= i < k ==> s[i] == x
  {
    if k == 0 then [] else Repeat(x, k - 1) + [x]
  }

  /** Waking the waker of task `id` `k` times queues `k` copies of `id`: the waker
      carries `id` itself, and nothing is deduplicated. */
  method WakeRepeatedly<T>(core: Core<T>, id: Id, k: nat)
    modifies core
    ensures core.scheduledIds == old(core.scheduledIds) + Repeat(id, k)
    ensures core.tasks == old(core.tasks)
  {
    var waker := IntoWaker(id);
    for n := 0 to k
      invariant core.scheduledIds == old(core.scheduledIds) + Repeat(id, n)
      invariant core.tasks == old(core.tasks)
    {
      WakeByRef(core, waker.data);
    }
  }
}
