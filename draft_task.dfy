/** `task` of the earlier draft: task identifiers and the wakers built from them. */
module DraftTask {
  import opened Sys

  /** `task::Id`, a task identifier wrapping a `usize` (unbounded here); its derived
      default is 0. */
  datatype Id = Id(value: nat) {

    /** `Id::to_ptr`: the id as the data pointer of a waker. */
    function ToPtr(): (p: Ptr)
      ensures p.addr == value
    {
      Ptr(value)
    }

    /** `Id::from_ptr`: recovers an id from a waker's data pointer; converting back gives
        the same pointer. */
    static function FromPtr(p: Ptr): (id: Id)
      ensures id.ToPtr() == p
    {
      Id(p.addr)
    }
  }

  /** The derived `Id::default()`. */
  function DefaultId(): (id: Id)
    ensures id.value == 0
  {
    Id(0)
  }

  /** The two static vtables of the draft: the one in `vtable` (over `Core`) and the one in
      `waker` (over the top-level `Scheduler`). */
  datatype VTable = CoreVTable | SchedulerVTable

  /** A `RawWaker`: a data pointer and the vtable that interprets it. */
  datatype RawWaker = RawWaker(data: Ptr, vtable: VTable)

  /** `From<Id> for Waker` in `task`: the id's pointer as data, with the `vtable` module's
      table. */
  function IntoWaker(id: Id): (w: RawWaker)
    ensures w.vtable == CoreVTable
    ensures Id.FromPtr(w.data) == id
  {
    RawWaker(id.ToPtr(), CoreVTable)
  }

  /** Converting an id to a pointer and back gives the id, so `to_ptr` is injective. */
  lemma PtrRoundTrip(a: Id, b: Id)
    ensures Id.FromPtr(a.ToPtr()) == a
    ensures a.ToPtr() == b.ToPtr() ==> a == b
  {
  }
}
