/** `runtime` of the earlier draft: the thread-local `Runtime` holding a task table and a
    ready queue. Its `block_on` and `spawn` are unimplemented stubs and are not modelled. */
module DraftRuntime {
  import opened DraftTask

  /** `runtime::Runtime`; `T` is the type of the tasks' futures. */
  class Runtime<T> {
    /** The tasks not yet completed. */
    var tasks: map<Id, T>
    /** The ids of the tasks ready to be polled, in FIFO order. */
    var scheduledIds: seq<Id>

    /** `Runtime::default()`. */
    constructor ()
      ensures tasks == map[] && scheduledIds == []
    {
      tasks := map[];
      scheduledIds := [];
    }
  }
}
