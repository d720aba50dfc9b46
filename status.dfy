/** The three-way status that drives the event loop. The live runtime, the singleton
    scheduler and the executer each declare the same `Status` enum and decide it by the
    same rule; it is modelled once here. */
module RuntimeStatus {
  /** `Status`: tasks are ready to poll, the loop must wait for I/O events, or every task
      has completed. */
  datatype Status = RunningTasks | WaitingForEvents | Done

  /** The status of a task table and ready queue: Done once no task is left (whatever the
      queue holds), else WaitingForEvents when nothing is ready, else RunningTasks. The
      three cases partition the states. */
  function StatusOf<K, T>(tasks: map<K, T>, queue: seq<K>): (s: Status)
    ensures s == Done <==> tasks == map[]
    ensures s == WaitingForEvents <==> tasks != map[] && queue == []
    ensures s == RunningTasks <==> tasks != map[] && queue != []
  {
    if tasks == map[] then Done
    else if queue == [] then WaitingForEvents
    else RunningTasks
  }
}
