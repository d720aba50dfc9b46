/** The crate root: `spawn` and the `block_on` loop that drives the live runtime. */
module LittleTokio {
  import opened Wrappers
  import opened Sys
  import Futures
  import opened CoreTask
  import opened CoreToken
  import opened Kqueue
  import TaskTable
  import Registry
  import opened RuntimeStatus
  import opened CoreRuntime

  /** The thread-local slot `RUNTIME` holding at most one runtime per thread. */
  class RuntimeSlot<T> {
    var current: Option<Runtime<T>>

    /** A thread starts with no runtime installed. */
    constructor ()
      ensures current == None
    {
      current := None;
    }
  }

  /** The panic message of a second `block_on` on a thread that already has a runtime. */
  const ALREADY_RUNNING: string := "can not spawn more than 1 runtime on the same thread"

  /** The text of the `expect` on a failed turn of the event loop inside `block_on`. */
  const TURN_FAILED_IN_LOOP: string := ""

  /** How the `block_on` loop ends: it returns once no task is left, or panics because a
      turn of the event loop failed (`expect("")`). A run that has not ended within the
      given number of rounds stops with OutOfFuel. */
  datatype LoopExit = Returned | TurnFailed(error: ErrorKind) | OutOfFuel

  /** The part of the runtime the loop changes: the task table, the ready queue, and how
      many turns of the event loop it has made so far. */
  datatype Machine<T> = Machine(tasks: map<Id, T>, queue: seq<Id>, turns: nat)

  /** The first half of a round: take the whole queue, leaving it empty, and poll the
      taken ids in FIFO order. */
  function DrainAndPoll<T>(m: Machine<T>, resume: T -> Futures.Step<T, ()>): (drained: Machine<T>)
    ensures drained.queue == [] && drained.turns == m.turns
    ensures StatusOf(drained.tasks, drained.queue) != RunningTasks
    ensures drained.tasks.Keys <= m.tasks.Keys
    ensures forall id :: id in m.tasks && id !in m.queue ==> id in drained.tasks && drained.tasks[id] == m.tasks[id]
  {
    forall id | id in m.tasks && id !in m.queue
      ensures id in TaskTable.PollAll(m.tasks, m.queue, resume)
      ensures TaskTable.PollAll(m.tasks, m.queue, resume)[id] == m.tasks[id]
    {
      TaskTable.PollAllUntouched(m.tasks, m.queue, id, resume);
    }
    Machine(TaskTable.PollAll(m.tasks, m.queue, resume), [], m.turns)
  }

  /** At most `fuel` rounds of the `block_on` loop from `m`. After each batch the status
      decides: Done returns; WaitingForEvents makes exactly one turn of the event loop
      (the `turns`-th answer of the selector, `select(turns)`) and goes round again. The
      RunningTasks arm, which goes round again at once, is never taken: a batch always
      leaves the queue empty, because nothing can schedule while a task is being polled
      (the runtime is borrowed for the whole poll). */
  function RunFrom<T>(m: Machine<T>, blocked: map<Token, Waker>, resume: T -> Futures.Step<T, ()>,
                      select: nat -> Result<seq<Event>, ErrorKind>, fuel: nat): (r: (Machine<T>, LoopExit))
    ensures m.turns <= r.0.turns <= m.turns + fuel
    ensures r.1 != OutOfFuel ==> r.0.queue == []
    ensures r.1 == OutOfFuel ==> r.0.turns == m.turns + fuel
    decreases fuel
  {
    if fuel == 0 then (m, OutOfFuel)
    else
      var drained := DrainAndPoll(m, resume);
      if StatusOf(drained.tasks, drained.queue) == Done then (drained, Returned)
      else
        match select(drained.turns)
        case Failure(e) => (drained, TurnFailed(e))
        case Success(events) =>
          RunFrom(Machine(drained.tasks, Registry.Woken(blocked, events), drained.turns + 1),
                  blocked, resume, select, fuel - 1)
  }

  /** The loop returns only when no task is left, and it never creates a task. */
  lemma {:induction false} RunReturnsOnlyWhenDone<T>(m: Machine<T>, blocked: map<Token, Waker>,
                                                     resume: T -> Futures.Step<T, ()>,
                                                     select: nat -> Result<seq<Event>, ErrorKind>, fuel: nat)
    ensures RunFrom(m, blocked, resume, select, fuel).1 == Returned ==> RunFrom(m, blocked, resume, select, fuel).0.tasks == map[]
    ensures RunFrom(m, blocked, resume, select, fuel).0.tasks.Keys <= m.tasks.Keys
    decreases fuel
  {
    if fuel > 0 {
      var drained := DrainAndPoll(m, resume);
      if StatusOf(drained.tasks, drained.queue) != Done && select(drained.turns).Success? {
        RunReturnsOnlyWhenDone(Machine(drained.tasks, Registry.Woken(blocked, select(drained.turns).value), drained.turns + 1),
                               blocked, resume, select, fuel - 1);
      }
    }
  }

  /** A task that is not in the ready queue and that no event can wake keeps its state
      for the whole run: the loop only ever polls ids taken from the queue. */
  lemma {:induction false} UnscheduledTaskUntouched<T>(m: Machine<T>, blocked: map<Token, Waker>,
                                                       resume: T -> Futures.Step<T, ()>,
                                                       select: nat -> Result<seq<Event>, ErrorKind>,
                                                       fuel: nat, id: Id)
    requires id in m.tasks && id !in m.queue && id !in blocked.Values
    ensures id in RunFrom(m, blocked, resume, select, fuel).0.tasks
    ensures RunFrom(m, blocked, resume, select, fuel).0.tasks[id] == m.tasks[id]
    decreases fuel
  {
    if fuel > 0 {
      var drained := DrainAndPoll(m, resume);
      if StatusOf(drained.tasks, drained.queue) != Done && select(drained.turns).Success? {
        var events := select(drained.turns).value;
        var woken := Registry.Woken(blocked, events);
        Registry.WokenAreBlocked(blocked, events);
        UnscheduledTaskUntouched(Machine(drained.tasks, woken, drained.turns + 1),
                                 blocked, resume, select, fuel - 1, id);
      }
    }
  }

  /** A main task that completes on its first poll ends the loop in the first round,
      without ever turning the event loop. */
  lemma ImmediateTaskNeverTurns<T>(main: T, blocked: map<Token, Waker>, resume: T -> Futures.Step<T, ()>,
                                   select: nat -> Result<seq<Event>, ErrorKind>, fuel: nat)
    requires fuel > 0 && resume(main).poll.Ready?
    ensures RunFrom(Machine(map[Id.Default() := main], [Id.Default()], 0), blocked, resume, select, fuel)
            == (Machine(map[], [], 0), Returned)
  {
    var m := Machine(map[Id.Default() := main], [Id.Default()], 0);
    assert m.queue[..0] == [];
    assert TaskTable.PollAll(m.tasks, m.queue, resume) == map[];
  }

  /** With nothing registered to be woken, a run whose queue is empty while tasks remain
      never returns: every round polls nothing and every turn wakes nothing. */
  lemma {:induction false} StalledNeverReturns<T>(m: Machine<T>, resume: T -> Futures.Step<T, ()>,
                                                  select: nat -> Result<seq<Event>, ErrorKind>, fuel: nat)
    requires m.queue == [] && m.tasks != map[]
    ensures RunFrom(m, map[], resume, select, fuel).1 != Returned
    decreases fuel
  {
    if fuel > 0 {
      var drained := DrainAndPoll(m, resume);
      assert drained.tasks == m.tasks;
      if select(drained.turns).Success? {
        var events := select(drained.turns).value;
        Registry.UnknownTokensIgnored<Waker>(map[], events);
        StalledNeverReturns(Machine(drained.tasks, [], drained.turns + 1), resume, select, fuel - 1);
      }
    }
  }

  /** In `block_on` the registry starts empty and nothing can add to it while the loop
      runs, so a main task that is pending on its first poll is never polled again and
      the loop never returns. */
  lemma PendingMainNeverReturns<T>(main: T, resume: T -> Futures.Step<T, ()>,
                                   select: nat -> Result<seq<Event>, ErrorKind>, fuel: nat)
    requires resume(main).poll.Pending?
    ensures RunFrom(Machine(map[Id.Default() := main], [Id.Default()], 0), map[], resume, select, fuel).1 != Returned
  {
    var m := Machine(map[Id.Default() := main], [Id.Default()], 0);
    if fuel > 0 {
      var drained := DrainAndPoll(m, resume);
      assert m.queue[..0] == [];
      assert TaskTable.PollAll(m.tasks, m.queue, resume) == TaskTable.PollEntry(m.tasks, Id.Default(), resume);
      assert Id.Default() in drained.tasks;
      if select(drained.turns).Success? {
        var events := select(drained.turns).value;
        Registry.UnknownTokensIgnored<Waker>(map[], events);
        StalledNeverReturns(Machine(drained.tasks, [], drained.turns + 1), resume, select, fuel - 1);
      }
    }
  }

  /** `spawn`: the task gets the current `next_id`, which no stored task has; `next_id`
      moves up by one; the task is stored and its id appended to the ready queue. */
  method Spawn<T>(rt: Runtime<T>, task: T)
    requires rt.Valid()
    modifies rt
    ensures rt.Valid()
    ensures old(rt.nextId) !in old(rt.tasks)
    ensures rt.nextId == old(rt.nextId).Increment().1
    ensures rt.tasks == old(rt.tasks)[old(rt.nextId) := task]
    ensures rt.scheduledIds == old(rt.scheduledIds) + [old(rt.nextId)]
    ensures rt.blockedFds == old(rt.blockedFds) && rt.selectorCalls == old(rt.selectorCalls)
  {
    var counter := rt.nextId.Increment();
    var id := counter.0;
    rt.nextId := counter.1;
    rt.tasks := rt.tasks[id := task];
    rt.Schedule(id);
  }

  /** The first half of a round of the `block_on` loop: take the whole ready queue,
      leaving it empty, and poll the taken ids in FIFO order. */
  method RunBatch<T>(rt: Runtime<T>, resume: T -> Futures.Step<T, ()>)
    requires rt.Valid()
    modifies rt
    ensures rt.Valid()
    ensures rt.tasks == TaskTable.PollAll(old(rt.tasks), old(rt.scheduledIds), resume)
    ensures rt.scheduledIds == []
    ensures rt.nextId == old(rt.nextId) && rt.blockedFds == old(rt.blockedFds)
    ensures rt.selectorCalls == old(rt.selectorCalls)
  {
    var batch := rt.scheduledIds;
    rt.scheduledIds := [];
    for i := 0 to |batch|
      invariant rt.Valid()
      invariant rt.tasks == TaskTable.PollAll(old(rt.tasks), batch[..i], resume)
      invariant rt.scheduledIds == []
      invariant rt.nextId == old(rt.nextId) && rt.blockedFds == old(rt.blockedFds)
      invariant rt.selectorCalls == old(rt.selectorCalls)
    {
      assert batch[..i + 1][..i] == batch[..i];
      rt.Poll(batch[i], resume);
    }
    assert batch[..|batch|] == batch;
  }

  /** The `loop` of `block_on`, run for at most `fuel` rounds: it does exactly what
      RunFrom describes, starting from the runtime's current tasks and queue. */
  method RunLoop<T>(rt: Runtime<T>, resume: T -> Futures.Step<T, ()>,
                    select: nat -> Result<seq<Event>, ErrorKind>, fuel: nat) returns (exit: LoopExit)
    requires rt.Valid()
    modifies rt
    ensures rt.Valid()
    ensures var r := RunFrom(Machine(old(rt.tasks), old(rt.scheduledIds), 0), old(rt.blockedFds), resume, select, fuel);
            exit == r.1 && rt.tasks == r.0.tasks && rt.scheduledIds == r.0.queue
    ensures rt.nextId == old(rt.nextId) && rt.blockedFds == old(rt.blockedFds)
    ensures rt.selectorCalls == old(rt.selectorCalls)
  {
    ghost var blocked := rt.blockedFds;
    ghost var goal := RunFrom(Machine(rt.tasks, rt.scheduledIds, 0), blocked, resume, select, fuel);
    var turns := 0;
    var rounds := 0;
    while rounds < fuel
      invariant 0 <= rounds <= fuel
      invariant rt.Valid()
      invariant rt.nextId == old(rt.nextId) && rt.blockedFds == blocked
      invariant rt.selectorCalls == old(rt.selectorCalls)
      invariant RunFrom(Machine(rt.tasks, rt.scheduledIds, turns), blocked, resume, select, fuel - rounds) == goal
    {
      ghost var m := Machine(rt.tasks, rt.scheduledIds, turns);
      ghost var left := fuel - rounds;
      RunBatch(rt, resume);
      ghost var drained := DrainAndPoll(m, resume);
      assert drained == Machine(rt.tasks, rt.scheduledIds, turns);
      rounds := rounds + 1;
      match rt.Status()
      case Done =>
        assert RunFrom(m, blocked, resume, select, left) == (drained, Returned);
        return Returned;
      case RunningTasks =>
        // `continue`: never taken, since the batch left the queue empty.
      case WaitingForEvents =>
        var answer := select(turns);
        var r := rt.TryTurn(answer);
        if r.Failure? {
          assert RunFrom(m, blocked, resume, select, left) == (drained, TurnFailed(r.error));
          return TurnFailed(r.error);
        }
        assert answer.Success? && rt.scheduledIds == Registry.Woken(blocked, answer.value);
        assert StatusOf(drained.tasks, drained.queue) != Done;
        turns := turns + 1;
        assert RunFrom(m, blocked, resume, select, left)
               == RunFrom(Machine(rt.tasks, rt.scheduledIds, turns), blocked, resume, select, fuel - rounds);
    }
    exit := OutOfFuel;
  }

  /** `block_on` as written: panics if the thread already has a runtime; otherwise
      installs a fresh runtime, spawns the main task as id 0 and runs the loop, which
      either returns or panics on a failed turn (`expect("")`). The loop leaves only
      through `return` (or a panic), so the `RUNTIME.take()` after it never runs and the
      runtime stays installed. */
  method BlockOn<T>(slot: RuntimeSlot<T>, main: T, resume: T -> Futures.Step<T, ()>,
                    select: nat -> Result<seq<Event>, ErrorKind>, fuel: nat) returns (exit: Exit<LoopExit>)
    modifies slot
    ensures old(slot.current).Some? ==> exit == Panic(ALREADY_RUNNING) && slot.current == old(slot.current)
    ensures old(slot.current).None? ==>
              slot.current.Some? && fresh(slot.current.value)
              && var r := RunFrom(Machine(map[Id.Default() := main], [Id.Default()], 0), map[], resume, select, fuel);
                 slot.current.value.tasks == r.0.tasks
                 && (r.1.TurnFailed? ==> exit == Panic(TURN_FAILED_IN_LOOP))
                 && (!r.1.TurnFailed? ==> exit == Return(r.1))
  {
    if slot.current.Some? {
      return Panic(ALREADY_RUNNING);
    }
    var rt := new Runtime<T>();
    slot.current := Some(rt);
    Spawn(rt, main);
    var loopExit := RunLoop(rt, resume, select, fuel);
    if loopExit.TurnFailed? {
      return Panic(TURN_FAILED_IN_LOOP);
    }
    exit := Return(loopExit);
  }

  /** `block_on` with the evidently intended cleanup: once the loop returns, the runtime
      is taken off the thread again. A failed turn still panics before the cleanup. */
  method BlockOnWithCleanup<T>(slot: RuntimeSlot<T>, main: T, resume: T -> Futures.Step<T, ()>,
                               select: nat -> Result<seq<Event>, ErrorKind>, fuel: nat) returns (exit: Exit<LoopExit>)
    modifies slot
    ensures old(slot.current).Some? ==> exit == Panic(ALREADY_RUNNING) && slot.current == old(slot.current)
    ensures old(slot.current).None? ==>
              var r := RunFrom(Machine(map[Id.Default() := main], [Id.Default()], 0), map[], resume, select, fuel);
              (r.1.TurnFailed? ==> exit == Panic(TURN_FAILED_IN_LOOP))
              && (!r.1.TurnFailed? ==> exit == Return(r.1))
              && (r.1 == Returned ==> slot.current == None)
  {
    if slot.current.Some? {
      return Panic(ALREADY_RUNNING);
    }
    var rt := new Runtime<T>();
    slot.current := Some(rt);
    Spawn(rt, main);
    var loopExit := RunLoop(rt, resume, select, fuel);
    if loopExit.TurnFailed? {
      return Panic(TURN_FAILED_IN_LOOP);
    }
    if loopExit == Returned {
      slot.current := None;
    }
    exit := Return(loopExit);
  }

  /** As written, a thread cannot run two `block_on`s one after the other: even when the
      first one's main task completes at once, the second call panics. */
  method SecondBlockOnPanics<T>(main: T, resume: T -> Futures.Step<T, ()>, select: nat -> Result<seq<Event>, ErrorKind>)
      returns (first: Exit<LoopExit>, second: Exit<LoopExit>)
    requires resume(main).poll.Ready?
    ensures first == Return(Returned)
    ensures second == Panic(ALREADY_RUNNING)
  {
    var slot := new RuntimeSlot<T>();
    ImmediateTaskNeverTurns(main, map[], resume, select, 1);
    first := BlockOn(slot, main, resume, select, 1);
    second := BlockOn(slot, main, resume, select, 1);
  }

  /** With the cleanup, the second `block_on` on the same thread runs normally. */
  method SecondBlockOnRunsWithCleanup<T>(main: T, resume: T -> Futures.Step<T, ()>, select: nat -> Result<seq<Event>, ErrorKind>)
      returns (first: Exit<LoopExit>, second: Exit<LoopExit>)
    requires resume(main).poll.Ready?
    ensures first == Return(Returned)
    ensures second == Return(Returned)
  {
    var slot := new RuntimeSlot<T>();
    ImmediateTaskNeverTurns(main, map[], resume, select, 1);
    first := BlockOnWithCleanup(slot, main, resume, select, 1);
    second := BlockOnWithCleanup(slot, main, resume, select, 1);
  }
}
