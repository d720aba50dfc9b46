/** `utils::maybe_done`: a future that runs an inner future to completion and keeps its
    output until it is taken. The `ready!` early return of `utils` is folded into the
    poll. */
module MaybeDoneCombinator {
  import opened Wrappers
  import opened Futures

  /** `MaybeDone<F>`: still running the inner future, done with its output, or emptied. */
  datatype MaybeDone<F, O> = Future(future: F) | Done(output: O) | Gone

  /** The panic message of a poll after the output was taken. */
  const POLLED_AFTER_TAKEN: string := "MaybeDone polled after value taken"

  /** What one poll reports, and the state it leaves behind. */
  datatype Polled<F, O> = Polled(poll: Poll<()>, state: MaybeDone<F, O>)

  /** `maybe_done`: wraps a future, not yet polled. */
  function MaybeDoneOf<F, O>(f: F): (m: MaybeDone<F, O>)
    ensures m.Future? && m.future == f
  {
    Future(f)
  }

  /** One poll, where `resume` is the inner future's body. A `Gone` state panics. A
      running future that is still pending reports Pending and stays running (advanced in
      place); one that completes stores its output and reports Ready. A `Done` state
      reports Ready and stays as it is. A poll never empties the state and never moves
      `Done` back to running. */
  function PollOnce<F, O>(m: MaybeDone<F, O>, resume: F -> Step<F, O>): (r: Exit<Polled<F, O>>)
    ensures r.Panic? <==> m.Gone?
    ensures r.Panic? ==> r.message == POLLED_AFTER_TAKEN
    ensures m.Done? ==> r == Return(Polled(Ready(()), m))
    ensures m.Future? && resume(m.future).poll.Pending? ==>
              r == Return(Polled(Pending, Future(resume(m.future).resumed)))
    ensures m.Future? && resume(m.future).poll.Ready? ==>
              r == Return(Polled(Ready(()), Done(resume(m.future).poll.value)))
    ensures r.Return? ==> !r.value.state.Gone? && (r.value.poll.Ready? <==> r.value.state.Done?)
  {
    match m
    case Future(f) =>
      var step := resume(f);
      if step.poll.Pending? then Return(Polled(Pending, Future(step.resumed)))
      else Return(Polled(Ready(()), Done(step.poll.value)))
    case Done(_) => Return(Polled(Ready(()), m))
    case Gone => Panic(POLLED_AFTER_TAKEN)
  }

  /** The state after `n` polls, or the panic of the first poll that panics. */
  function PollTimes<F, O>(m: MaybeDone<F, O>, resume: F -> Step<F, O>, n: nat): Exit<MaybeDone<F, O>>
    decreases n
  {
    if n == 0 then Return(m)
    else
      match PollOnce(m, resume)
      case Panic(msg) => Panic(msg)
      case Return(p) => PollTimes(p.state, resume, n - 1)
  }

  /** Done is final: any number of further polls leaves the same output in place. */
  lemma {:induction false} DoneIsFinal<F, O>(output: O, resume: F -> Step<F, O>, n: nat)
    ensures PollTimes(Done(output), resume, n) == Return(Done(output))
    decreases n
  {
    if n > 0 {
      DoneIsFinal(output, resume, n - 1);
    }
  }

  /** A state that was not emptied never panics, however often it is polled, and is
      never emptied by polling; a Done state stays exactly as it is. */
  lemma {:induction false} WrappedNeverPanics<F, O>(m: MaybeDone<F, O>, resume: F -> Step<F, O>, n: nat)
    requires !m.Gone?
    ensures PollTimes(m, resume, n).Return? && !PollTimes(m, resume, n).value.Gone?
    ensures m.Done? ==> PollTimes(m, resume, n) == Return(m)
    decreases n
  {
    if n > 0 {
      var p := PollOnce(m, resume);
      WrappedNeverPanics(p.value.state, resume, n - 1);
      if m.Done? {
        DoneIsFinal(m.output, resume, n);
      }
    }
  }

  /** The `MaybeDone` future as an object polled in place (`self.set`). */
  class MaybeDoneFuture<F, O> {
    var state: MaybeDone<F, O>

    /** `maybe_done(f)`. */
    constructor (f: F)
      ensures state == MaybeDoneOf(f)
    {
      state := Future(f);
    }

    /** `poll`: does what PollOnce describes, and on a panic leaves the state as it was. */
    method Poll(resume: F -> Step<F, O>) returns (r: Exit<Poll<()>>)
      modifies this
      ensures PollOnce(old(state), resume).Panic? ==> r == Panic(POLLED_AFTER_TAKEN) && state == old(state)
      ensures PollOnce(old(state), resume).Return? ==>
                r == Return(PollOnce(old(state), resume).value.poll) && state == PollOnce(old(state), resume).value.state
    {
      match state {
        case Future(f) =>
          var step := resume(f);
          if step.poll.Pending? {
            state := Future(step.resumed);
            return Return(Pending);
          }
          state := Done(step.poll.value);
        case Done(_) =>
        case Gone =>
          return Panic(POLLED_AFTER_TAKEN);
      }
      return Return(Ready(()));
    }
  }
}
