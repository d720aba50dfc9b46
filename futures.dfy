/** The `Future` contract, with a future's body taken as an oracle. */
module Futures {

  /** `std::task::Poll`. */
  datatype Poll<+O> = Pending | Ready(value: O)

  /** What one call of a future's `poll` does: the outcome it reports and the state the
      future is left in (a future is polled in place, so a pending future may have
      advanced its own state). A future's body is an oracle `F -> Step<F, O>`. */
  datatype Step<+F, +O> = Step(poll: Poll<O>, resumed: F)
}
