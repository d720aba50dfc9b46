/** Operating-system level values the runtime handles without interpreting them. */
module Sys {

  /** A raw file descriptor (`RawFd`). Descriptors of open sockets are non-negative. */
  type RawFd = nat

  /** A `*const ()` data pointer; only its address is ever looked at. The source converts
      `usize` to and from pointers with `as`, which is lossless. */
  datatype Ptr = Ptr(addr: nat)

  /** The `io::ErrorKind`s the runtime distinguishes: "would block" is the signal to
      suspend, every other kind is an error carried back to the caller. */
  datatype ErrorKind = WouldBlock | Other(code: int)
}
