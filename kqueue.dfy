/** `sys::unix::kqueue`: kevent records, their flag predicates, and the calls made on the
    kqueue selector. The selector itself is a system call wrapper and is not part of
    this model: its results are inputs, and the calls made on it are recorded. */
module Kqueue {
  import opened Sys
  import opened CoreToken
  import opened CoreInterest

  /** `EVFILT_READ` of macOS `<sys/event.h>`. */
  const EVFILT_READ: int := -1
  /** `EVFILT_WRITE`. */
  const EVFILT_WRITE: int := -2
  /** `EVFILT_USER`. */
  const EVFILT_USER: int := -10
  /** `EV_ERROR`. */
  const EV_ERROR: bv16 := 0x4000
  /** `EV_EOF`. */
  const EV_EOF: bv16 := 0x8000

  /** `libc::kevent`: the fields the runtime reads. */
  datatype Event = Event(ident: nat, filter: int, flags: bv16, fflags: bv32, data: int, udata: Ptr)

  /** `Events`, a growable vector of kevents. */
  datatype Events = Events(items: seq<Event>)

  /** `Events::with_capacity`: a vector with room for `capacity` events holds none yet
      (the reserved room is an allocation detail). */
  function WithCapacity(capacity: nat): (events: Events)
    ensures |events.items| == 0
  {
    Events([])
  }

  /** `event::is_readable`: read filters and user filters report readability; never
      together with writability. */
  function IsReadable(e: Event): (readable: bool)
    ensures readable <==> e.filter in {EVFILT_READ, EVFILT_USER}
    ensures readable ==> e.filter != EVFILT_WRITE
  {
    e.filter == EVFILT_READ || e.filter == EVFILT_USER
  }

  /** `event::is_writable`: only the write filter reports writability. */
  function IsWritable(e: Event): (writable: bool)
    ensures writable <==> e.filter == EVFILT_WRITE
    ensures writable ==> !IsReadable(e)
  {
    e.filter == EVFILT_WRITE
  }

  /** `event::is_error`: EV_ERROR always means an error; without it, an error is EV_EOF
      with a non-zero `fflags` (the socket error code). */
  function IsError(e: Event): (error: bool)
    ensures e.flags & EV_ERROR != 0 ==> error
    ensures e.flags & EV_ERROR == 0 ==> (error <==> e.flags & EV_EOF != 0 && e.fflags != 0)
    ensures e.flags & EV_EOF == 0 ==> (error <==> e.flags & EV_ERROR != 0)
  {
    (e.flags & EV_ERROR) != 0 || (e.flags & EV_EOF != 0 && e.fflags != 0)
  }

  /** `event::is_read_closed`: a read event with EV_EOF. It implies readability and
      excludes a write-side close. */
  function IsReadClosed(e: Event): (closed: bool)
    ensures closed <==> e.filter == EVFILT_READ && e.flags & EV_EOF != 0
    ensures closed ==> IsReadable(e) && !IsWritable(e)
  {
    e.filter == EVFILT_READ && e.flags & EV_EOF != 0
  }

  /** `event::is_write_closed`: a write event with EV_EOF. It implies writability and is
      never reported together with a read-side close. */
  function IsWriteClosed(e: Event): (closed: bool)
    ensures closed <==> IsWritable(e) && e.flags & EV_EOF != 0
    ensures closed ==> !IsReadClosed(e)
  {
    e.filter == EVFILT_WRITE && e.flags & EV_EOF != 0
  }

  /** A call made on the selector, as recorded by the runtimes: registering a descriptor
      under a token for an interest, or deregistering it. */
  datatype SelectorCall = Register(fd: RawFd, token: Token, interest: Interest) | Deregister(fd: RawFd)
}
