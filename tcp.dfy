/** `net::tcp`: the leaf I/O futures of the runtime. Each future registers its descriptor
    for readability when it is created, makes one non-blocking attempt per poll, records
    the polling task's waker under the descriptor's token when the attempt would block,
    and deregisters the descriptor when it is dropped. The socket system calls are not
    modelled: their results are inputs. The reactor the futures talk to is the one of
    `core::reactor`, passed explicitly. */
module Tcp {
  import opened Wrappers
  import opened Sys
  import opened Futures
  import opened CoreTask
  import opened CoreToken
  import opened CoreInterest
  import opened Kqueue
  import Registry
  import opened CoreReactor

  /** `Listener`, a wrapper around a TCP listening socket, seen as its descriptor. */
  datatype Listener = Listener(fd: RawFd)

  /** `Stream`, a wrapper around a connected TCP socket, seen as its descriptor. */
  datatype Stream = Stream(fd: RawFd)

  /** A peer's socket address, kept opaque. */
  datatype SocketAddr = SocketAddr(addr: nat)

  /** What the non-blocking `accept` system call returned on success: the new
      connection's descriptor and the peer's address. */
  datatype Accepted = Accepted(fd: RawFd, peer: SocketAddr)

  /** `Accept`, the future returned by `Listener::accept`. */
  datatype Accept = Accept(listener: Listener)

  /** `Read`, the future returned by `Stream::read`; the buffer is seen only as its length,
      its contents are not modelled. */
  datatype Read = Read(stream: Stream, capacity: nat)

  const LISTENER_NONBLOCKING_FAILED: string := "should make the TCP listener non blocking properly"
  const STREAM_NONBLOCKING_FAILED: string := "should set non-blocking properly"

  /** `Stream::new`: wraps a connected socket once it is switched to non-blocking mode,
      passing back the error when that fails. */
  function NewStream(fd: RawFd, setNonblocking: Result<(), ErrorKind>): (r: Result<Stream, ErrorKind>)
    ensures r.Success? <==> setNonblocking.Success?
    ensures r.Success? ==> r.value.fd == fd
    ensures r.Failure? ==> r.error == setNonblocking.error
  {
    if setNonblocking.Failure? then Failure(setNonblocking.error) else Success(Stream(fd))
  }

  /** What one poll of `Accept` reports, given the `accept` attempt and, for an accepted
      connection, the result of switching it to non-blocking mode. Pending exactly when
      the attempt would block; an accepted connection is Ready with a new non-blocking
      stream, or with the error of switching it; any other error is Ready with that
      error. */
  function AcceptOutcome(attempt: Result<Accepted, ErrorKind>, setNonblocking: Result<(), ErrorKind>)
    : (p: Poll<Result<(Stream, SocketAddr), ErrorKind>>)
    ensures p.Pending? <==> attempt == Failure(WouldBlock)
    ensures attempt.Success? && setNonblocking.Success? ==>
              p == Ready(Success((Stream(attempt.value.fd), attempt.value.peer)))
    ensures attempt.Success? && setNonblocking.Failure? ==> p == Ready(Failure(setNonblocking.error))
    ensures attempt.Failure? && attempt.error != WouldBlock ==> p == Ready(Failure(attempt.error))
  {
    match attempt
    case Success(accepted) =>
      var stream := NewStream(accepted.fd, setNonblocking);
      if stream.Success? then Ready(Success((stream.value, accepted.peer))) else Ready(Failure(stream.error))
    case Failure(e) =>
      if e == WouldBlock then Pending else Ready(Failure(e))
  }

  /** What one poll of `Read` reports, given the `read` attempt: Pending exactly when the
      attempt would block; otherwise Ready with the byte count (0 included) or the
      error. */
  function ReadOutcome(attempt: Result<nat, ErrorKind>): (p: Poll<Result<nat, ErrorKind>>)
    ensures p.Pending? <==> attempt == Failure(WouldBlock)
    ensures p.Ready? ==> p.value == attempt
  {
    if attempt == Failure(WouldBlock) then Pending else Ready(attempt)
  }

  /** `Accept::new`: switches the listener to non-blocking mode (a failure aborts) and
      registers its descriptor for readability (a selector error aborts). */
  method NewAccept(reactor: Reactor, listener: Listener, setNonblocking: Result<(), ErrorKind>,
                   answer: Result<(), ErrorKind>) returns (r: Exit<Accept>)
    modifies reactor
    ensures setNonblocking.Failure? ==>
              r == Panic(LISTENER_NONBLOCKING_FAILED) && reactor.selectorCalls == old(reactor.selectorCalls)
    ensures setNonblocking.Success? ==>
              reactor.selectorCalls == old(reactor.selectorCalls) + [SelectorCall.Register(listener.fd, FromRawFd(listener.fd), READABLE)]
              && (answer.Success? ==> r == Return(Accept(listener)))
              && (answer.Failure? ==> r == Panic(REGISTER_FAILED))
    ensures reactor.blockedFds == old(reactor.blockedFds)
  {
    if setNonblocking.Failure? {
      return Panic(LISTENER_NONBLOCKING_FAILED);
    }
    var registered := reactor.Register(listener.fd, READABLE, answer);
    if registered.Panic? {
      return Panic(registered.message);
    }
    return Return(Accept(listener));
  }

  /** `Accept::poll` with the polling task's waker: reports AcceptOutcome, and records the
      waker under the listener's token exactly when it reports Pending. */
  method PollAccept(reactor: Reactor, a: Accept, waker: Waker, attempt: Result<Accepted, ErrorKind>,
                    setNonblocking: Result<(), ErrorKind>) returns (p: Poll<Result<(Stream, SocketAddr), ErrorKind>>)
    modifies reactor
    ensures p == AcceptOutcome(attempt, setNonblocking)
    ensures p.Pending? ==> reactor.blockedFds == old(reactor.blockedFds)[FromRawFd(a.listener.fd) := waker]
    ensures p.Ready? ==> reactor.blockedFds == old(reactor.blockedFds)
    ensures reactor.selectorCalls == old(reactor.selectorCalls)
  {
    match attempt
    case Success(accepted) =>
      var stream := NewStream(accepted.fd, setNonblocking);
      if stream.Failure? {
        return Ready(Failure(stream.error));
      }
      return Ready(Success((stream.value, accepted.peer)));
    case Failure(e) =>
      if e == WouldBlock {
        reactor.Block(a.listener.fd, waker);
        return Pending;
      }
      return Ready(Failure(e));
  }

  /** Dropping an `Accept`: deregisters the listener, removing its waker entry (a
      selector error aborts). */
  method DropAccept(reactor: Reactor, a: Accept, answer: Result<(), ErrorKind>) returns (r: Exit<()>)
    modifies reactor
    ensures answer.Success? <==> r.Return?
    ensures reactor.blockedFds == old(reactor.blockedFds) - {FromRawFd(a.listener.fd)}
    ensures reactor.selectorCalls == old(reactor.selectorCalls) + [SelectorCall.Deregister(a.listener.fd)]
  {
    r := reactor.Deregister(a.listener.fd, answer);
  }

  /** `Read::new`: switches the stream to non-blocking mode (a failure aborts) and
      registers its descriptor for readability (a selector error aborts). */
  method NewRead(reactor: Reactor, stream: Stream, capacity: nat, setNonblocking: Result<(), ErrorKind>,
                 answer: Result<(), ErrorKind>) returns (r: Exit<Read>)
    modifies reactor
    ensures setNonblocking.Failure? ==>
              r == Panic(STREAM_NONBLOCKING_FAILED) && reactor.selectorCalls == old(reactor.selectorCalls)
    ensures setNonblocking.Success? ==>
              reactor.selectorCalls == old(reactor.selectorCalls) + [SelectorCall.Register(stream.fd, FromRawFd(stream.fd), READABLE)]
              && (answer.Success? ==> r == Return(Read(stream, capacity)))
              && (answer.Failure? ==> r == Panic(REGISTER_FAILED))
    ensures reactor.blockedFds == old(reactor.blockedFds)
  {
    if setNonblocking.Failure? {
      return Panic(STREAM_NONBLOCKING_FAILED);
    }
    var registered := reactor.Register(stream.fd, READABLE, answer);
    if registered.Panic? {
      return Panic(registered.message);
    }
    return Return(Read(stream, capacity));
  }

  /** `Read::poll` with the polling task's waker: one read attempt; reports ReadOutcome,
      and records the waker under the stream's token exactly when it reports Pending. */
  method PollRead(reactor: Reactor, rd: Read, waker: Waker, attempt: Result<nat, ErrorKind>)
      returns (p: Poll<Result<nat, ErrorKind>>)
    modifies reactor
    ensures p == ReadOutcome(attempt)
    ensures p.Pending? ==> reactor.blockedFds == old(reactor.blockedFds)[FromRawFd(rd.stream.fd) := waker]
    ensures p.Ready? ==> reactor.blockedFds == old(reactor.blockedFds)
    ensures reactor.selectorCalls == old(reactor.selectorCalls)
  {
    if attempt == Failure(WouldBlock) {
      reactor.Block(rd.stream.fd, waker);
      return Pending;
    }
    return Ready(attempt);
  }

  /** Dropping a `Read`: deregisters the stream, removing its waker entry (a selector
      error aborts). */
  method DropRead(reactor: Reactor, rd: Read, answer: Result<(), ErrorKind>) returns (r: Exit<()>)
    modifies reactor
    ensures answer.Success? <==> r.Return?
    ensures reactor.blockedFds == old(reactor.blockedFds) - {FromRawFd(rd.stream.fd)}
    ensures reactor.selectorCalls == old(reactor.selectorCalls) + [SelectorCall.Deregister(rd.stream.fd)]
  {
    r := reactor.Deregister(rd.stream.fd, answer);
  }

  /** The registry is keyed consistently: after an `Accept` poll would block, the next
      turn that reports an event for the token the listener was registered under wakes
      exactly the polling task. */
  method PendingAcceptWokenByItsEvent(reactor: Reactor, a: Accept, waker: Waker, e: Event)
      returns (woken: Result<seq<Waker>, ErrorKind>)
    requires e.udata == FromRawFd(a.listener.fd).ToPtr()
    modifies reactor
    ensures woken == Success([waker])
  {
    var p := PollAccept(reactor, a, waker, Failure(WouldBlock), Success(()));
    TokenPtrRoundTrip(FromRawFd(a.listener.fd));
    assert Registry.EventToken(e) == FromRawFd(a.listener.fd);
    assert [e][..0] == [];
    assert Registry.Woken(reactor.blockedFds, [e]) == [waker];
    woken := reactor.TryTurn(Success([e]));
  }

  /** Once a `Read` is dropped, no turn wakes anything because of events for its stream:
      the waker entry is gone. */
  method DroppedReadNeverWoken(reactor: Reactor, rd: Read, answer: Result<(), ErrorKind>, events: seq<Event>)
      returns (woken: Result<seq<Waker>, ErrorKind>)
    requires forall i :: 0 <= i < |events| ==> Registry.EventToken(events[i]) == FromRawFd(rd.stream.fd)
    modifies reactor
    ensures woken == Success([])
  {
    var dropped := DropRead(reactor, rd, answer);
    Registry.UnknownTokensIgnored(reactor.blockedFds, events);
    woken := reactor.TryTurn(Success(events));
  }
}
