/** `core::reactor`: the I/O half of the runtime, kept in a process-wide singleton. The
    singleton and its mutex are not modelled; a `Reactor` object stands for the one
    instance. The `try_*` methods pass selector errors back; the static wrappers `turn`,
    `register` and `deregister` abort with a fixed message instead. */
module CoreReactor {
  import opened Wrappers
  import opened Sys
  import opened CoreTask
  import opened CoreToken
  import opened CoreInterest
  import opened Kqueue
  import Registry

  const TURN_FAILED: string := "should turn the event loop properly"
  const REGISTER_FAILED: string := "should register the given file descriptor properly"
  const DEREGISTER_FAILED: string := "should deregister the given file descriptor properly"

  /** `core::reactor::Reactor`. */
  class Reactor {
    /** The waker to fire for each blocked descriptor's token. */
    var blockedFds: map<Token, Waker>
    /** The registrations and deregistrations made on the selector, in order. */
    ghost var selectorCalls: seq<SelectorCall>

    /** `Reactor::default()`, the singleton's first state. */
    constructor ()
      ensures blockedFds == map[] && selectorCalls == []
    {
      blockedFds := map[];
      selectorCalls := [];
    }

    /** `try_turn`, given what `try_select` returned: a selector error is passed back and
        nothing is woken; otherwise the wakers fired are, in event order, exactly those
        registered under the reported tokens (unknown tokens fire nothing). The registry
        is only read. */
    method TryTurn(selected: Result<seq<Event>, ErrorKind>) returns (r: Result<seq<Waker>, ErrorKind>)
      ensures selected.Failure? ==> r == Failure(selected.error)
      ensures selected.Success? ==> r.Success? && r.value == Registry.Woken(blockedFds, selected.value)
      ensures r.Success? ==> forall w :: w in r.value ==> w in blockedFds.Values
    {
      if selected.Failure? {
        return Failure(selected.error);
      }
      var events := selected.value;
      var woken: seq<Waker> := [];
      for i := 0 to |events|
        invariant woken == Registry.Woken(blockedFds, events[..i])
      {
        assert events[..i + 1][..i] == events[..i];
        var token := Token.FromPtr(events[i].udata);
        if token in blockedFds {
          woken := woken + [blockedFds[token]];
        }
      }
      assert events[..|events|] == events;
      Registry.WokenAreBlocked(blockedFds, events);
      return Success(woken);
    }

    /** `try_register`: registers the descriptor with the selector under its own token and
        passes back the selector's answer; the registry is untouched. */
    method TryRegister(fd: RawFd, interest: Interest, answer: Result<(), ErrorKind>) returns (r: Result<(), ErrorKind>)
      modifies this
      ensures r == answer
      ensures selectorCalls == old(selectorCalls) + [SelectorCall.Register(fd, FromRawFd(fd), interest)]
      ensures blockedFds == old(blockedFds)
    {
      selectorCalls := selectorCalls + [SelectorCall.Register(fd, FromRawFd(fd), interest)];
      r := answer;
    }

    /** `try_deregister`: drops the descriptor's waker first, then deregisters it from the
        selector and passes back the selector's answer. */
    method TryDeregister(fd: RawFd, answer: Result<(), ErrorKind>) returns (r: Result<(), ErrorKind>)
      modifies this
      ensures r == answer
      ensures blockedFds == old(blockedFds) - {FromRawFd(fd)}
      ensures selectorCalls == old(selectorCalls) + [SelectorCall.Deregister(fd)]
    {
      blockedFds := blockedFds - {FromRawFd(fd)};
      selectorCalls := selectorCalls + [SelectorCall.Deregister(fd)];
      r := answer;
    }

    /** `do_block`: records `waker` as the one waker for the descriptor's token, replacing
        any earlier one. */
    method DoBlock(fd: RawFd, waker: Waker)
      modifies this
      ensures blockedFds == old(blockedFds)[FromRawFd(fd) := waker]
      ensures selectorCalls == old(selectorCalls)
    {
      blockedFds := blockedFds[FromRawFd(fd) := waker];
    }

    /** `Reactor::turn`: `try_turn`, aborting on a selector error. */
    method Turn(selected: Result<seq<Event>, ErrorKind>) returns (r: Exit<seq<Waker>>)
      ensures selected.Failure? ==> r == Panic(TURN_FAILED)
      ensures selected.Success? ==> r == Return(Registry.Woken(blockedFds, selected.value))
    {
      var t := TryTurn(selected);
      if t.Failure? {
        return Panic(TURN_FAILED);
      }
      return Return(t.value);
    }

    /** `Reactor::register`: `try_register`, aborting on a selector error. The call is
        made (and logged) either way. */
    method Register(fd: RawFd, interest: Interest, answer: Result<(), ErrorKind>) returns (r: Exit<()>)
      modifies this
      ensures answer.Failure? ==> r == Panic(REGISTER_FAILED)
      ensures answer.Success? ==> r == Return(())
      ensures selectorCalls == old(selectorCalls) + [SelectorCall.Register(fd, FromRawFd(fd), interest)]
      ensures blockedFds == old(blockedFds)
    {
      var t := TryRegister(fd, interest, answer);
      if t.Failure? {
        return Panic(REGISTER_FAILED);
      }
      return Return(());
    }

    /** `Reactor::deregister`: `try_deregister`, aborting on a selector error; the waker
        entry is gone either way. */
    method Deregister(fd: RawFd, answer: Result<(), ErrorKind>) returns (r: Exit<()>)
      modifies this
      ensures answer.Failure? ==> r == Panic(DEREGISTER_FAILED)
      ensures answer.Success? ==> r == Return(())
      ensures blockedFds == old(blockedFds) - {FromRawFd(fd)}
      ensures selectorCalls == old(selectorCalls) + [SelectorCall.Deregister(fd)]
    {
      var t := TryDeregister(fd, answer);
      if t.Failure? {
        return Panic(DEREGISTER_FAILED);
      }
      return Return(());
    }

    /** `Reactor::block`: `do_block`; the selector is never called. */
    method Block(fd: RawFd, waker: Waker)
      modifies this
      ensures blockedFds == old(blockedFds)[FromRawFd(fd) := waker]
      ensures selectorCalls == old(selectorCalls)
    {
      DoBlock(fd, waker);
    }
  }
}
