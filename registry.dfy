/** The wake registry (`blocked_fds`) seen from one turn of the event loop: which wakers a
    batch of kernel events fires. */
module Registry {
  import opened CoreToken
  import opened Kqueue

  /** The token an event names: `Token::from_ptr(event.udata)`. */
  function EventToken(e: Event): (t: Token)
    ensures t.ToPtr() == e.udata
    ensures t.value == e.udata.addr
  {
    Token.FromPtr(e.udata)
  }

  /** The wakers a turn fires for `events`, in event order: for each event, the waker
      registered under the event's token, and nothing for an unknown token. The lookup is
      a `get`, so no entry is consumed and a token may fire several times. */
  function Woken<W>(blocked: map<Token, W>, events: seq<Event>): (woken: seq<W>)
    ensures |woken| <= |events|
  {
    if events == [] then []
    else
      var last := events[|events| - 1];
      Woken(blocked, events[..|events| - 1])
        + (if EventToken(last) in blocked then [blocked[EventToken(last)]] else [])
  }

  /** Firing is event by event: the wakers for two consecutive batches are the wakers for
      the first followed by those for the second. */
  lemma {:induction false} WokenAppend<W>(blocked: map<Token, W>, a: seq<Event>, b: seq<Event>)
    ensures Woken(blocked, a + b) == Woken(blocked, a) + Woken(blocked, b)
    decreases |b|
  {
    if b == [] {
      assert a + b == a;
    } else {
      var b' := b[..|b| - 1];
      assert (a + b)[..|a + b| - 1] == a + b';
      assert (a + b)[|a + b| - 1] == b[|b| - 1];
      WokenAppend(blocked, a, b');
    }
  }

  /** A waker fires iff some event names a token it is registered under. */
  lemma {:induction false} WokenMembership<W>(blocked: map<Token, W>, events: seq<Event>, w: W)
    ensures w in Woken(blocked, events) <==>
              exists i :: 0 <= i < |events| && EventToken(events[i]) in blocked
                                            && blocked[EventToken(events[i])] == w
    decreases |events|
  {
    if events != [] {
      var n := |events| - 1;
      var prefix := events[..n];
      WokenMembership(blocked, prefix, w);
      if w in Woken(blocked, prefix) {
        var i :| 0 <= i < |prefix| && EventToken(prefix[i]) in blocked && blocked[EventToken(prefix[i])] == w;
        assert events[i] == prefix[i];
      }
      if exists i :: 0 <= i < |events| && EventToken(events[i]) in blocked && blocked[EventToken(events[i])] == w {
        var i :| 0 <= i < |events| && EventToken(events[i]) in blocked && blocked[EventToken(events[i])] == w;
        if i < n {
          assert prefix[i] == events[i];
        }
      }
    }
  }

  /** Only registered wakers fire: every waker a turn fires is the value of some entry of
      the registry. */
  lemma {:induction false} WokenAreBlocked<W>(blocked: map<Token, W>, events: seq<Event>)
    ensures forall w :: w in Woken(blocked, events) ==> w in blocked.Values
    decreases |events|
  {
    if events != [] {
      WokenAreBlocked(blocked, events[..|events| - 1]);
    }
  }

  /** Events whose tokens are all unknown to the registry wake nothing. */
  lemma {:induction false} UnknownTokensIgnored<W>(blocked: map<Token, W>, events: seq<Event>)
    requires forall i :: 0 <= i < |events| ==> EventToken(events[i]) !in blocked
    ensures Woken(blocked, events) == []
    decreases |events|
  {
    if events != [] {
      UnknownTokensIgnored(blocked, events[..|events| - 1]);
    }
  }

  /** Once the entry for token `t` is removed (as `try_deregister` does), no later turn
      fires a waker because of an event naming `t`: every waker fired is one registered
      under another token that some event names. */
  lemma NoWakeAfterRemoval<W>(blocked: map<Token, W>, t: Token, events: seq<Event>, w: W)
    requires w in Woken(blocked - {t}, events)
    ensures exists i :: 0 <= i < |events| && EventToken(events[i]) != t
                        && EventToken(events[i]) in blocked && blocked[EventToken(events[i])] == w
  {
    WokenMembership(blocked - {t}, events, w);
  }
}
