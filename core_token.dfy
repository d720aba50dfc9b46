/** `core::token`: the token carried in a kevent's `udata` to name the event's source. */
module CoreToken {
  import opened Sys
  import CoreTask

  /** `core::token::Token`, wrapping a `usize` (unbounded here). */
  datatype Token = Token(value: nat) {

    /** `Token::default()`: token 0, the least token. */
    static function Default(): (first: Token)
      ensures forall other: Token :: first.value <= other.value
    {
      Token(0)
    }

    /** `Token::increment`: the pair (copy of the current token, the token stored back);
        the copy is the old token and the stored one is exactly one greater. */
    function Increment(): (r: (Token, Token))
      ensures r.0 == this
      ensures r.1.value == value + 1
    {
      (this, Token(value + 1))
    }

    /** `Token::to_ptr`: the token as a kevent `udata` pointer. */
    function ToPtr(): (p: Ptr)
      ensures p.addr == value
    {
      Ptr(value)
    }

    /** `Token::from_ptr`: the token named by a kevent `udata` pointer; converting back
        gives the same pointer. */
    static function FromPtr(p: Ptr): (t: Token)
      ensures t.ToPtr() == p
    {
      Token(p.addr)
    }

    /** `From<TaskId> for Token`: through the id's pointer, keeping the wrapped number. */
    static function FromTaskId(id: CoreTask.Id): (t: Token)
      ensures t.value == id.value
    {
      FromPtr(id.ToPtr())
    }

    /** `From<Token> for Id` (declared in core/task.rs; placed here because the two modules
        would otherwise import each other): through the token's pointer, keeping the
        wrapped number. */
    function ToTaskId(): (id: CoreTask.Id)
      ensures id.value == value
    {
      CoreTask.Id.FromPtr(ToPtr())
    }
  }

  /** The token under which a descriptor is registered and blocked: the source writes
      `fd.as_raw_fd().into()`; the conversion keeps the descriptor number. */
  function FromRawFd(fd: RawFd): (t: Token)
    ensures t.value == fd
  {
    Token(fd)
  }

  /** Converting a token to a pointer and back gives the token. */
  lemma TokenPtrRoundTrip(t: Token)
    ensures Token.FromPtr(t.ToPtr()) == t
  {
  }

  /** Token -> Id -> Token is the identity, and so is Id -> Token -> Id. */
  lemma TokenIdRoundTrip(t: Token, id: CoreTask.Id)
    ensures Token.FromTaskId(t.ToTaskId()) == t
    ensures Token.FromTaskId(id).ToTaskId() == id
  {
  }

  /** Distinct descriptors get distinct tokens, so the wake registry is keyed
      consistently by descriptor. */
  lemma FromRawFdInjective(a: RawFd, b: RawFd)
    ensures FromRawFd(a) == FromRawFd(b) <==> a == b
  {
  }
}
