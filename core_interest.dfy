/** `core::interest`: the set of readiness kinds a descriptor is registered for. */
module CoreInterest {

  /** The bit for readable readiness. */
  const READABLE_BIT: bv8 := 0x01

  /** The bit for writable readiness. */
  const WRITABLE_BIT: bv8 := 0x02

  /** `NonZeroU8`: an interest is never empty. */
  type NonZeroU8 = b: bv8 | b != 0 witness 1

  /** `core::interest::Interest`, a non-empty bit set over READABLE and WRITABLE. */
  datatype Interest = Interest(bits: NonZeroU8) {

    /** `Interest::is_readable`: it holds of READABLE and not of WRITABLE. */
    function IsReadable(): (r: bool)
      ensures bits == READABLE_BIT ==> r
      ensures bits == WRITABLE_BIT ==> !r
    {
      bits & READABLE_BIT != 0
    }

    /** `Interest::is_writable`: it holds of WRITABLE and not of READABLE. */
    function IsWritable(): (r: bool)
      ensures bits == WRITABLE_BIT ==> r
      ensures bits == READABLE_BIT ==> !r
    {
      bits & WRITABLE_BIT != 0
    }

    /** `Interest::add`: the union of two interests. It stays non-empty, it contains both
        operands, and it is readable (writable) iff one of the operands is. */
    function Add(other: Interest): (r: Interest)
      ensures r.bits & bits == bits && r.bits & other.bits == other.bits
      ensures r.IsReadable() <==> IsReadable() || other.IsReadable()
      ensures r.IsWritable() <==> IsWritable() || other.IsWritable()
    {
      Interest(bits | other.bits)
    }

    /** `BitOr::bitor`, which delegates to `add`: the same union. */
    function BitOr(other: Interest): (r: Interest)
      ensures r.bits == bits | other.bits
      ensures r.IsReadable() <==> IsReadable() || other.IsReadable()
      ensures r.IsWritable() <==> IsWritable() || other.IsWritable()
    {
      Add(other)
    }
  }

  /** `Interest::READABLE`. */
  const READABLE: Interest := Interest(READABLE_BIT)

  /** `Interest::WRITABLE`. */
  const WRITABLE: Interest := Interest(WRITABLE_BIT)

  /** `BitOrAssign::bitor_assign`: `self |= other` overwrites `self` with `self | other`;
      the new value is returned. */
  method BitOrAssign(self: Interest, other: Interest) returns (updated: Interest)
    ensures updated == self.BitOr(other)
    ensures updated.IsReadable() <==> self.IsReadable() || other.IsReadable()
    ensures updated.IsWritable() <==> self.IsWritable() || other.IsWritable()
  {
    updated := self.BitOr(other);
  }

  /** READABLE is 1 and only readable; WRITABLE is 2 and only writable. */
  lemma ConstantsSeparate()
    ensures READABLE.bits == 1 && READABLE.IsReadable() && !READABLE.IsWritable()
    ensures WRITABLE.bits == 2 && WRITABLE.IsWritable() && !WRITABLE.IsReadable()
  {
  }

  /** `add` is commutative, associative and idempotent, and `bitor` is `add`. */
  lemma AddIsSetUnion(a: Interest, b: Interest, c: Interest)
    ensures a.Add(b) == b.Add(a)
    ensures a.Add(b).Add(c) == a.Add(b.Add(c))
    ensures a.Add(a) == a
    ensures a.BitOr(b) == a.Add(b)
  {
  }

  /** An interest expression built from the two constants with `|` (or `add`). */
  datatype InterestExpr = Readable | Writable | Union(left: InterestExpr, right: InterestExpr)

  /** The interest an expression denotes. */
  function Eval(e: InterestExpr): Interest {
    match e
    case Readable => READABLE
    case Writable => WRITABLE
    case Union(l, r) => Eval(l).Add(Eval(r))
  }

  /** Every interest built from the constants is one of 1 (READABLE), 2 (WRITABLE) or 3
      (both): no other bit is ever set. */
  lemma {:induction false} EvalIsKnownSet(e: InterestExpr)
    ensures Eval(e).bits == 1 || Eval(e).bits == 2 || Eval(e).bits == 3
  {
    match e
    case Readable =>
    case Writable =>
    case Union(l, r) =>
      EvalIsKnownSet(l);
      EvalIsKnownSet(r);
  }
}
