/** `interest` (the earlier draft): only the two constants and the two bit tests. */
module DraftInterest {

  /** The bit for readable readiness. */
  const READABLE_BIT: bv8 := 0x01

  /** The bit for writable readiness. */
  const WRITABLE_BIT: bv8 := 0x02

  /** `NonZeroU8`. */
  type NonZeroU8 = b: bv8 | b != 0 witness 1

  /** `interest::Interest`. */
  datatype Interest = Interest(bits: NonZeroU8)

  /** `Interest::READABLE`. */
  const READABLE: Interest := Interest(READABLE_BIT)

  /** `Interest::WRITABLE`. */
  const WRITABLE: Interest := Interest(WRITABLE_BIT)

  /** `Interest::is_readable`: it holds of READABLE and not of WRITABLE. */
  function IsReadable(i: Interest): (r: bool)
    ensures i == READABLE ==> r
    ensures i == WRITABLE ==> !r
  {
    i.bits & READABLE_BIT != 0
  }

  /** `Interest::is_writable`: it holds of WRITABLE and not of READABLE. */
  function IsWritable(i: Interest): (r: bool)
    ensures i == WRITABLE ==> r
    ensures i == READABLE ==> !r
  {
    i.bits & WRITABLE_BIT != 0
  }

  /** The two tests look at disjoint bits, and both constants wrap a non-zero byte. */
  lemma DisjointBits()
    ensures READABLE_BIT & WRITABLE_BIT == 0
    ensures READABLE.bits != 0 && WRITABLE.bits != 0
  {
  }
}
