/** `core::task`: task identifiers of the live runtime, and the waker a task is polled with. */
module CoreTask {
  import opened Sys

  /** `core::task::Id`, a task identifier wrapping a `usize` (unbounded here). The derived
      ordering is the numeric order of the wrapped value. */
  datatype Id = Id(value: nat) {

    /** The derived `PartialOrd`/`Ord`: ids compare by their wrapped number. A smaller
        id is a different id. */
    function Less(other: Id): (r: bool)
      ensures r ==> this != other
    {
      value < other.value
    }

    /** `Id::default()`: the least id of all. */
    static function Default(): (first: Id)
      ensures forall other: Id :: !other.Less(first)
    {
      Id(0)
    }

    /** `Id::increment`: the pair (copy of the current id, the id stored back). The copy
        handed out is the old value, and the stored id is strictly greater, by exactly one. */
    function Increment(): (r: (Id, Id))
      ensures r.0 == this
      ensures r.0.Less(r.1)
      ensures forall other: Id :: other.Less(r.1) <==> other.Less(this) || other == this
    {
      (this, Id(value + 1))
    }

    /** `Id::to_ptr`: the id as the data pointer of a waker. */
    function ToPtr(): (p: Ptr)
      ensures p.addr == value
    {
      Ptr(value)
    }

    /** `Id::from_ptr`: recovers an id from a waker's data pointer; converting back gives
        the same pointer. */
    static function FromPtr(p: Ptr): (id: Id)
      ensures id.ToPtr() == p
    {
      Id(p.addr)
    }
  }

  /** The derived order is a strict total order: irreflexive, transitive, and any two
      distinct ids are comparable. */
  lemma LessIsStrictTotalOrder(a: Id, b: Id, c: Id)
    ensures !a.Less(a)
    ensures a.Less(b) && b.Less(c) ==> a.Less(c)
    ensures a.Less(b) || a == b || b.Less(a)
  {
  }

  /** In the live runtime a waker carries nothing but the id of the task it wakes: it is
      built from `id.to_ptr()` and waking it schedules `Id::from_ptr` of that pointer,
      which is `id` again (IdPtrRoundTrip). */
  type Waker = Id

  /** Converting an id to a pointer and back gives the id. */
  lemma IdPtrRoundTrip(id: Id)
    ensures Id.FromPtr(id.ToPtr()) == id
  {
  }

  /** The ids handed out by `n` successive `increment` calls on a counter, and the counter
      value they leave behind. */
  function Issue(counter: Id, n: nat): (r: (seq<Id>, Id))
    ensures |r.0| == n
    ensures r.1.value == counter.value + n
    decreases n
  {
    if n == 0 then ([], counter)
    else
      var step := counter.Increment();
      var rest := Issue(step.1, n - 1);
      ([step.0] + rest.0, rest.1)
  }

  /** Successive `increment` results are strictly increasing, so pairwise distinct, all at
      least the starting counter and all below the counter they leave behind. */
  lemma {:induction false} IssueIncreasing(counter: Id, n: nat)
    ensures Issue(counter, n).1.value == counter.value + n
    ensures forall i, j :: 0 <= i < j < n ==> Issue(counter, n).0[i].Less(Issue(counter, n).0[j])
    ensures forall i :: 0 <= i < n ==>
              counter.value <= Issue(counter, n).0[i].value && Issue(counter, n).0[i].Less(Issue(counter, n).1)
    decreases n
  {
    if n > 0 {
      var step := counter.Increment();
      IssueIncreasing(step.1, n - 1);
      var ids := Issue(counter, n).0;
      assert ids == [counter] + Issue(step.1, n - 1).0;
      forall i, j | 0 <= i < j < n
        ensures ids[i].Less(ids[j])
      {
        if i > 0 {
          assert ids[i] == Issue(step.1, n - 1).0[i - 1];
        }
        assert ids[j] == Issue(step.1, n - 1).0[j - 1];
      }
    }
  }
}
