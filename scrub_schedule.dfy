/**
 * `Scrub::scrub_schedule_t`: the basic scheduling data of one scrub target,
 * the time the scrub was intended for (`scheduled_at`) and the earliest time
 * it may start (`not_before`). Targets are ranked by their intended time
 * alone, while equality looks at both times.
 */
module ScrubSchedule {
  import opened Time

  datatype Schedule = Schedule(notBefore: UTime, scheduledAt: UTime)

  /** A default-initialised schedule: both times at `utime_t::max()`. */
  function Default(): (s: Schedule)
    ensures s.notBefore == MAX && s.scheduledAt == MAX
  {
    Schedule(MAX, MAX)
  }

  /**
   * `operator<=>`: decided by the intended times alone, in the order of their
   * nanosecond counts; equivalent exactly on equal intended times, never
   * unordered.
   */
  function Compare(a: Schedule, b: Schedule): (o: PartialOrdering)
    ensures o == Less <==> Nanos(a.scheduledAt) < Nanos(b.scheduledAt)
    ensures o == Greater <==> Nanos(a.scheduledAt) > Nanos(b.scheduledAt)
    ensures o == Equivalent <==> a.scheduledAt == b.scheduledAt
    ensures o != Unordered
  {
    Time.Compare(a.scheduledAt, b.scheduledAt)
  }

  /** `operator==` (defaulted): both members compare equal. */
  function Equal(a: Schedule, b: Schedule): (r: bool)
    ensures r <==> a == b
  {
    a.notBefore == b.notBefore && a.scheduledAt == b.scheduledAt
  }

  // The relational operators C++ rewrites in terms of `operator<=>`; each is
  // decided by the nanosecond counts of the intended times alone.

  /** `a < b` */
  predicate Lt(a: Schedule, b: Schedule)
    ensures Lt(a, b) <==> Nanos(a.scheduledAt) < Nanos(b.scheduledAt)
  {
    Compare(a, b) == Less
  }

  /** `a <= b` */
  predicate Le(a: Schedule, b: Schedule)
    ensures Le(a, b) <==> Nanos(a.scheduledAt) <= Nanos(b.scheduledAt)
  {
    Compare(a, b) == Less || Compare(a, b) == Equivalent
  }

  /** `a > b` */
  predicate Gt(a: Schedule, b: Schedule)
    ensures Gt(a, b) <==> Nanos(a.scheduledAt) > Nanos(b.scheduledAt)
  {
    Compare(a, b) == Greater
  }

  /** `a >= b` */
  predicate Ge(a: Schedule, b: Schedule)
    ensures Ge(a, b) <==> Nanos(a.scheduledAt) >= Nanos(b.scheduledAt)
  {
    Compare(a, b) == Greater || Compare(a, b) == Equivalent
  }

  /** Replacing either `not_before` never changes how two schedules compare. */
  lemma CompareIgnoresNotBefore(a: Schedule, b: Schedule, nbA: UTime, nbB: UTime)
    ensures Compare(a.(notBefore := nbA), b.(notBefore := nbB)) == Compare(a, b)
  {
  }

  /** Equal schedules are equivalent. */
  lemma EqualImpliesEquivalent(a: Schedule, b: Schedule)
    requires Equal(a, b)
    ensures Compare(a, b) == Equivalent
  {
  }

  /**
   * Equivalence does not imply equality: schedules intended for the same
   * time but with different `not_before` are equivalent and not equal.
   */
  lemma EquivalentButNotEqual(a: Schedule, b: Schedule)
    requires a.scheduledAt == b.scheduledAt && a.notBefore != b.notBefore
    ensures Compare(a, b) == Equivalent && !Equal(a, b)
  {
  }

  /** Swapping the operands flips the comparison. */
  lemma CompareIsAntisymmetric(a: Schedule, b: Schedule)
    ensures Compare(a, b) == Less <==> Compare(b, a) == Greater
    ensures Lt(a, b) <==> Gt(b, a)
    ensures Le(a, b) <==> Ge(b, a)
  {
  }

  /** `<=` on schedules is a total preorder: reflexive, transitive and total. */
  lemma LeIsTotalPreorder(a: Schedule, b: Schedule, c: Schedule)
    ensures Le(a, a)
    ensures Le(a, b) && Le(b, c) ==> Le(a, c)
    ensures Le(a, b) || Le(b, a)
  {
  }

  /** `<` on schedules is a strict weak order: irreflexive and transitive. */
  lemma LtIsStrict(a: Schedule, b: Schedule, c: Schedule)
    ensures !Lt(a, a)
    ensures Lt(a, b) && Lt(b, c) ==> Lt(a, c)
  {
  }

  /** A default schedule ranks last: no schedule compares after it. */
  lemma DefaultRanksLast(s: Schedule)
    ensures Le(s, Default())
  {
  }
}
