/**
 * A stand-in for Ceph's `utime_t`: a point in time as whole seconds plus
 * nanoseconds, with the seconds held in 32 bits and the nanoseconds kept
 * normalised below one second. `utime_t` itself is not part of this model;
 * the shape below (field widths, lexicographic order, the value of `max()`)
 * is the one this model assumes for it.
 */
module Time {

  const MAX_SEC: nat := 0xFFFF_FFFF
  const NSEC_PER_SEC: nat := 1_000_000_000

  type Sec = s: nat | s <= MAX_SEC
  type NSec = n: nat | n < NSEC_PER_SEC

  datatype UTime = UTime(sec: Sec, nsec: NSec)

  /** The result of a C++ three-way comparison that yields `std::partial_ordering`. */
  datatype PartialOrdering = Less | Equivalent | Greater | Unordered

  /** `utime_t::max()`: the latest representable time. */
  const MAX: UTime := UTime(MAX_SEC, NSEC_PER_SEC - 1)

  /**
   * `a <=> b` on `utime_t`: seconds first, then nanoseconds. It agrees with
   * the order of the nanosecond counts, answers equivalent only on equal
   * times, and is never unordered.
   */
  function Compare(a: UTime, b: UTime): (o: PartialOrdering)
    ensures o == Less <==> Nanos(a) < Nanos(b)
    ensures o == Greater <==> Nanos(a) > Nanos(b)
    ensures o == Equivalent <==> a == b
    ensures o != Unordered
  {
    if a.sec < b.sec then Less
    else if a.sec > b.sec then Greater
    else if a.nsec < b.nsec then Less
    else if a.nsec > b.nsec then Greater
    else Equivalent
  }

  /** An independent reading of a time: the number of nanoseconds since the epoch. */
  function Nanos(t: UTime): nat
  {
    t.sec * NSEC_PER_SEC + t.nsec
  }

  /** No time compares after `max()`. */
  lemma MaxIsGreatest(t: UTime)
    ensures Compare(t, MAX) != Greater
    ensures Nanos(t) <= Nanos(MAX)
  {
  }
}
