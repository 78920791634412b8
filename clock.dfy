/** DateTime as a count of 100-nanosecond ticks since 0001-01-01. */
module Clock {

  const TicksPerDay: nat := 864_000_000_000

  /** DateTime.MinValue, which is also default(DateTime). */
  const MinValue: nat := 0

  /** The calendar day a DateTime falls on: comparing `Day` values is comparing
      the `.Date` parts. */
  function Day(t: nat): nat {
    t / TicksPerDay
  }
}
