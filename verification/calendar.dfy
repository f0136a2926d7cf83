/** Instants and the two kinds of date arithmetic the trial code uses:
    moving an instant by seconds (`Date.addingTimeInterval`) and by calendar
    days (`Calendar.current.date(byAdding: .day, ...)`). */
module Calendar {

  /** A point in time: whole seconds since a fixed epoch. */
  type Instant = int

  /** The length of one calendar day in this model (no daylight-saving days). */
  const SecondsPerDay: int := 86400

  /** `t` moved by `seconds` (negative moves it back). The sign of the offset
      decides the direction, and a zero offset is the identity. */
  function AddSeconds(t: Instant, seconds: int): (r: Instant)
    ensures seconds == 0 ==> r == t
    ensures seconds > 0 ==> r > t
    ensures seconds < 0 ==> r < t
  {
    t + seconds
  }

  /** `t` moved by `days` calendar days. Total (the force-unwrap never fails),
      the identity on zero days, and moving in the direction of the sign of
      `days`, by at least one second per day. */
  function AddDays(t: Instant, days: int): (r: Instant)
    ensures days == 0 ==> r == t
    ensures days > 0 ==> r >= t + days
    ensures days < 0 ==> r <= t + days
  {
    t + SecondsPerDay * days
  }

  /** Adding more days gives a strictly later instant. */
  lemma AddDaysStrictlyIncreasing(t: Instant, m: int, n: int)
    requires m < n
    ensures AddDays(t, m) < AddDays(t, n)
  {
  }

  /** Adding the same number of days preserves the order of instants. */
  lemma AddDaysMonotone(s: Instant, t: Instant, n: int)
    requires s <= t
    ensures AddDays(s, n) <= AddDays(t, n)
  {
  }

  /** Adding days twice is adding their sum once. This is a property of this
      model's fixed-length day, not of a real calendar, where day addition
      need not compose across daylight-saving changes. */
  lemma AddDaysAdditive(t: Instant, m: int, n: int)
    ensures AddDays(AddDays(t, m), n) == AddDays(t, m + n)
  {
  }
}
