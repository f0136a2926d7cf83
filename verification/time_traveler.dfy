/** The test clock: a stored instant that tests move forward or back by hand,
    and the journeys (sequences of such moves) a test makes with it. */
module TimeTravel {
  import opened Calendar

  /** One call of a `timeTravelBy` overload. */
  datatype Travel = BySeconds(seconds: int) | ByDays(days: int)

  /** A travel that does not go back in time. */
  predicate Forward(j: Travel) {
    match j
    case BySeconds(s) => s >= 0
    case ByDays(n) => n >= 0
  }

  /** Where a single travel `j` takes the clock from `t`. */
  function Step(t: Instant, j: Travel): (r: Instant)
    ensures Forward(j) ==> r >= t
    ensures (j == BySeconds(0) || j == ByDays(0)) ==> r == t
  {
    match j
    case BySeconds(s) => AddSeconds(t, s)
    case ByDays(n) => AddDays(t, n)
  }

  /** Where the travels of `trip`, made one after another, take the clock from
      `t`. It exists only for reasoning about successive `timeTravelBy` calls;
      no operation of the clock computes it. */
  function Journey(t: Instant, trip: seq<Travel>): Instant
    decreases |trip|
  {
    if trip == [] then t else Journey(Step(t, trip[0]), trip[1..])
  }

  /** A journey made only of forward travels never ends earlier than it started. */
  lemma {:induction false} ForwardJourneyNeverEarlier(t: Instant, trip: seq<Travel>)
    requires forall i :: 0 <= i < |trip| ==> Forward(trip[i])
    ensures Journey(t, trip) >= t
    decreases |trip|
  {
    if trip != [] {
      ForwardJourneyNeverEarlier(Step(t, trip[0]), trip[1..]);
    }
  }

  /** Making one journey and then another is making their concatenation: a
      property of the `Journey` abstraction, which lets a test's travels be
      split at any point. */
  lemma {:induction false} JourneyAppend(t: Instant, a: seq<Travel>, b: seq<Travel>)
    ensures Journey(t, a + b) == Journey(Journey(t, a), b)
    decreases |a|
  {
    if a == [] {
      assert a + b == b;
    } else {
      assert (a + b)[1..] == a[1..] + b;
      JourneyAppend(Step(t, a[0]), a[1..], b);
    }
  }

  /** A journey made only of zero-length travels leaves the clock where it was. */
  lemma {:induction false} StandStillJourney(t: Instant, trip: seq<Travel>)
    requires forall i :: 0 <= i < |trip| ==> trip[i] == BySeconds(0) || trip[i] == ByDays(0)
    ensures Journey(t, trip) == t
    decreases |trip|
  {
    if trip != [] {
      StandStillJourney(Step(t, trip[0]), trip[1..]);
    }
  }

  /** A mutable clock. `date` is the instant every `GenerateDate` returns until
      the next `TimeTravelBy...` call moves it. */
  class TimeTraveler {
    var date: Instant

    constructor (date: Instant)
      ensures this.date == date
    {
      this.date := date;
    }

    /** The clock's current instant; reading it changes nothing. */
    method GenerateDate() returns (d: Instant)
      ensures d == date
    {
      d := date;
    }

    /** Moves the clock by `seconds`. */
    method TimeTravelBySeconds(seconds: int)
      modifies this
      ensures date == AddSeconds(old(date), seconds)
      ensures date == Step(old(date), BySeconds(seconds))
      ensures seconds >= 0 ==> date >= old(date)
      ensures seconds == 0 ==> date == old(date)
    {
      date := AddSeconds(date, seconds);
    }

    /** Moves the clock by `days` calendar days. */
    method TimeTravelByDays(days: int)
      modifies this
      ensures date == AddDays(old(date), days)
      ensures date == Step(old(date), ByDays(days))
      ensures days >= 0 ==> date >= old(date)
      ensures days == 0 ==> date == old(date)
    {
      date := AddDays(date, days);
    }
  }
}
