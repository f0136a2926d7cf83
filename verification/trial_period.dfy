/** The trial period: an install instant captured from an injected clock, an
    expiry a fixed number of calendar days later, and the expiry check. */
module Trial {
  import opened Calendar
  import opened TimeTravel

  class TrialPeriod {
    /** The length of every trial, in calendar days. */
    static const DefaultDuration: int := 7

    var dateInstalled: Instant
    /** The clock the trial asks for "now"; shared with the caller, never moved here. */
    var dateGenerator: TimeTraveler
    /** Recorded at construction but not consulted by `DateExpired`. */
    var durationInDays: int

    /** The first instant at which the trial counts as expired: `DefaultDuration`
        calendar days after installation. It is recomputed from `dateInstalled`
        alone on every read, so it is always strictly later than installation. */
    function DateExpired(): (r: Instant)
      reads this`dateInstalled
      ensures r > dateInstalled
    {
      AddDays(dateInstalled, DefaultDuration)
    }

    /** Installs the trial "now": the install instant is what the clock reads
        at construction, and the duration field starts at the default. */
    constructor (dateGenerator: TimeTraveler)
      ensures this.dateGenerator == dateGenerator
      ensures dateInstalled == dateGenerator.date
      ensures durationInDays == DefaultDuration
    {
      var installed := dateGenerator.GenerateDate();
      dateInstalled := installed;
      this.dateGenerator := dateGenerator;
      durationInDays := DefaultDuration;
    }

    /** Whether the clock's current instant has reached the expiry instant;
        the expiry instant itself already counts as expired. Nothing changes. */
    method IsExpired() returns (expired: bool)
      ensures expired <==> dateGenerator.date >= DateExpired()
    {
      var currentDate := dateGenerator.GenerateDate();
      if currentDate >= DateExpired() {
        return true;
      }
      return false;
    }

    /** Assigns the public `durationInDays` field; the expiry instant does not move. */
    method SetDurationInDays(days: int)
      modifies this
      ensures durationInDays == days
      ensures dateInstalled == old(dateInstalled) && dateGenerator == old(dateGenerator)
      ensures DateExpired() == old(DateExpired())
    {
      durationInDays := days;
    }
  }

  /** Two trials installed at the same instant expire at the same instant,
      whatever their `durationInDays` fields hold. */
  lemma ExpiryIgnoresDuration(p: TrialPeriod, q: TrialPeriod)
    requires p.dateInstalled == q.dateInstalled
    ensures p.DateExpired() == q.DateExpired()
  {
  }

  /** A clock still at the install instant finds the trial active. */
  lemma ActiveAtInstall(trial: TrialPeriod)
    requires trial.dateGenerator.date == trial.dateInstalled
    ensures trial.dateGenerator.date < trial.DateExpired()
  {
  }

  /** Travelling `days` calendar days from the install instant reaches expiry
      exactly when `days` is at least the default duration. */
  lemma ExpiredAfterDaysIff(trial: TrialPeriod, days: int)
    ensures AddDays(trial.dateInstalled, days) >= trial.DateExpired() <==> days >= TrialPeriod.DefaultDuration
  {
    if days > TrialPeriod.DefaultDuration {
      AddDaysStrictlyIncreasing(trial.dateInstalled, TrialPeriod.DefaultDuration, days);
    } else if days < TrialPeriod.DefaultDuration {
      AddDaysStrictlyIncreasing(trial.dateInstalled, days, TrialPeriod.DefaultDuration);
    }
  }

  /** Travelling `seconds` from the install instant reaches expiry exactly when
      `seconds` covers the default duration's days of `SecondsPerDay` each. */
  lemma ExpiredAfterSecondsIff(trial: TrialPeriod, seconds: int)
    ensures AddSeconds(trial.dateInstalled, seconds) >= trial.DateExpired()
        <==> seconds >= TrialPeriod.DefaultDuration * SecondsPerDay
  {
  }

  /** Once expired, a trial stays expired through any journey of forward travels. */
  lemma ExpiredStaysExpired(trial: TrialPeriod, now: Instant, trip: seq<Travel>)
    requires now >= trial.DateExpired()
    requires forall i :: 0 <= i < |trip| ==> Forward(trip[i])
    ensures Journey(now, trip) >= trial.DateExpired()
  {
    ForwardJourneyNeverEarlier(now, trip);
  }

  /** On the trial's own clock: after any forward travel by seconds and then by
      days, an expired trial is still expired, and the trial itself is untouched. */
  method TravelForwardStaysExpired(trial: TrialPeriod, seconds: int, days: int) returns (expired: bool)
    requires trial.dateGenerator.date >= trial.DateExpired()
    requires seconds >= 0 && days >= 0
    modifies trial.dateGenerator
    ensures expired
    ensures trial.DateExpired() == old(trial.DateExpired())
  {
    trial.dateGenerator.TimeTravelBySeconds(seconds);
    trial.dateGenerator.TimeTravelByDays(days);
    expired := trial.IsExpired();
  }

  /** Installing over a fresh clock and asking straight away: active. */
  method FreshTrialIsActive(start: Instant) returns (expired: bool)
    ensures !expired
  {
    var clock := new TimeTraveler(start);
    var trial := new TrialPeriod(clock);
    expired := trial.IsExpired();
  }

  /** Travelling exactly the default duration in days from installation reaches
      the boundary, which counts as expired. */
  method ExpiresAfterDefaultDuration(start: Instant) returns (before: bool, after: bool)
    ensures !before && after
  {
    var clock := new TimeTraveler(start);
    var trial := new TrialPeriod(clock);
    before := trial.IsExpired();
    clock.TimeTravelByDays(TrialPeriod.DefaultDuration);
    after := trial.IsExpired();
  }

  /** Travelling six days and twenty-three hours from installation stops one
      hour short of expiry: still active. */
  method ActiveAnHourBeforeExpiry(start: Instant) returns (expired: bool)
    ensures !expired
  {
    var clock := new TimeTraveler(start);
    var trial := new TrialPeriod(clock);
    clock.TimeTravelByDays(6);
    clock.TimeTravelBySeconds(23 * 60 * 60);
    expired := trial.IsExpired();
  }
}
