# Trial period with an injectable, time-travelling clock

A Dafny model of the trial-period check of TestingTimeTDD. A `TrialPeriod`
records its install instant by asking a date generator once, derives an
expiry instant seven calendar days later, and reports the trial as expired
when the generator's current instant has reached that expiry (the expiry
instant itself counts as expired). `TimeTraveler` (TimeTraveler.swift, in the
test target) is a clock meant to be injected as the generator: it holds one
instant that a test moves forward or back by seconds or by calendar days.

Files, one module each:

- `calendar.dfy` (`Calendar`): instants as whole seconds since an epoch,
  `AddSeconds` for `Date.addingTimeInterval` and `AddDays` for
  `Calendar.current.date(byAdding: .day, ...)!`, which is total here, with the
  properties the rest of the model relies on.
- `time_traveler.dfy` (`TimeTravel`): the `TimeTraveler` class, and
  `Travel`/`Step`/`Journey`, which describe a test's successive calls of the
  two `timeTravelBy` overloads, with lemmas about such journeys.
- `trial_period.dfy` (`Trial`): the `TrialPeriod` class, lemmas about expiry,
  and client methods that play the scenarios such a test would run over a
  trial and a traveler.

The Swift closure type `DateGenerator` is modelled as a reference to a
`TimeTraveler`; the trial reads its `date` each time it asks for "now".
The two overloads `timeTravelBy(seconds:)` and `timeTravelBy(days:)` become
`TimeTravelBySeconds` and `TimeTravelByDays`.

`dateExpired` (TrialPeriod.swift:20-24) adds the constant
`TrialPeriod.defaultDuration` and never reads `durationInDays`, which is set
at line 29 and otherwise unused. The model keeps that: `DateExpired` reads only `dateInstalled`. `SetDurationInDays`
and `ExpiryIgnoresDuration` state that the duration field has no effect.

## Model

| member | source | states |
|---|---|---|
| Calendar.AddSeconds | TestingTimeTDDTests/TimeTraveler.swift:24-26 | moving by zero seconds is the identity; a positive offset gives a later instant and a negative one an earlier instant |
| Calendar.AddDays | TestingTimeTDD/TrialPeriod.swift:21-23 | calendar-day addition is total; zero days is the identity; n > 0 days moves at least n seconds later and n < 0 days at least n seconds earlier |
| Calendar.AddDaysStrictlyIncreasing | TestingTimeTDDTests/TimeTraveler.swift:28-30 | adding more days gives a strictly later instant |
| Calendar.AddDaysMonotone | TestingTimeTDDTests/TimeTraveler.swift:28-30 | adding the same number of days keeps two instants in order |
| Calendar.AddDaysAdditive | TestingTimeTDDTests/TimeTraveler.swift:28-30 | travelling m days and then n days is travelling m + n days |
| TimeTravel.Step | TestingTimeTDDTests/TimeTraveler.swift:24-30 | one forward travel never moves the clock earlier; a travel by 0 seconds or 0 days leaves it where it was |
| TimeTravel.ForwardJourneyNeverEarlier | TestingTimeTDDTests/TimeTraveler.swift:24-30 | any sequence of non-negative travels ends no earlier than it started |
| TimeTravel.JourneyAppend | TestingTimeTDDTests/TimeTraveler.swift:24-30 | travelling one sequence and then another is travelling their concatenation |
| TimeTravel.StandStillJourney | TestingTimeTDDTests/TimeTraveler.swift:24-30 | any sequence of zero-length travels leaves the clock unchanged |
| TimeTravel.TimeTraveler.constructor | TestingTimeTDDTests/TimeTraveler.swift:16-18 | the new clock holds exactly the given instant |
| TimeTravel.TimeTraveler.GenerateDate | TestingTimeTDDTests/TimeTraveler.swift:20-22 | returns the stored instant; changes nothing (no modifies clause) |
| TimeTravel.TimeTraveler.TimeTravelBySeconds | TestingTimeTDDTests/TimeTraveler.swift:24-26 | the new date is the old date plus the seconds, and only `date` changes; non-negative seconds never move it earlier; zero seconds leave it unchanged |
| TimeTravel.TimeTraveler.TimeTravelByDays | TestingTimeTDDTests/TimeTraveler.swift:28-30 | the new date is the old date plus the calendar days, and only `date` changes; non-negative days never move it earlier; zero days leave it unchanged |
| Trial.TrialPeriod.DateExpired | TestingTimeTDD/TrialPeriod.swift:14-24 | the expiry instant is a function of `dateInstalled` alone (it reads no other field) and strictly later than installation |
| Trial.TrialPeriod.constructor | TestingTimeTDD/TrialPeriod.swift:26-30 | the install instant is what the generator read during construction, the generator is stored unchanged, and `durationInDays` is the default 7 |
| Trial.TrialPeriod.IsExpired | TestingTimeTDD/TrialPeriod.swift:32-38 | true exactly when the generator's current instant is at or after the expiry instant, false exactly when it is before; no field of the trial or the clock changes |
| Trial.TrialPeriod.SetDurationInDays | TestingTimeTDD/TrialPeriod.swift:18-24 | assigning `durationInDays` changes that field only and leaves the expiry instant where it was |
| Trial.ExpiryIgnoresDuration | TestingTimeTDD/TrialPeriod.swift:18-24 | two trials installed at the same instant expire at the same instant whatever their `durationInDays` |
| Trial.ActiveAtInstall | TestingTimeTDD/TrialPeriod.swift:27-34 | a generator still at the install instant finds the trial active |
| Trial.ExpiredAfterDaysIff | TestingTimeTDD/TrialPeriod.swift:21-34 | travelling n calendar days from installation reaches expiry if and only if n >= 7 |
| Trial.ExpiredAfterSecondsIff | TestingTimeTDD/TrialPeriod.swift:21-34 | travelling s seconds from installation reaches expiry if and only if s covers 7 days of 86400 seconds |
| Trial.ExpiredStaysExpired | TestingTimeTDD/TrialPeriod.swift:33-34 | once the current instant has reached expiry, every sequence of non-negative travels keeps it there |
| Trial.TravelForwardStaysExpired | TestingTimeTDDTests/TimeTraveler.swift:24-30 | on the trial's own clock, an expired trial is still expired after non-negative travels by seconds and days, and its expiry does not move |
| Trial.FreshTrialIsActive | TestingTimeTDD/TrialPeriod.swift:26-38 | a trial installed over a fresh clock and queried at once is not expired |
| Trial.ExpiresAfterDefaultDuration | TestingTimeTDD/TrialPeriod.swift:20-38 | a trial is active at installation and expired after the clock travels exactly 7 days: the boundary is inclusive |
| Trial.ActiveAnHourBeforeExpiry | TestingTimeTDD/TrialPeriod.swift:20-38 | after travelling 6 days and 23 hours the trial is still active |

## Left out

- The production default generator `Date.init` and the default `Date()` of `TimeTraveler.init` read the system clock, which is non-deterministic I/O; the model has only the injected `TimeTraveler`, so every constructor takes its clock or instant explicitly.
- Any other closure as a date generator: the model's generator is always a `TimeTraveler`.
- Calendar.AddDays: a calendar day is a fixed 86400 seconds; the time zones and daylight-saving days of 23 or 25 hours of `Calendar.current` are not modelled, and the force-unwrap `!` is taken never to fail.
- Calendar.AddSeconds: `TimeInterval` is a floating-point number of seconds in the source; the model uses whole seconds, so no rounding of `addingTimeInterval` is modelled.
- The 64-bit width of Swift's `Int` for day counts is not modelled; integers are unbounded.
- ViewController.swift (the alert dialogs, date formatting and `print` calls) is user-interface code over UIKit and is not part of this model.
- TrialPeriodTests.swift holds only an arithmetic placeholder test and is not part of this model.
