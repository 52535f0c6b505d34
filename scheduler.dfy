/** The next-event selection rule of influxdl (`nextTime`): from the clock
    reading and the astronomical times of the current calendar date it
    chooses the one event the loop waits for next. */
module Scheduler {

  /** An instant on the wall clock, in nanoseconds since the Unix epoch. */
  type Instant = int

  const Second: int := 1_000_000_000
  const Hour: int := 3600 * Second
  /** `24 * time.Hour`, the step to the following calendar date. */
  const Day: int := 24 * Hour

  /** The two labels an event can carry. */
  const SunriseString: string := "sunrise"
  const SunsetString: string := "sunset"

  /** The calendar fields (`Year`, `Month`, `Day`) of an instant in local time. */
  datatype Date = Date(year: int, month: int, day: int)

  /** Latitude and longitude in degrees; the rule only passes them on. */
  datatype Location = Location(latitude: real, longitude: real)

  /** What the astronomical collaborator reports for one date. */
  datatype SunTimes = SunTimes(sunrise: Instant, sunset: Instant)

  /** The astronomical collaborator: sunrise and sunset for a location and date. */
  type Almanac = (Location, Date) -> SunTimes

  /** The local-time calendar date of an instant. */
  type Calendar = Instant -> Date

  /** An instant paired with its label. */
  datatype Event = Event(at: Instant, text: string)

  /** `a.After(b)`: strictly later. */
  predicate After(a: Instant, b: Instant) {
    a > b
  }

  /** The sunrise and sunset of the calendar date `now` falls on. */
  function Today(now: Instant, loc: Location, sun: Almanac, dateOf: Calendar): SunTimes {
    sun(loc, dateOf(now))
  }

  /** The next event after `now`: today's sunrise if still ahead, else today's
      sunset if still ahead, else the sunrise of the date one day later. */
  function NextTime(now: Instant, loc: Location, sun: Almanac, dateOf: Calendar): (r: Event)
    ensures r.text == SunriseString || r.text == SunsetString
    ensures r.text == SunsetString <==>
              !After(Today(now, loc, sun, dateOf).sunrise, now) && After(Today(now, loc, sun, dateOf).sunset, now)
    ensures r.text == SunsetString ==> r.at == Today(now, loc, sun, dateOf).sunset
    ensures (After(Today(now, loc, sun, dateOf).sunrise, now) || After(Today(now, loc, sun, dateOf).sunset, now))
              ==> After(r.at, now)
  {
    var today := sun(loc, dateOf(now));
    if After(today.sunrise, now) then
      Event(today.sunrise, SunriseString)
    else if After(today.sunset, now) then
      Event(today.sunset, SunsetString)
    else
      var later := now + Day;
      var tomorrow := sun(loc, dateOf(later));
      Event(tomorrow.sunrise, SunriseString)
  }

  /** Before today's sunrise the rule picks today's sunrise. */
  lemma SunriseAhead(now: Instant, loc: Location, sun: Almanac, dateOf: Calendar)
    requires After(Today(now, loc, sun, dateOf).sunrise, now)
    ensures NextTime(now, loc, sun, dateOf) == Event(Today(now, loc, sun, dateOf).sunrise, SunriseString)
  {
  }

  /** Once today's sunrise has passed but its sunset has not, the rule picks today's sunset. */
  lemma SunsetAhead(now: Instant, loc: Location, sun: Almanac, dateOf: Calendar)
    requires !After(Today(now, loc, sun, dateOf).sunrise, now)
    requires After(Today(now, loc, sun, dateOf).sunset, now)
    ensures NextTime(now, loc, sun, dateOf) == Event(Today(now, loc, sun, dateOf).sunset, SunsetString)
  {
  }

  /** When both of today's events have passed, the rule picks the sunrise of
      the date of `now + 24h`; the sunset of that date plays no part. */
  lemma BothPassed(now: Instant, loc: Location, sun: Almanac, dateOf: Calendar, sun': Almanac)
    requires !After(Today(now, loc, sun, dateOf).sunrise, now)
    requires !After(Today(now, loc, sun, dateOf).sunset, now)
    requires sun'(loc, dateOf(now)) == sun(loc, dateOf(now))
    requires sun'(loc, dateOf(now + Day)).sunrise == sun(loc, dateOf(now + Day)).sunrise
    ensures NextTime(now, loc, sun, dateOf) == Event(sun(loc, dateOf(now + Day)).sunrise, SunriseString)
    ensures NextTime(now, loc, sun', dateOf) == NextTime(now, loc, sun, dateOf)
  {
  }

  /** The third branch promises no future instant: a collaborator that
      reports the same times for every date makes the rule return a past one. */
  lemma NoFutureGuaranteeWhenBothPassed()
    ensures var sun: Almanac := (l: Location, d: Date) => SunTimes(0, 0);
            var dateOf: Calendar := (t: Instant) => Date(1970, 1, 1);
            !After(NextTime(Hour, Location(0.0, 0.0), sun, dateOf).at, Hour)
  {
  }

  /** The rule depends on the clock only through the calendar date and the
      comparisons: two readings on the same date that lie on the same side of
      today's sunrise and of today's sunset and both still have an event ahead
      yield the same event. */
  lemma SameWindowSameEvent(now: Instant, now': Instant, loc: Location, sun: Almanac, dateOf: Calendar)
    requires dateOf(now) == dateOf(now')
    requires After(Today(now, loc, sun, dateOf).sunrise, now) == After(Today(now, loc, sun, dateOf).sunrise, now')
    requires After(Today(now, loc, sun, dateOf).sunset, now) == After(Today(now, loc, sun, dateOf).sunset, now')
    requires After(Today(now, loc, sun, dateOf).sunrise, now) || After(Today(now, loc, sun, dateOf).sunset, now)
    ensures NextTime(now', loc, sun, dateOf) == NextTime(now, loc, sun, dateOf)
  {
  }

  /** An event taken from today's table is not chosen again later the same
      date: once the clock has reached it, the next event chosen from today's
      table lies strictly after it. */
  lemma ReachedEventNotReselected(now: Instant, now': Instant, loc: Location, sun: Almanac, dateOf: Calendar)
    requires After(Today(now, loc, sun, dateOf).sunrise, now) || After(Today(now, loc, sun, dateOf).sunset, now)
    requires dateOf(now') == dateOf(now)
    requires now' >= NextTime(now, loc, sun, dateOf).at
    requires After(Today(now', loc, sun, dateOf).sunrise, now') || After(Today(now', loc, sun, dateOf).sunset, now')
    ensures After(NextTime(now', loc, sun, dateOf).at, NextTime(now, loc, sun, dateOf).at)
    ensures NextTime(now', loc, sun, dateOf).text != NextTime(now, loc, sun, dateOf).text
  {
  }
}
