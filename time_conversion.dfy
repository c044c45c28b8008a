/** Conversion between durations and absolute instants (scheduler.go).
    Instants are nanoseconds on a single time line: a time zone changes only
    how an instant is displayed, never which instant it is, so the zone the
    scheduler was configured with plays no part here. The wall clock is the
    parameter `now`. */
module TimeConversion {
  import opened Constants

  /** Bounds of Go's `time.Duration`, an int64 count of nanoseconds. */
  const MaxDuration: int := 0x7FFF_FFFF_FFFF_FFFF
  const MinDuration: int := -0x8000_0000_0000_0000

  type Duration = d: int | MinDuration <= d <= MaxDuration

  /** `subtractDateTime`: the duration from `now` until `dateTime`. An instant
      strictly before `now` is refused; an instant equal to `now` gives zero.
      `Time.Sub` saturates at the largest duration when the gap does not fit. */
  function SubtractDateTime(now: int, dateTime: int): (r: Result<Duration>)
    ensures r.Err? <==> dateTime < now
    ensures r.Err? ==> r.error == DateTimeLessThanNow
    ensures r.Ok? ==> 0 <= r.value <= dateTime - now
    ensures r.Ok? && dateTime - now <= MaxDuration ==> r.value == dateTime - now
    ensures r.Ok? && dateTime - now > MaxDuration ==> r.value == MaxDuration
  {
    if dateTime < now then Err(DateTimeLessThanNow)
    else if dateTime - now > MaxDuration then Ok(MaxDuration)
    else Ok(dateTime - now)
  }

  /** `fromDurationToDateTime`: the instant `duration` after `now`. It is not
      before `now` exactly when the duration is not negative, and it lies
      within a duration's range of `now`. */
  function FromDurationToDateTime(now: int, duration: Duration): (t: int)
    ensures now <= t <==> 0 <= duration
    ensures now + MinDuration <= t <= now + MaxDuration
  {
    now + duration
  }

  /** A non-negative duration turned into an instant and back is unchanged. */
  lemma DurationRoundTrip(now: int, duration: Duration)
    requires 0 <= duration
    ensures SubtractDateTime(now, FromDurationToDateTime(now, duration)) == Ok(duration)
  {
  }

  /** A negative duration names an instant in the past, which the dated
      operations refuse. */
  lemma NegativeDurationIsPast(now: int, duration: Duration)
    requires duration < 0
    ensures SubtractDateTime(now, FromDurationToDateTime(now, duration)) == Err(DateTimeLessThanNow)
  {
  }

  /** An instant not before `now` and within a duration's range turned into a
      duration and back is unchanged. */
  lemma DateTimeRoundTrip(now: int, dateTime: int)
    requires now <= dateTime <= now + MaxDuration
    ensures SubtractDateTime(now, dateTime).Ok?
    ensures FromDurationToDateTime(now, SubtractDateTime(now, dateTime).value) == dateTime
  {
  }
}
