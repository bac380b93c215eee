/** Time arithmetic of the SunrisetWorker constructor (src/SunrisetWorker.cpp):
    wrapping a shifted time into one day, the current time of day, and the
    light/dark decision. Times are hours as exact reals. */
module SunTimes {
  import opened Wrappers

  /** Whole days to add to `t` to bring it into [0, 24). */
  function DayShift(t: real): int
  {
    -((t / 24.0).Floor)
  }

  /** Specification of `normalizeTime`: `t` moved by whole days into [0, 24). */
  function Normalized(t: real): (r: real)
    ensures 0.0 <= r < 24.0
  {
    t + 24.0 * DayShift(t) as real
  }

  /** Only one point of a class of times a whole number of days apart lies in
      [0, 24), so any such point is the normalised value. */
  lemma NormalizedUnique(t: real, k: int)
    requires 0.0 <= t + 24.0 * k as real < 24.0
    ensures Normalized(t) == t + 24.0 * k as real
  {
    var r := t + 24.0 * k as real;
    assert (t / 24.0) == r / 24.0 - k as real;
    assert (r / 24.0).Floor == 0;
    assert (t / 24.0).Floor == -k;
  }

  lemma NormalizedIdentity(t: real)
    requires 0.0 <= t < 24.0
    ensures Normalized(t) == t
  {
    NormalizedUnique(t, 0);
  }

  /** Moving the input by whole days does not move the result. */
  lemma NormalizedShift(t: real, k: int)
    ensures Normalized(t + 24.0 * k as real) == Normalized(t)
  {
    var r := Normalized(t);
    NormalizedUnique(t + 24.0 * k as real, DayShift(t) - k);
  }

  /** The `normalizeTime` lambda: add 24 while negative, then subtract 24 while
      24 or more. */
  method NormalizeTime(t0: real) returns (t: real)
    ensures 0.0 <= t < 24.0
    ensures t == Normalized(t0)
  {
    t := t0;
    while t < 0.0
      invariant Normalized(t) == Normalized(t0)
      invariant t0 < 0.0 ==> t < 24.0
      invariant t0 >= 0.0 ==> t == t0
      decreases if t < 0.0 then (-t).Floor + 1 else 0
    {
      NormalizedShift(t, 1);
      t := t + 24.0;
    }
    while t >= 24.0
      invariant 0.0 <= t
      invariant Normalized(t) == Normalized(t0)
      decreases t.Floor
    {
      NormalizedShift(t, -1);
      t := t - 24.0;
    }
    NormalizedIdentity(t);
  }

  /** The time of day in hours, `tm_hour + tm_min / 60.0 + tm_sec / 3600.0`: a
      regular reading lies inside its hour, no earlier than its whole minutes. */
  function CurrentTime(hour: int, minute: int, second: int): (r: real)
    ensures 0 <= minute <= 59 && 0 <= second <= 59 ==>
              hour as real + minute as real / 60.0 <= r < (hour + 1) as real
  {
    hour as real + minute as real / 60.0 + second as real / 3600.0
  }

  lemma CurrentTimeInDay(hour: int, minute: int, second: int)
    requires 0 <= hour <= 23 && 0 <= minute <= 59 && 0 <= second <= 59
    ensures 0.0 <= CurrentTime(hour, minute, second) < 24.0
  {
  }

  /** A leap second in the last minute of the day yields 24.0, outside the day
      that `normalizeTime` keeps rise and set in. */
  lemma LeapSecondReachesMidnight()
    ensures CurrentTime(23, 59, 60) == 24.0
  {
  }

  /** The light/dark choice of src/SunrisetWorker.cpp:168-194 on the wrapped rise
      and set: `Some(true)` is a call `switchLightThemeGNome(true)`, `Some(false)` a
      call with false, `None` no call. `riseOff` and `setOff` are the user offsets
      in hours, added without wrapping again. The inner test `rise < set` repeats
      the outer one, which has already failed. */
  function Decide(rise: real, sunset: real, riseOff: real, setOff: real, now: real): (r: Option<bool>)
    ensures r == None <==> rise == sunset
    ensures r == Some(true) <==>
              (rise > sunset || (rise < sunset && rise + riseOff < now < sunset + setOff))
  {
    if rise < sunset then
      if rise + riseOff < now && now < sunset + setOff then Some(true) else Some(false)
    else if rise > sunset then
      Some(true)
    else if rise < sunset then
      Some(false)
    else
      None
  }

  /** Dark is chosen only on an ordinary day (rise before set), and only outside
      the offset window; the repeated `rise < set` branch never produces it. */
  lemma DarkOnlyOutsideWindow(rise: real, sunset: real, riseOff: real, setOff: real, now: real)
    requires Decide(rise, sunset, riseOff, setOff, now) == Some(false)
    ensures rise < sunset
    ensures now <= rise + riseOff || sunset + setOff <= now
  {
  }

  /** Without user offsets, light is chosen exactly strictly between rise and set. */
  lemma LightBetweenRiseAndSet(rise: real, sunset: real, now: real)
    requires rise < sunset
    ensures Decide(rise, sunset, 0.0, 0.0, now) == Some(rise < now < sunset)
  {
  }

  /** The window bounds are strict: at the shifted rise and at the shifted set the
      choice is dark. */
  lemma BoundsAreDark(rise: real, sunset: real, riseOff: real, setOff: real)
    requires rise < sunset
    ensures Decide(rise, sunset, riseOff, setOff, rise + riseOff) == Some(false)
    ensures Decide(rise, sunset, riseOff, setOff, sunset + setOff) == Some(false)
  {
  }

  /** Offsets that close the window (shifted rise not before shifted set) give dark
      at every time of day. */
  lemma ClosedWindowAlwaysDark(rise: real, sunset: real, riseOff: real, setOff: real, now: real)
    requires rise < sunset && sunset + setOff <= rise + riseOff
    ensures Decide(rise, sunset, riseOff, setOff, now) == Some(false)
  {
  }

  /** Rise after set selects light whatever the time of day and the offsets. */
  lemma RiseAfterSetAlwaysLight(rise: real, sunset: real, riseOff: real, setOff: real, now: real)
    requires rise > sunset
    ensures Decide(rise, sunset, riseOff, setOff, now) == Some(true)
  {
  }

  /** Raw rise and set a whole number of days apart wrap to the same time, and then
      no theme call is made at all. */
  lemma WholeDaysApartNoTheme(rawRise: real, days: int, utcHours: real,
                              riseOff: real, setOff: real, now: real)
    ensures Decide(Normalized(rawRise + utcHours),
                   Normalized(rawRise + 24.0 * days as real + utcHours),
                   riseOff, setOff, now) == None
  {
    assert rawRise + 24.0 * days as real + utcHours == (rawRise + utcHours) + 24.0 * days as real;
    NormalizedShift(rawRise + utcHours, days);
  }

  /** A set offset that carries the shifted set past midnight is not wrapped: with
      the sun setting at 23:00 and a +120 minute offset, 00:30 is dark although the
      shifted set (01:00) is still ahead. */
  lemma SetOffsetPastMidnightNotWrapped()
    ensures Decide(6.0, 23.0, 0.0, 2.0, 0.5) == Some(false)
  {
  }

  /** A rise offset that carries the shifted rise before midnight is not wrapped:
      with the sun rising at 01:00 and a -120 minute offset, 00:30 is already light. */
  lemma RiseOffsetBeforeMidnightNotWrapped()
    ensures Decide(1.0, 20.0, -2.0, 0.0, 0.5) == Some(true)
  {
  }
}
