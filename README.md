# FollowSun: SunrisetWorker in Dafny

FollowSun switches the GNOME desktop between a light and a dark theme according
to the time of day. It uses the sunrise and sunset for the user's place and date.
All the logic sits in the `SunrisetWorker` object. Its constructor runs once per
program run and does the following, in order:

- it merges the caller's parameters with the stored `config.json`;
- it checks the ranges of latitude, longitude and the three minute offsets,
  resetting a bad value to 0, and saves the settings at various points;
- it honours a `clear` request;
- it asks the solar calculator for the raw rise and set;
- it shifts both by the UTC offset and wraps them into [0, 24);
- it compares the current time with the rise and set, each widened by the user
  offsets, and calls `gsettings` for the light or the dark theme.

The model has six modules:

- `Wrappers`: `Option`.
- `ClockFormat`: `to24Time`, the truncating "H:MM" formatter, with
  `std::to_string` and `static_cast<int>` written out. `ParseClock` reads the
  string back.
- `Theme`: the two `gsettings` calls of `switchLightThemeGNome`.
- `Config`: the `Params` pairs, the five settings, the config file as an
  optional record with optional keys, the `loadConfig` merge, and the
  constructor's configuration sequence (src/SunrisetWorker.cpp:41-101). The
  sequence is written as pure steps (`LoadStep` … `ClearStep`, composed in
  `Configured`), and the lemmas about it live here.
- `SunTimes`: `normalizeTime` as a method with two loops, proved equal to the
  function `Normalized`; the current time of day; and the light/dark decision
  `Decide` as a function.
- `Worker`: the class `SunrisetWorker`. Its fields are the source's members.
  `configFile` is the content of config.json and `themeCalls` is the log of
  `gsettings` calls. `LoadConfig`, `SaveConfig` and `SwitchLightThemeGnome`
  are methods. The constructor body is split into one method per block of the
  source. The constructor is proved to leave the settings and the file as
  `Configured` says, rise and set as `Normalized` says, and the theme calls as
  `Decide` says.

The following are parameters of the constructor:

- the solar calculator `sun_rise_set`, as a function of date, longitude and
  latitude;
- the broken-down local time;
- the initial content of config.json;
- whether config.json can be opened for writing.

The model follows the code as written, including these sharp edges:

- **Load failure zeroes the settings.** The warning logged when config.json is
  missing or unparsable, and the comment below it
  (src/SunrisetWorker.cpp:44-45), speak of default values. Lines 46-51 instead
  set all five fields to 0, dropping the caller's values, and save the zeros.
  The model does what lines 46-51 do. The defaults 50.0755/14.4378 are used
  only for keys missing from a file that parsed (`Config.LoadFailureZeroes`).
- **Only some checks apply to stored values.** Latitude, longitude and the
  sunset offset are checked only when the caller gave them. Values from the
  file are kept even when out of range. The UTC and sunrise offsets are
  checked in every case (`Config.StoredValuesChecked`).
- **Some resets are never saved.** Resetting an out-of-range UTC or sunrise
  offset does not save. The file can therefore keep a value that the run
  discarded (`Config.StaleFileAfterOffsetReset`).
- **Equal rise and set produce no theme call.** The "sun never rises" branch
  repeats the failed test `rise < set`, so it cannot run. When the wrapped
  rise equals the wrapped set, no `gsettings` call is made at all. This
  happens whenever the raw rise and set lie a whole number of days apart
  (`SunTimes.WholeDaysApartNoTheme`).
- **User offsets are not wrapped.** They are added to the wrapped rise and set
  without wrapping again, both in the decision and in the trigger strings. So
  "25:30" and "0:0-30" can be produced
  (`Worker.SetTriggerPastMidnight`, `Worker.RiseTriggerBeforeMidnight`).

## Model

| member | source | states |
|---|---|---|
| ClockFormat.Trunc | include/SunrisetWorker/SunrisetWorker.hpp:57-58 | `static_cast<int>` truncates toward zero: the result has the sign of the input and lies within one of it, on the side of zero |
| ClockFormat.NatToString | include/SunrisetWorker/SunrisetWorker.hpp:59 | `std::to_string` of a non-negative value is non-empty, has a single character exactly for values below ten, and starts with '0' only for 0 (no leading zeros) |
| ClockFormat.NatToStringDigits | include/SunrisetWorker/SunrisetWorker.hpp:59 | the decimal form consists of digits only |
| ClockFormat.ParseNatToString | include/SunrisetWorker/SunrisetWorker.hpp:59 | reading the decimal form back gives the number (the formatter loses nothing) |
| ClockFormat.IntToString | include/SunrisetWorker/SunrisetWorker.hpp:59 | `std::to_string(int)` starts with '-' exactly for negative values; the rest is the decimal digits of the magnitude, which read back as it |
| ClockFormat.HoursOf | include/SunrisetWorker/SunrisetWorker.hpp:57 | the hour field cuts toward zero: the part of the hour left over has the sign of the time and is less than one hour |
| ClockFormat.MinutesOf | include/SunrisetWorker/SunrisetWorker.hpp:58 | the minute field lies in 0..59 for a non-negative time and in -59..0 for a negative one |
| ClockFormat.MinutesText | include/SunrisetWorker/SunrisetWorker.hpp:59 | a minute 0..59 prints as exactly two digits that read back as the minute; a negative minute prints as "0-" followed by its digits |
| ClockFormat.ClockFieldsInDay | include/SunrisetWorker/SunrisetWorker.hpp:57-58 | for t in [0,24): hours = floor(t) in 0..23, minutes = floor((t - hours)·60) in 0..59, and hours:minutes is the minute in progress at t (truncation, never rounding up) |
| ClockFormat.To24Time | include/SunrisetWorker/SunrisetWorker.hpp:55-60 | for t in [0,24) the string has the form digits ':' two digits and parses back to (floor(t), minutes of t) |
| ClockFormat.To24TimeLength | include/SunrisetWorker/SunrisetWorker.hpp:59 | hours are never padded and minutes always take two characters: 4 characters before 10:00, 5 after |
| ClockFormat.HoursBeyondDay | include/SunrisetWorker/SunrisetWorker.hpp:57-58 | from 24 hours on, the hour field is 24 or more and minutes stay in 0..59 |
| ClockFormat.NegativeFraction | include/SunrisetWorker/SunrisetWorker.hpp:57-59 | for t in (-1,0) the hour is 0, the minutes lie in (-60,0], and a negative minute prints as "0:0-" followed by its magnitude |
| ClockFormat.HalfPastOne | include/SunrisetWorker/SunrisetWorker.hpp:55-60 | 13.5 prints as "13:30" |
| ClockFormat.Midnight | include/SunrisetWorker/SunrisetWorker.hpp:55-60 | 0.0 prints as "0:00" |
| ClockFormat.LastMinuteNotRounded | include/SunrisetWorker/SunrisetWorker.hpp:55-60 | 23.999 prints as "23:59", not "24:00" |
| ClockFormat.PastMidnightOffset | include/SunrisetWorker/SunrisetWorker.hpp:55-60 | 25.5 prints as "25:30" |
| ClockFormat.HalfHourBeforeMidnight | include/SunrisetWorker/SunrisetWorker.hpp:55-60 | -0.5 prints as "0:0-30" |
| Theme.ThemeCommands | include/SunrisetWorker/SunrisetWorker.hpp:43-52 | a theme switch is two calls, color-scheme then gtk-theme: ('default', 'Adwaita') for light, ('prefer-dark', 'Adwaita-dark') for dark |
| Theme.ThemeCommandsDistinguish | include/SunrisetWorker/SunrisetWorker.hpp:43-52 | the light and dark calls differ, so the calls made identify the theme chosen |
| SunTimes.Normalized | src/SunrisetWorker.cpp:125-131 | the wrapped time lies in [0,24) and differs from the input by a whole number of days |
| SunTimes.NormalizedUnique | src/SunrisetWorker.cpp:125-131 | any time in [0,24) a whole number of days from t is the wrapped value of t |
| SunTimes.NormalizedIdentity | src/SunrisetWorker.cpp:125-131 | wrapping leaves a time already in [0,24) unchanged |
| SunTimes.NormalizedShift | src/SunrisetWorker.cpp:125-131 | moving the input by whole days does not change the wrapped value |
| SunTimes.NormalizeTime | src/SunrisetWorker.cpp:125-131 | the two loops terminate for every input and return the wrapped value, in [0,24) |
| SunTimes.CurrentTime | src/SunrisetWorker.cpp:140 | a regular clock reading (minutes and seconds in 0..59) lies inside its hour, no earlier than its whole minutes |
| SunTimes.CurrentTimeInDay | src/SunrisetWorker.cpp:140 | for a regular clock reading the current time lies in [0,24) |
| SunTimes.LeapSecondReachesMidnight | src/SunrisetWorker.cpp:140 | a leap second at 23:59:60 gives 24.0, outside the wrapped range |
| SunTimes.Decide | src/SunrisetWorker.cpp:168-194 | no theme call exactly when rise equals set; light exactly when rise is after set, or rise is before set and rise+riseOff < now < set+setOff; dark otherwise |
| SunTimes.DarkOnlyOutsideWindow | src/SunrisetWorker.cpp:168-194 | dark is chosen only on an ordinary day (rise before set) and only outside the offset window; the second `rise < set` branch never yields it |
| SunTimes.LightBetweenRiseAndSet | src/SunrisetWorker.cpp:168-179 | without offsets, light exactly strictly between rise and set |
| SunTimes.BoundsAreDark | src/SunrisetWorker.cpp:169 | the window bounds are strict: at the shifted rise and at the shifted set the choice is dark |
| SunTimes.ClosedWindowAlwaysDark | src/SunrisetWorker.cpp:168-179 | offsets that put the shifted set at or before the shifted rise make every time of day dark |
| SunTimes.RiseAfterSetAlwaysLight | src/SunrisetWorker.cpp:180-187 | rise after set selects light whatever the time and offsets |
| SunTimes.WholeDaysApartNoTheme | src/SunrisetWorker.cpp:133-194 | raw rise and set a whole number of days apart wrap to equal times, and then no theme call is made |
| SunTimes.SetOffsetPastMidnightNotWrapped | src/SunrisetWorker.cpp:141-169 | set 23:00 with +120 min: 00:30 is dark although the shifted set 01:00 is still ahead (offsets are not wrapped) |
| SunTimes.RiseOffsetBeforeMidnightNotWrapped | src/SunrisetWorker.cpp:141-169 | rise 01:00 with -120 min: 00:30 is already light (offsets are not wrapped) |
| Config.InitialSettings | src/SunrisetWorker.cpp:25-28 | the members start from the caller's values, whether given or not |
| Config.Saved | src/SunrisetWorker.cpp:228-236 | `saveConfig` writes all five keys |
| Config.MergeField | src/SunrisetWorker.cpp:213-223 | a field the caller gave keeps its value; any other takes the stored value, or the default when the key is missing |
| Config.SaveLoadRoundTrip | src/SunrisetWorker.cpp:214-236 | loading a saved file with no field given restores exactly the saved settings |
| Config.Merge | src/SunrisetWorker.cpp:213-223 | per field: a field the caller gave keeps its current value whatever the file holds; any other takes the stored value, or 50.0755, 14.4378 or 0 when the key is missing |
| Config.EmptyFileDefaults | src/SunrisetWorker.cpp:214-223 | a file with no keys gives lat 50.0755, lon 14.4378 and zero offsets |
| Config.Save | src/SunrisetWorker.cpp:228-253 | saving leaves the settings alone and replaces the file with them when it can be opened for writing, else leaves the file as it was |
| Config.LoadStep | src/SunrisetWorker.cpp:41-52 | a parsed file is merged and not rewritten; a missing or unparsable one leaves all five fields 0 and, when writable, a file holding the zeros |
| Config.LatStep | src/SunrisetWorker.cpp:54-61 | a given latitude ends in [-90,90], kept when in range and 0 otherwise, and is saved; one not given is left unchecked; nothing else changes |
| Config.LonStep | src/SunrisetWorker.cpp:63-70 | a given longitude ends in [-180,180], kept when in range and 0 otherwise, and is saved; one not given is left unchecked; nothing else changes |
| Config.UtcStep | src/SunrisetWorker.cpp:72-77 | the UTC offset, given or not, ends in [-720,720]; an in-range one is kept and saved, an out-of-range one becomes 0 and the file is not touched |
| Config.RiseStep | src/SunrisetWorker.cpp:79-84 | the same for the sunrise offset |
| Config.SetStep | src/SunrisetWorker.cpp:86-92 | a given sunset offset ends in [-720,720], kept when in range and 0 otherwise, and is saved; one not given is left unchecked |
| Config.ClearStep | src/SunrisetWorker.cpp:94-101 | `clear` given and true zeroes all five fields and saves them; otherwise nothing changes |
| Config.Configured | src/SunrisetWorker.cpp:25-101 | after configuration the UTC and sunrise offsets always lie in [-720,720], and a file that cannot be written is left as found |
| Config.LoadFailureZeroes | src/SunrisetWorker.cpp:41-52 | a missing or unparsable file leaves all five fields 0, discarding the caller's values; a writable file then holds the zeros |
| Config.ClearZeroes | src/SunrisetWorker.cpp:94-101 | `clear` given and true leaves all five fields 0 and saves them |
| Config.GivenValuesChecked | src/SunrisetWorker.cpp:54-92 | with a readable file and no clear, each given value survives exactly when in range and becomes 0 otherwise |
| Config.StoredValuesChecked | src/SunrisetWorker.cpp:54-92 | values from the file for latitude, longitude and sunset offset are kept unchecked; stored UTC and sunrise offsets are reset when out of range |
| Config.FileHoldsFinalSettings | src/SunrisetWorker.cpp:72-101 | with a readable, writable file and in-range UTC and sunrise offsets, the file ends up holding exactly the final settings |
| Config.StaleFileAfterOffsetReset | src/SunrisetWorker.cpp:54-84 | a given latitude with given UTC and sunrise offsets of 1000 leaves UTC 0 in memory but 1000 in the file |
| Config.RerunIsStable | src/SunrisetWorker.cpp:41-92 | a run without parameters on a file saved from settings with valid offsets reproduces those settings and that file |
| Config.OnlyGivenValuesMatter | src/SunrisetWorker.cpp:213-223 | only the present flags decide: the value carried by a field not given never reaches the settings or the file |
| Worker.ThemeCallsFor | src/SunrisetWorker.cpp:168-194 | no call is made exactly when there is no decision |
| Worker.SunrisetWorker.RiseTimeWithOffset | src/SunrisetWorker.cpp:141-144 | the light trigger text, rise plus sunrise offset unwrapped, reads back as its hour and minute whenever that sum lies inside the day |
| Worker.SunrisetWorker.SetTimeWithOffset | src/SunrisetWorker.cpp:142-145 | the dark trigger text, likewise for set plus sunset offset |
| Worker.SetTriggerPastMidnight | src/SunrisetWorker.cpp:142-145 | a set at 23:30 with a +120 minute offset gives the trigger text "25:30" |
| Worker.RiseTriggerBeforeMidnight | src/SunrisetWorker.cpp:141-144 | a rise at 0:00 with a -30 minute offset gives the trigger text "0:0-30" |
| Worker.SunrisetWorker.LoadConfig | src/SunrisetWorker.cpp:198-226 | returns -1 and changes nothing when the file is missing or unparsable; otherwise returns 0 and sets the settings to the merge of caller values and the file |
| Worker.SunrisetWorker.SaveConfig | src/SunrisetWorker.cpp:228-253 | returns 0 and overwrites the file with the five current fields when writable, returns -1 and changes nothing otherwise |
| Worker.SunrisetWorker.SwitchLightThemeGnome | include/SunrisetWorker/SunrisetWorker.hpp:43-52 | appends the two calls of the chosen theme to the log of calls |
| Worker.SunrisetWorker.LoadOrReset | src/SunrisetWorker.cpp:41-52 | on a parsed file the settings become the merge of caller values and file; on a missing or unparsable one all five fields become 0 and are saved |
| Worker.SunrisetWorker.CheckLocation | src/SunrisetWorker.cpp:54-70 | a given latitude outside [-90,90] or longitude outside [-180,180] becomes 0 and each given one is saved; values not given are untouched and unchecked |
| Worker.SunrisetWorker.CheckOffsets | src/SunrisetWorker.cpp:72-92 | UTC and sunrise offsets outside [-720,720] become 0 without a save, in-range ones are saved; a given sunset offset out of range becomes 0 and is saved |
| Worker.SunrisetWorker.ApplyClear | src/SunrisetWorker.cpp:94-101 | `clear` given and true sets all five fields to 0 and saves them; otherwise nothing changes |
| Worker.SunrisetWorker.Configure | src/SunrisetWorker.cpp:41-101 | from the caller's values, settings and file end as `Configured` of the file as found |
| Worker.SunrisetWorker.ShiftSunTimes | src/SunrisetWorker.cpp:104-134 | date from the local time; rise and set are the calculator's raw values plus the UTC offset, wrapped into [0,24) |
| Worker.SunrisetWorker.ApplyTheme | src/SunrisetWorker.cpp:139-194 | exactly the calls `Decide` picks for the current time are appended |
| Worker.SunrisetWorker.constructor | src/SunrisetWorker.cpp:24-196 | without an assets path only the caller's values are stored; with one, settings and file are `Configured`, rise and set wrapped, and the theme calls those of `Decide` |

## Left out

- `sun_rise_set` from the SunrisetC library is not part of this model. It is a
  foreign call doing floating-point trigonometry. The constructor takes it as a
  function parameter, so rise and set are opaque inputs, and its return code is
  ignored as in the source.
- File I/O and JSON parsing are not modelled. config.json is an optional record
  with optional keys: `None` means missing or unparsable, and a missing key
  means the default. Four things are therefore not captured. A key of the wrong
  JSON type raises an exception that nothing catches. A file that parses as
  JSON but is not an object (`[]`, `null`, `42`) does the same as soon as one
  field was not given: `configJson.value` (src/SunrisetWorker.cpp:215-223)
  throws `type_error`, and line 208 catches only `parse_error`, so the
  exception leaves the constructor. A non-integral stored offset is converted.
  A write can fail after the file was opened.
  The 4-space pretty printing is left out too.
- `std::system("gsettings …")`: only the calls made are recorded, in `themeCalls`.
  Their exit status is ignored, as in the source.
- The host clock (`system_clock`, `localtime_r`) is not read. The broken-down
  local time is a parameter.
- All logging is left out, including `std::put_time` and the `riseTime`/`setTime`
  strings that exist only to be logged.
- Asset paths are reduced to "empty or not": the `AssetContext` calls, the unused
  `logo` stream and `configPath_` are left out.
- The default constructor and the destructor are left out. They only log and
  clear the asset path.
- The members `currentTime_`, `riseTime_` and `setTime_` are never assigned in
  the source and are left out.
- Worker.SunrisetWorker.RiseTimeWithOffset: `riseTimeWithOffset_` and
  `setTimeWithOffset_` are functions of the fields they are computed from,
  not stored strings. With an assets path those fields do not change after
  the strings are computed (lines 144-145), so the value is the same. Without
  one the source never assigns the strings and they stay empty, while these
  functions still give `To24Time` of 0 plus the offset; the model sets the
  rise and set to 0 there, where the source leaves `rise_` and `set_`
  uninitialised.
- IEEE-754 doubles are modelled as exact reals, so rounding error is not
  captured. One consequence: with doubles, `normalizeTime` on a time of
  enormous magnitude would never finish, because adding 24 no longer changes
  it; with reals it always terminates. NaN inputs are not modelled either.
- 32-bit integers are modelled as unbounded: the offsets are `int`. The
  undefined behaviour of `static_cast<int>` on out-of-range doubles is not
  modelled.
- standalone/src/AppCore.hpp is left out. It is command-line parsing and
  logging setup around the worker. standalone/tests/LibTester.cpp only checks
  the exit code and is left out too.
