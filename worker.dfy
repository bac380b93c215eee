/** The `SunrisetWorker` object of src/SunrisetWorker.cpp: its member fields, the
    `loadConfig`/`saveConfig` pair over config.json, the theme switch, and the
    constructor that runs the whole sequence once. */
module Worker {
  import opened Wrappers
  import opened Config
  import opened SunTimes
  import opened ClockFormat
  import opened Theme

  /** The fields of the host's `std::tm` the constructor reads (`localtime_r`). */
  datatype LocalTime = LocalTime(
    tmYear: int, tmMon: int, tmMday: int, tmHour: int, tmMin: int, tmSec: int)

  /** `sun_rise_set(year, month, day, lon, lat, &rise, &set)`: raw rise and set in
      hours for a date and a place. */
  type SolarCalculator = (int, int, int, real, real) -> (real, real)

  /** The `gsettings` calls made for a decision. */
  function ThemeCallsFor(choice: Option<bool>): (r: seq<GSetting>)
    ensures choice.None? <==> r == []
  {
    match choice
    case Some(lightTheme) => ThemeCommands(lightTheme)
    case None => []
  }

  class SunrisetWorker {
    var lat: real
    var lon: real
    var utcOffsetMinutes: int
    var riseOffsetMinutes: int
    var setOffsetMinutes: int
    var clear: bool
    const params: Params

    /** Content of config.json: `None` while it is missing or does not parse. */
    var configFile: Option<StoredConfig>
    /** Whether `saveConfig` can open config.json for writing. */
    const writable: bool

    var year: int
    var month: int
    var day: int
    /** `rise_` and `set_`: raw times first, then wrapped into the day. */
    var riseHour: real
    var setHour: real

    /** Every `gsettings` call made so far, in order. */
    var themeCalls: seq<GSetting>

    /** The five persisted fields as a value. */
    function CurrentSettings(): Settings
      reads this`lat, this`lon, this`utcOffsetMinutes, this`riseOffsetMinutes,
            this`setOffsetMinutes
    {
      Settings(lat, lon, utcOffsetMinutes, riseOffsetMinutes, setOffsetMinutes)
    }

    /** `riseTimeWithOffset_`: the light trigger time as printed, the wrapped rise
        plus the sunrise offset, not wrapped again. When that sum lies inside the
        day the text reads back as its hour and minute. */
    function RiseTimeWithOffset(): (s: string)
      reads this`riseHour, this`riseOffsetMinutes
      ensures var t := riseHour + riseOffsetMinutes as real / 60.0;
              0.0 <= t < 24.0 ==> ParseClock(s) == Some((t.Floor, MinutesOf(t)))
    {
      To24Time(riseHour + riseOffsetMinutes as real / 60.0)
    }

    /** `setTimeWithOffset_`: the dark trigger time as printed, likewise. */
    function SetTimeWithOffset(): (s: string)
      reads this`setHour, this`setOffsetMinutes
      ensures var t := setHour + setOffsetMinutes as real / 60.0;
              0.0 <= t < 24.0 ==> ParseClock(s) == Some((t.Floor, MinutesOf(t)))
    {
      To24Time(setHour + setOffsetMinutes as real / 60.0)
    }

    /** The settings together with the file. */
    function Current(): Store
      reads this`lat, this`lon, this`utcOffsetMinutes, this`riseOffsetMinutes,
            this`setOffsetMinutes, this`configFile
    {
      Store(CurrentSettings(), configFile)
    }

    /** `loadConfig`: on a parsed file, each field not given by the caller takes the
        stored value or its default and the result is 0; a missing or unparsable
        file changes nothing and gives -1. */
    method LoadConfig() returns (status: int)
      modifies this`lat, this`lon, this`utcOffsetMinutes, this`riseOffsetMinutes,
               this`setOffsetMinutes
      ensures old(configFile).None? ==> status == -1 && CurrentSettings() == old(CurrentSettings())
      ensures old(configFile).Some? ==>
                status == 0 && CurrentSettings() == Merge(params, old(CurrentSettings()), configFile.value)
    {
      if configFile.None? {
        return -1;
      }
      var c := configFile.value;
      if !params.lat.present {
        lat := c.lat.GetOr(DefaultLat);
      }
      if !params.lon.present {
        lon := c.lon.GetOr(DefaultLon);
      }
      if !params.utcOffsetMinutes.present {
        utcOffsetMinutes := c.utcOffsetMinutes.GetOr(0);
      }
      if !params.riseOffsetMinutes.present {
        riseOffsetMinutes := c.riseOffsetMinutes.GetOr(0);
      }
      if !params.setOffsetMinutes.present {
        setOffsetMinutes := c.setOffsetMinutes.GetOr(0);
      }
      return 0;
    }

    /** `saveConfig`: config.json is replaced by the five current fields (0), or
        left alone when it cannot be opened for writing (-1). */
    method SaveConfig() returns (status: int)
      modifies this`configFile
      ensures status == (if writable then 0 else -1)
      ensures Current() == Save(old(Current()), writable)
    {
      if !writable {
        return -1;
      }
      configFile := Some(Saved(CurrentSettings()));
      return 0;
    }

    /** `switchLightThemeGNome`: the two calls for the chosen theme are made. */
    method SwitchLightThemeGnome(lightTheme: bool)
      modifies this`themeCalls
      ensures themeCalls == old(themeCalls) + ThemeCommands(lightTheme)
    {
      themeCalls := themeCalls + ThemeCommands(lightTheme);
    }

    /** Lines 41-52: load the file; when that fails zero all five fields and save. */
    method LoadOrReset()
      modifies this`lat, this`lon, this`utcOffsetMinutes, this`riseOffsetMinutes,
               this`setOffsetMinutes, this`configFile
      ensures Current() == LoadStep(params, old(Current()), writable)
    {
      var loaded := LoadConfig();
      if loaded != 0 {
        lat, lon := 0.0, 0.0;
        utcOffsetMinutes, riseOffsetMinutes, setOffsetMinutes := 0, 0, 0;
        var _ := SaveConfig();
      }
    }

    /** Lines 54-70: a given latitude or longitude out of range becomes 0; each given
        one is saved. */
    method CheckLocation()
      modifies this`lat, this`lon, this`configFile
      ensures Current() == LonStep(params, LatStep(params, old(Current()), writable), writable)
    {
      if params.lat.present {
        if lat > 90.0 || lat < -90.0 {
          lat := 0.0;
        }
        var _ := SaveConfig();
      }
      ghost var afterLat := Current();
      if params.lon.present {
        if lon > 180.0 || lon < -180.0 {
          lon := 0.0;
        }
        var _ := SaveConfig();
      }
      assert Current() == LonStep(params, afterLat, writable);
    }

    /** Lines 72-92: UTC and sunrise offsets out of range become 0 (only the
        in-range branch saves); a given sunset offset out of range becomes 0 and
        is saved. */
    method CheckOffsets()
      modifies this`utcOffsetMinutes, this`riseOffsetMinutes, this`setOffsetMinutes,
               this`configFile
      ensures Current() == SetStep(params, RiseStep(UtcStep(old(Current()), writable), writable), writable)
    {
      if utcOffsetMinutes > 720 || utcOffsetMinutes < -720 {
        utcOffsetMinutes := 0;
      } else {
        var _ := SaveConfig();
      }
      ghost var afterUtc := Current();
      if riseOffsetMinutes > 720 || riseOffsetMinutes < -720 {
        riseOffsetMinutes := 0;
      } else {
        var _ := SaveConfig();
      }
      assert Current() == RiseStep(afterUtc, writable);
      ghost var afterRise := Current();
      if params.setOffsetMinutes.present {
        if setOffsetMinutes > 720 || setOffsetMinutes < -720 {
          setOffsetMinutes := 0;
        }
        var _ := SaveConfig();
      }
      assert Current() == SetStep(params, afterRise, writable);
    }

    /** Lines 94-101: `clear` given and true zeroes all five fields and saves. */
    method ApplyClear()
      modifies this`lat, this`lon, this`utcOffsetMinutes, this`riseOffsetMinutes,
               this`setOffsetMinutes, this`configFile
      ensures Current() == ClearStep(params, old(Current()), writable)
    {
      if params.clear.present && params.clear.value {
        lat, lon := 0.0, 0.0;
        utcOffsetMinutes, riseOffsetMinutes, setOffsetMinutes := 0, 0, 0;
        var _ := SaveConfig();
      }
    }

    /** Lines 41-101: the configuration sequence, from the caller's values and the
        file as found to the validated settings and the file as left. */
    method Configure()
      requires CurrentSettings() == InitialSettings(params)
      modifies this`lat, this`lon, this`utcOffsetMinutes, this`riseOffsetMinutes,
               this`setOffsetMinutes, this`configFile
      ensures Current() == Configured(params, old(configFile), writable)
    {
      LoadOrReset();
      CheckLocation();
      CheckOffsets();
      ApplyClear();
    }

    /** Lines 104-134: today's date, and raw rise and set for the current place,
        both shifted by the UTC offset and wrapped into the day. */
    method ShiftSunTimes(now: LocalTime, sunRiseSet: SolarCalculator)
      modifies this`year, this`month, this`day, this`riseHour, this`setHour
      ensures year == now.tmYear + 1900 && month == now.tmMon + 1 && day == now.tmMday
      ensures var raw := sunRiseSet(year, month, day, lon, lat);
              var utcHours := utcOffsetMinutes as real / 60.0;
              riseHour == Normalized(raw.0 + utcHours) && setHour == Normalized(raw.1 + utcHours)
    {
      year := now.tmYear + 1900;
      month := now.tmMon + 1;
      day := now.tmMday;

      riseHour, setHour := 0.0, 0.0;
      var raw := sunRiseSet(year, month, day, lon, lat);
      riseHour, setHour := raw.0, raw.1;
      riseHour := NormalizeTime(riseHour + utcOffsetMinutes as real / 60.0);
      setHour := NormalizeTime(setHour + utcOffsetMinutes as real / 60.0);
    }

    /** Lines 139-142 and 167-194: the current time of day, and the theme call
        `Decide` picks for it. */
    method ApplyTheme(now: LocalTime)
      modifies this`themeCalls
      ensures themeCalls == old(themeCalls) +
                ThemeCallsFor(Decide(riseHour, setHour,
                                     riseOffsetMinutes as real / 60.0,
                                     setOffsetMinutes as real / 60.0,
                                     CurrentTime(now.tmHour, now.tmMin, now.tmSec)))
    {
      var cT := CurrentTime(now.tmHour, now.tmMin, now.tmSec);
      var riseOffMin := riseOffsetMinutes as real / 60.0;
      var setOffMin := setOffsetMinutes as real / 60.0;
      var choice := Decide(riseHour, setHour, riseOffMin, setOffMin, cT);
      if choice.Some? {
        SwitchLightThemeGnome(choice.value);
      }
    }

    /** `SunrisetWorker(assetsPath, params)`. With an assets directory it settles the
        configuration, computes the wrapped rise and set for the validated place and
        today's date, and applies the theme `Decide` picks for the current time. */
    constructor (assetsPath: string, params: Params, file: Option<StoredConfig>,
                 writable: bool, now: LocalTime, sunRiseSet: SolarCalculator)
      ensures this.params == params && this.writable == writable
      ensures clear == params.clear.value
      ensures assetsPath == "" ==>
                CurrentSettings() == InitialSettings(params) && configFile == file && themeCalls == []
      ensures assetsPath != "" ==> Current() == Configured(params, file, writable)
      ensures assetsPath != "" ==>
                year == now.tmYear + 1900 && month == now.tmMon + 1 && day == now.tmMday
      ensures assetsPath != "" ==>
                var raw := sunRiseSet(year, month, day, lon, lat);
                var utcHours := utcOffsetMinutes as real / 60.0;
                riseHour == Normalized(raw.0 + utcHours) && setHour == Normalized(raw.1 + utcHours)
      ensures assetsPath != "" ==>
                themeCalls == ThemeCallsFor(Decide(riseHour, setHour,
                                                   riseOffsetMinutes as real / 60.0,
                                                   setOffsetMinutes as real / 60.0,
                                                   CurrentTime(now.tmHour, now.tmMin, now.tmSec)))
    {
      lat := params.lat.value;
      lon := params.lon.value;
      utcOffsetMinutes := params.utcOffsetMinutes.value;
      riseOffsetMinutes := params.riseOffsetMinutes.value;
      setOffsetMinutes := params.setOffsetMinutes.value;
      clear := params.clear.value;
      this.params := params;
      configFile := file;
      this.writable := writable;
      year, month, day := 0, 0, 0;
      riseHour, setHour := 0.0, 0.0;
      themeCalls := [];
      new;
      if assetsPath != "" {
        Configure();
        ShiftSunTimes(now, sunRiseSet);
        ApplyTheme(now);
      }
    }
  }

  /** The trigger times are not wrapped: a set at 23:30 with a +120 minute sunset
      offset prints as "25:30". */
  lemma SetTriggerPastMidnight(w: SunrisetWorker)
    requires w.setHour == 23.5 && w.setOffsetMinutes == 120
    ensures w.SetTimeWithOffset() == "25:30"
  {
    PastMidnightOffset();
  }

  /** A rise at midnight with a -30 minute sunrise offset prints as "0:0-30". */
  lemma RiseTriggerBeforeMidnight(w: SunrisetWorker)
    requires w.riseHour == 0.0 && w.riseOffsetMinutes == -30
    ensures w.RiseTimeWithOffset() == "0:0-30"
  {
    HalfHourBeforeMidnight();
  }
}
