/** The configuration of a SunrisetWorker: the caller's parameters, the five
    settings, the config.json file, `loadConfig`'s merge and the validation
    sequence at the start of the constructor (src/SunrisetWorker.cpp:41-101),
    written as pure steps over the settings and the file. */
module Config {
  import opened Wrappers

  /** A `std::pair<bool, T>`: whether the caller gave the value, and the value. */
  datatype Param<T> = Param(present: bool, value: T)

  /** The `Params` struct. */
  datatype Params = Params(
    lat: Param<real>,
    lon: Param<real>,
    utcOffsetMinutes: Param<int>,
    riseOffsetMinutes: Param<int>,
    setOffsetMinutes: Param<int>,
    clear: Param<bool>)

  /** The five persisted member fields. */
  datatype Settings = Settings(
    lat: real,
    lon: real,
    utcOffsetMinutes: int,
    riseOffsetMinutes: int,
    setOffsetMinutes: int)

  /** A config.json that parsed as a JSON object; a key may be missing. */
  datatype StoredConfig = StoredConfig(
    lat: Option<real>,
    lon: Option<real>,
    utcOffsetMinutes: Option<int>,
    riseOffsetMinutes: Option<int>,
    setOffsetMinutes: Option<int>)

  /** The settings together with the config file; `file` is `None` when the file is
      missing or does not parse. */
  datatype Store = Store(settings: Settings, file: Option<StoredConfig>)

  const DefaultLat: real := 50.0755
  const DefaultLon: real := 14.4378
  const Zero: Settings := Settings(0.0, 0.0, 0, 0, 0)

  predicate LatInRange(x: real) { -90.0 <= x <= 90.0 }
  predicate LonInRange(x: real) { -180.0 <= x <= 180.0 }
  predicate OffsetInRange(m: int) { -720 <= m <= 720 }

  /** The member initialisers (lines 25-28): every field starts with the caller's
      value, given or not. */
  function InitialSettings(p: Params): (s: Settings)
    ensures s.lat == p.lat.value && s.lon == p.lon.value
    ensures s.utcOffsetMinutes == p.utcOffsetMinutes.value
    ensures s.riseOffsetMinutes == p.riseOffsetMinutes.value
    ensures s.setOffsetMinutes == p.setOffsetMinutes.value
  {
    Settings(p.lat.value, p.lon.value, p.utcOffsetMinutes.value,
             p.riseOffsetMinutes.value, p.setOffsetMinutes.value)
  }

  /** The JSON object `saveConfig` writes: all five keys. */
  function Saved(s: Settings): (c: StoredConfig)
    ensures c.lat.Some? && c.lon.Some? && c.utcOffsetMinutes.Some?
    ensures c.riseOffsetMinutes.Some? && c.setOffsetMinutes.Some?
  {
    StoredConfig(Some(s.lat), Some(s.lon), Some(s.utcOffsetMinutes),
                 Some(s.riseOffsetMinutes), Some(s.setOffsetMinutes))
  }

  /** One field of `loadConfig`: a given parameter keeps the current value, any
      other field takes the stored value, or the default when the key is missing. */
  function MergeField<T>(p: Param<T>, current: T, stored: Option<T>, default: T): (r: T)
    ensures p.present ==> r == current
    ensures !p.present && stored.Some? ==> r == stored.value
    ensures !p.present && stored.None? ==> r == default
  {
    if p.present then current else stored.GetOr(default)
  }

  /** The fields after `loadConfig` reads a parsed file: a field the caller gave
      keeps its current value whatever the file holds; any other takes the stored
      value, or the built-in default when the key is missing. */
  function Merge(p: Params, cur: Settings, c: StoredConfig): (r: Settings)
    ensures r.lat == if p.lat.present then cur.lat else c.lat.GetOr(DefaultLat)
    ensures r.lon == if p.lon.present then cur.lon else c.lon.GetOr(DefaultLon)
    ensures r.utcOffsetMinutes ==
              if p.utcOffsetMinutes.present then cur.utcOffsetMinutes
              else c.utcOffsetMinutes.GetOr(0)
    ensures r.riseOffsetMinutes ==
              if p.riseOffsetMinutes.present then cur.riseOffsetMinutes
              else c.riseOffsetMinutes.GetOr(0)
    ensures r.setOffsetMinutes ==
              if p.setOffsetMinutes.present then cur.setOffsetMinutes
              else c.setOffsetMinutes.GetOr(0)
  {
    Settings(
      MergeField(p.lat, cur.lat, c.lat, DefaultLat),
      MergeField(p.lon, cur.lon, c.lon, DefaultLon),
      MergeField(p.utcOffsetMinutes, cur.utcOffsetMinutes, c.utcOffsetMinutes, 0),
      MergeField(p.riseOffsetMinutes, cur.riseOffsetMinutes, c.riseOffsetMinutes, 0),
      MergeField(p.setOffsetMinutes, cur.setOffsetMinutes, c.setOffsetMinutes, 0))
  }

  /** No field given by the caller. */
  predicate NoneGiven(p: Params)
  {
    !p.lat.present && !p.lon.present && !p.utcOffsetMinutes.present &&
    !p.riseOffsetMinutes.present && !p.setOffsetMinutes.present
  }

  /** Save then load with no field given restores exactly the saved settings. */
  lemma SaveLoadRoundTrip(p: Params, cur: Settings, s: Settings)
    requires NoneGiven(p)
    ensures Merge(p, cur, Saved(s)) == s
  {
  }

  /** An empty JSON object yields the built-in defaults for every field not given. */
  lemma EmptyFileDefaults(p: Params, cur: Settings)
    requires NoneGiven(p)
    ensures Merge(p, cur, StoredConfig(None, None, None, None, None)) ==
            Settings(DefaultLat, DefaultLon, 0, 0, 0)
  {
  }

  // The constructor's configuration sequence, one step per block of
  // src/SunrisetWorker.cpp.

  /** `saveConfig`: when the file can be opened for writing it is replaced by the
      five current settings; otherwise nothing changes. */
  function Save(s: Store, writable: bool): (r: Store)
    ensures r.settings == s.settings
    ensures writable ==> r.file == Some(Saved(s.settings))
    ensures !writable ==> r.file == s.file
  {
    if writable then Store(s.settings, Some(Saved(s.settings))) else s
  }

  /** Lines 41-52: a parsed file is merged and not rewritten; a missing or unparsable
      one zeroes all five fields, caller's values included, and the zeros are saved. */
  function LoadStep(p: Params, s: Store, writable: bool): (r: Store)
    ensures s.file.Some? ==> r == Store(Merge(p, s.settings, s.file.value), s.file)
    ensures s.file.None? ==> r.settings == Zero
    ensures s.file.None? ==> r.file == if writable then Some(Saved(Zero)) else None
  {
    match s.file
    case Some(c) => Store(Merge(p, s.settings, c), s.file)
    case None => Save(Store(Zero, s.file), writable)
  }

  /** Lines 54-61: a given latitude ends in [-90, 90], unchanged when it was in
      range and 0 otherwise, and is saved; nothing else changes. A latitude not
      given is left as it is, unchecked. */
  function LatStep(p: Params, s: Store, writable: bool): (r: Store)
    ensures !p.lat.present ==> r == s
    ensures p.lat.present ==> LatInRange(r.settings.lat)
    ensures p.lat.present ==>
              r.settings.lat == (if LatInRange(s.settings.lat) then s.settings.lat else 0.0)
    ensures r.settings.(lat := s.settings.lat) == s.settings
    ensures p.lat.present ==> r == Save(r, writable)
    ensures !writable ==> r.file == s.file
  {
    if p.lat.present then
      var lat := if LatInRange(s.settings.lat) then s.settings.lat else 0.0;
      Save(s.(settings := s.settings.(lat := lat)), writable)
    else s
  }

  /** Lines 63-70: the same for the longitude and [-180, 180]. */
  function LonStep(p: Params, s: Store, writable: bool): (r: Store)
    ensures !p.lon.present ==> r == s
    ensures p.lon.present ==> LonInRange(r.settings.lon)
    ensures p.lon.present ==>
              r.settings.lon == (if LonInRange(s.settings.lon) then s.settings.lon else 0.0)
    ensures r.settings.(lon := s.settings.lon) == s.settings
    ensures p.lon.present ==> r == Save(r, writable)
    ensures !writable ==> r.file == s.file
  {
    if p.lon.present then
      var lon := if LonInRange(s.settings.lon) then s.settings.lon else 0.0;
      Save(s.(settings := s.settings.(lon := lon)), writable)
    else s
  }

  /** Lines 72-77: the UTC offset, given or not, ends in [-720, 720]. An in-range
      one is kept and saved; an out-of-range one becomes 0 and the file is left as
      it was. Nothing else changes. */
  function UtcStep(s: Store, writable: bool): (r: Store)
    ensures OffsetInRange(r.settings.utcOffsetMinutes)
    ensures r.settings.(utcOffsetMinutes := s.settings.utcOffsetMinutes) == s.settings
    ensures OffsetInRange(s.settings.utcOffsetMinutes) ==>
              r == Save(s, writable)
    ensures !OffsetInRange(s.settings.utcOffsetMinutes) ==>
              r.settings.utcOffsetMinutes == 0 && r.file == s.file
  {
    if OffsetInRange(s.settings.utcOffsetMinutes) then Save(s, writable)
    else s.(settings := s.settings.(utcOffsetMinutes := 0))
  }

  /** Lines 79-84: the same for the sunrise offset. */
  function RiseStep(s: Store, writable: bool): (r: Store)
    ensures OffsetInRange(r.settings.riseOffsetMinutes)
    ensures r.settings.(riseOffsetMinutes := s.settings.riseOffsetMinutes) == s.settings
    ensures OffsetInRange(s.settings.riseOffsetMinutes) ==>
              r == Save(s, writable)
    ensures !OffsetInRange(s.settings.riseOffsetMinutes) ==>
              r.settings.riseOffsetMinutes == 0 && r.file == s.file
  {
    if OffsetInRange(s.settings.riseOffsetMinutes) then Save(s, writable)
    else s.(settings := s.settings.(riseOffsetMinutes := 0))
  }

  /** Lines 86-92: a given sunset offset ends in [-720, 720], unchanged when it was
      in range and 0 otherwise, and is saved; one not given is left unchecked. */
  function SetStep(p: Params, s: Store, writable: bool): (r: Store)
    ensures !p.setOffsetMinutes.present ==> r == s
    ensures p.setOffsetMinutes.present ==> OffsetInRange(r.settings.setOffsetMinutes)
    ensures p.setOffsetMinutes.present ==>
              r.settings.setOffsetMinutes ==
                (if OffsetInRange(s.settings.setOffsetMinutes) then s.settings.setOffsetMinutes else 0)
    ensures r.settings.(setOffsetMinutes := s.settings.setOffsetMinutes) == s.settings
    ensures p.setOffsetMinutes.present ==> r == Save(r, writable)
    ensures !writable ==> r.file == s.file
  {
    if p.setOffsetMinutes.present then
      var m := if OffsetInRange(s.settings.setOffsetMinutes) then s.settings.setOffsetMinutes else 0;
      Save(s.(settings := s.settings.(setOffsetMinutes := m)), writable)
    else s
  }

  /** `clear` given and true. */
  predicate Clears(p: Params) { p.clear.present && p.clear.value }

  /** Lines 94-101: `clear` given and true zeroes all five fields and saves them;
      otherwise nothing changes. */
  function ClearStep(p: Params, s: Store, writable: bool): (r: Store)
    ensures !Clears(p) ==> r == s
    ensures Clears(p) ==> r.settings == Zero && r == Save(r, writable)
    ensures Clears(p) && !writable ==> r.file == s.file
  {
    if p.clear.present && p.clear.value then Save(Store(Zero, s.file), writable) else s
  }

  /** The settings and the file after lines 25-101, starting from the caller's
      parameters and the file as found. The UTC and sunrise offsets are checked
      whether given or not, so they always end in [-720, 720]; a file that cannot
      be written is left exactly as found. */
  function Configured(p: Params, file: Option<StoredConfig>, writable: bool): (r: Store)
    ensures OffsetInRange(r.settings.utcOffsetMinutes)
    ensures OffsetInRange(r.settings.riseOffsetMinutes)
    ensures !writable ==> r.file == file
  {
    var loaded := LoadStep(p, Store(InitialSettings(p), file), writable);
    var located := LonStep(p, LatStep(p, loaded, writable), writable);
    var offsets := RiseStep(UtcStep(located, writable), writable);
    ClearStep(p, SetStep(p, offsets, writable), writable)
  }


  /** A missing or unparsable file zeroes all five fields, discarding even the
      caller's values, and (when writable) leaves the zeros in the file. */
  lemma LoadFailureZeroes(p: Params, writable: bool)
    ensures Configured(p, None, writable).settings == Zero
    ensures writable ==> Configured(p, None, writable).file == Some(Saved(Zero))
    ensures !writable ==> Configured(p, None, writable).file == None
  {
  }

  /** `clear` overrides everything before it: all fields zero, and saved. */
  lemma ClearZeroes(p: Params, file: Option<StoredConfig>, writable: bool)
    requires Clears(p)
    ensures Configured(p, file, writable).settings == Zero
    ensures writable ==> Configured(p, file, writable).file == Some(Saved(Zero))
  {
  }

  /** With a readable file and no `clear`, a given value survives exactly when it
      is in range and is replaced by 0 otherwise. */
  lemma GivenValuesChecked(p: Params, c: StoredConfig, writable: bool)
    requires !Clears(p)
    ensures var r := Configured(p, Some(c), writable).settings;
      (p.lat.present ==>
         r.lat == if LatInRange(p.lat.value) then p.lat.value else 0.0) &&
      (p.lon.present ==>
         r.lon == if LonInRange(p.lon.value) then p.lon.value else 0.0) &&
      (p.utcOffsetMinutes.present ==>
         r.utcOffsetMinutes ==
           if OffsetInRange(p.utcOffsetMinutes.value) then p.utcOffsetMinutes.value else 0) &&
      (p.riseOffsetMinutes.present ==>
         r.riseOffsetMinutes ==
           if OffsetInRange(p.riseOffsetMinutes.value) then p.riseOffsetMinutes.value else 0) &&
      (p.setOffsetMinutes.present ==>
         r.setOffsetMinutes ==
           if OffsetInRange(p.setOffsetMinutes.value) then p.setOffsetMinutes.value else 0)
  {
  }

  /** Latitude, longitude and sunset offset taken from the file are not checked:
      whatever the file holds for a field not given is kept. The UTC and sunrise
      offsets from the file are checked. */
  lemma StoredValuesChecked(p: Params, c: StoredConfig, writable: bool)
    requires !Clears(p)
    ensures var r := Configured(p, Some(c), writable).settings;
      (!p.lat.present ==> r.lat == c.lat.GetOr(DefaultLat)) &&
      (!p.lon.present ==> r.lon == c.lon.GetOr(DefaultLon)) &&
      (!p.setOffsetMinutes.present ==> r.setOffsetMinutes == c.setOffsetMinutes.GetOr(0)) &&
      (!p.utcOffsetMinutes.present ==>
         var m := c.utcOffsetMinutes.GetOr(0); r.utcOffsetMinutes == if OffsetInRange(m) then m else 0) &&
      (!p.riseOffsetMinutes.present ==>
         var m := c.riseOffsetMinutes.GetOr(0); r.riseOffsetMinutes == if OffsetInRange(m) then m else 0)
  {
  }

  /** With a readable, writable file whose merged UTC and sunrise offsets are in
      range, the file ends up holding exactly the final settings. */
  lemma FileHoldsFinalSettings(p: Params, c: StoredConfig)
    requires OffsetInRange(Merge(p, InitialSettings(p), c).utcOffsetMinutes)
    requires OffsetInRange(Merge(p, InitialSettings(p), c).riseOffsetMinutes)
    ensures Configured(p, Some(c), true).file == Some(Saved(Configured(p, Some(c), true).settings))
  {
  }

  /** The reset of an out-of-range UTC or sunrise offset is not followed by a save,
      so the file can keep a value the run discarded: a given latitude saves the
      offsets as given (line 60), both offsets are then reset in memory only. */
  lemma StaleFileAfterOffsetReset()
    ensures var p := Params(Param(true, 10.0), Param(false, 0.0), Param(true, 1000),
                            Param(true, 1000), Param(false, 0), Param(false, false));
            var r := Configured(p, Some(StoredConfig(None, None, None, None, None)), true);
            r.settings.utcOffsetMinutes == 0 &&
            r.file.Some? && r.file.value.utcOffsetMinutes == Some(1000)
  {
  }

  /** A second run without parameters on a file saved from valid offsets reproduces
      the same settings and the same file. */
  lemma RerunIsStable(p: Params, s: Settings, writable: bool)
    requires NoneGiven(p) && !Clears(p)
    requires OffsetInRange(s.utcOffsetMinutes) && OffsetInRange(s.riseOffsetMinutes)
    ensures Configured(p, Some(Saved(s)), writable) == Store(s, Some(Saved(s)))
  {
  }

  /** Two parameter sets that give the same fields with the same values. */
  predicate SameGiven(p: Params, q: Params)
  {
    p.lat.present == q.lat.present && (p.lat.present ==> p.lat.value == q.lat.value) &&
    p.lon.present == q.lon.present && (p.lon.present ==> p.lon.value == q.lon.value) &&
    p.utcOffsetMinutes.present == q.utcOffsetMinutes.present &&
    (p.utcOffsetMinutes.present ==> p.utcOffsetMinutes.value == q.utcOffsetMinutes.value) &&
    p.riseOffsetMinutes.present == q.riseOffsetMinutes.present &&
    (p.riseOffsetMinutes.present ==> p.riseOffsetMinutes.value == q.riseOffsetMinutes.value) &&
    p.setOffsetMinutes.present == q.setOffsetMinutes.present &&
    (p.setOffsetMinutes.present ==> p.setOffsetMinutes.value == q.setOffsetMinutes.value) &&
    Clears(p) == Clears(q)
  }

  /** Only the present flags decide: the value carried by a field that was not
      given never reaches the settings or the file. */
  lemma OnlyGivenValuesMatter(p: Params, q: Params, file: Option<StoredConfig>, writable: bool)
    requires SameGiven(p, q)
    ensures Configured(p, file, writable) == Configured(q, file, writable)
  {
  }
}
