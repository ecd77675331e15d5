/** The four persisted settings, the ini section they are written to by
    `save_settings`, and what the `try` block of `load_settings` makes of
    a section read back. */
module Settings {

  datatype Settings = Settings(afterEffects: bool, hideWindow: bool, windowX: int, windowY: int)

  /** The initial values of the four globals. */
  const Defaults: Settings := Settings(true, true, 0, 0)

  /** One key of the `[mirage]` section as `has_key` / `get<T>` see it:
      missing, readable as a `T`, or present but making `get<T>` throw
      `std::invalid_argument`. */
  datatype Field<T> = Absent | Readable(value: T) | Unparsable

  /** The `[mirage]` section: `after_effects`, `hide_window`, `window_x`,
      `window_y`. */
  datatype Section = Section(
    afterEffects: Field<bool>,
    hideWindow: Field<bool>,
    windowX: Field<int>,
    windowY: Field<int>)

  /** The outcome of `ini::open`: it threw `std::invalid_argument`, or it
      produced a file whose `[mirage]` section is the given one. */
  datatype IniFile = Malformed | Parsed(section: Section)

  /** What `save_settings` writes: all four keys, each readable as written. */
  function Saved(s: Settings): (f: IniFile)
    ensures f.Parsed? && f.section.afterEffects.Readable? && f.section.hideWindow.Readable?
    ensures f.section.windowX.Readable? && f.section.windowY.Readable?
  {
    Parsed(Section(Readable(s.afterEffects), Readable(s.hideWindow), Readable(s.windowX), Readable(s.windowY)))
  }

  /** The settings after the `try` block of `load_settings`, starting from
      `start`. The keys are read in order and each present key overwrites
      its setting; the first unparsable key throws, which the `catch`
      swallows, so the keys before it stay applied and the rest are skipped.
      A malformed file changes nothing. */
  function Loaded(start: Settings, file: IniFile): Settings
  {
    match file
    case Malformed => start
    case Parsed(sec) =>
      if sec.afterEffects.Unparsable? then start else
      var s1 := start.(afterEffects := ValueOr(sec.afterEffects, start.afterEffects));
      if sec.hideWindow.Unparsable? then s1 else
      var s2 := s1.(hideWindow := ValueOr(sec.hideWindow, s1.hideWindow));
      if sec.windowX.Unparsable? then s2 else
      var s3 := s2.(windowX := ValueOr(sec.windowX, s2.windowX));
      if sec.windowY.Unparsable? then s3 else
      s3.(windowY := ValueOr(sec.windowY, s3.windowY))
  }

  /** The key's value if it is present, else `current`. */
  function ValueOr<T>(f: Field<T>, current: T): T {
    match f
    case Readable(v) => v
    case _ => current
  }

  /** Key by key: a setting takes the file's value exactly when its key is
      present and no key read before it was unparsable; otherwise it keeps
      its starting value. */
  lemma LoadedKeyByKey(start: Settings, sec: Section)
    ensures var r := Loaded(start, Parsed(sec));
      var ok0 := !sec.afterEffects.Unparsable?;
      var ok1 := ok0 && !sec.hideWindow.Unparsable?;
      var ok2 := ok1 && !sec.windowX.Unparsable?;
      && r.afterEffects == (if sec.afterEffects.Readable? then sec.afterEffects.value else start.afterEffects)
      && r.hideWindow == (if ok0 && sec.hideWindow.Readable? then sec.hideWindow.value else start.hideWindow)
      && r.windowX == (if ok1 && sec.windowX.Readable? then sec.windowX.value else start.windowX)
      && r.windowY == (if ok2 && sec.windowY.Readable? then sec.windowY.value else start.windowY)
  {
  }

  /** Saving and loading again gives back the saved settings, whatever the
      settings were before the load. */
  lemma SaveLoadRoundTrip(start: Settings, s: Settings)
    ensures Loaded(start, Saved(s)) == s
  {
  }

  /** A malformed file, or one without any of the keys, keeps the settings
      in place: at start-up, the defaults. */
  lemma MissingOrMalformedKeepsSettings(start: Settings)
    ensures Loaded(start, Malformed) == start
    ensures Loaded(start, Parsed(Section(Absent, Absent, Absent, Absent))) == start
  {
  }
}
