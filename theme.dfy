/**
 * The theme state of src/composables/useTheme.ts: the shared `themeMode`
 * and `isInitialized`, the system appearance, the derived effective theme,
 * the three-step cycle and the once-only initialisation from the stored
 * value.
 */
module Theme {
  import opened Wrappers

  datatype ThemeMode = Light | Dark | System

  /** What `effectiveTheme` can be: `'light'` or `'dark'`. */
  datatype Appearance = LightTheme | DarkTheme

  /** The `modes` array of `cycleTheme`. */
  const Modes: seq<ThemeMode> := [System, Light, Dark]

  function ModeName(m: ThemeMode): string {
    match m
    case Light => "light"
    case Dark => "dark"
    case System => "system"
  }

  /** A stored value is adopted only when it is one of `'light'`, `'dark'`, `'system'`. */
  function ParseThemeMode(stored: string): (r: Option<ThemeMode>)
    ensures r.Some? ==> ModeName(r.value) == stored
  {
    if stored == "light" then Some(Light)
    else if stored == "dark" then Some(Dark)
    else if stored == "system" then Some(System)
    else None
  }

  /** Round trip: every mode's name parses back to that mode. */
  lemma ParseModeName(m: ThemeMode)
    ensures ParseThemeMode(ModeName(m)) == Some(m)
  {
  }

  /** `modes.indexOf(mode)`; every mode is in the array. */
  function ModeIndex(m: ThemeMode): (i: nat)
    ensures i < |Modes| && Modes[i] == m
  {
    match m
    case System => 0
    case Light => 1
    case Dark => 2
  }

  /** The mode after `m` in the cycle. */
  function NextMode(m: ThemeMode): ThemeMode {
    Modes[(ModeIndex(m) + 1) % |Modes|]
  }

  /** `system → light → dark → system`: each step changes the mode and three steps return to it. */
  lemma CycleOrder(m: ThemeMode)
    ensures NextMode(System) == Light && NextMode(Light) == Dark && NextMode(Dark) == System
    ensures NextMode(m) != m
    ensures NextMode(NextMode(NextMode(m))) == m
  {
  }

  /** `effectiveTheme`: the system appearance in `system` mode, otherwise the mode itself. */
  function Effective(mode: ThemeMode, systemTheme: Appearance): (a: Appearance)
    ensures mode == System ==> a == systemTheme
    ensures mode == Light ==> a == LightTheme
    ensures mode == Dark ==> a == DarkTheme
  {
    match mode
    case System => systemTheme
    case Light => LightTheme
    case Dark => DarkTheme
  }

  /**
   * `initTheme` as evidently intended, on the pair (mode, initialised):
   * `stored` is what a theme accessor of the store returned (`None` for
   * null). The rest of the model uses this step.
   */
  function InitStep(mode: ThemeMode, initialized: bool, stored: Option<string>): (r: (ThemeMode, bool))
    ensures r.1
    ensures initialized ==> r == (mode, initialized)
    ensures !initialized && stored.Some? && ParseThemeMode(stored.value).Some? ==> r.0 == ParseThemeMode(stored.value).value
    ensures !initialized && (stored.None? || ParseThemeMode(stored.value).None?) ==> r.0 == mode
  {
    if initialized then (mode, initialized)
    else if stored.Some? && stored.value != "" && ParseThemeMode(stored.value).Some? then (ParseThemeMode(stored.value).value, true)
    else (mode, true)
  }

  /** Initialisation happens once: a second call changes nothing, whatever is stored by then. */
  lemma InitOnce(mode: ThemeMode, initialized: bool, first: Option<string>, second: Option<string>)
    ensures var r := InitStep(mode, initialized, first);
      InitStep(r.0, r.1, second) == r
  {
  }

  /** The message of the `TypeError` that calling the missing `LocalStorage.getTheme` raises. */
  const GetThemeMissing := "LocalStorage.getTheme is not a function"

  /**
   * `initTheme` as written: `LocalStorage` has no `getTheme`, so the call
   * throws before anything is assigned, unless an earlier call already set
   * `isInitialized`.
   */
  function InitStepAsWritten(mode: ThemeMode, initialized: bool): (r: Result<(ThemeMode, bool)>)
    ensures r.Ok? <==> initialized
    ensures r.Ok? ==> r.value == (mode, initialized)
    ensures r.Err? ==> r.error == GetThemeMissing
  {
    if initialized then Ok((mode, initialized)) else Err(GetThemeMissing)
  }

  /**
   * As written, initialisation never completes: from a state that is not
   * initialised every call throws and leaves it not initialised, whereas the
   * intended step always marks it initialised.
   */
  lemma {:induction false} AsWrittenNeverInitialises(mode: ThemeMode, stored: Option<string>, calls: nat)
    ensures IterateAsWritten(mode, calls) == (mode, false)
    ensures InitStepAsWritten(mode, false).Err?
    ensures InitStep(mode, false, stored).1
    ensures stored == Some(ModeName(Dark)) ==> InitStep(mode, false, stored).0 == Dark
  {
    if calls > 0 {
      AsWrittenNeverInitialises(mode, stored, calls - 1);
    }
  }

  /** The state after `calls` calls of the written `initTheme` from `(mode, false)`, each throwing one `TypeError`. */
  function IterateAsWritten(mode: ThemeMode, calls: nat): (ThemeMode, bool)
  {
    if calls == 0 then (mode, false)
    else
      var prev := IterateAsWritten(mode, calls - 1);
      match InitStepAsWritten(prev.0, prev.1)
      case Ok(next) => next
      case Err(_) => prev
  }

  /** The shared theme state. */
  class ThemeState {
    var themeMode: ThemeMode
    var isInitialized: bool
    var systemTheme: Appearance

    /** The initial state: `system` mode, not initialised, and the appearance the media query reported. */
    constructor(systemTheme: Appearance)
      ensures themeMode == System && !isInitialized && this.systemTheme == systemTheme
    {
      themeMode := System;
      isInitialized := false;
      this.systemTheme := systemTheme;
    }

    function EffectiveTheme(): (a: Appearance)
      reads this
      ensures a == Effective(themeMode, systemTheme)
    {
      if themeMode == System then systemTheme
      else if themeMode == Light then LightTheme
      else DarkTheme
    }

    method SetTheme(mode: ThemeMode)
      modifies this
      ensures themeMode == mode
      ensures isInitialized == old(isInitialized) && systemTheme == old(systemTheme)
    {
      themeMode := mode;
    }

    /** `cycleTheme`: the next entry of `modes`, wrapping around. */
    method CycleTheme()
      modifies this
      ensures themeMode == NextMode(old(themeMode))
      ensures isInitialized == old(isInitialized) && systemTheme == old(systemTheme)
    {
      var modes := Modes;
      var currentIndex := ModeIndex(themeMode);
      var nextIndex := (currentIndex + 1) % |modes|;
      SetTheme(modes[nextIndex]);
    }

    /** `initTheme` as written: report the thrown `TypeError`, or return early once initialised; the state does not change. */
    method InitThemeAsWritten() returns (r: Result<(ThemeMode, bool)>)
      ensures r == InitStepAsWritten(themeMode, isInitialized)
    {
      if isInitialized {
        return Ok((themeMode, isInitialized));
      }
      return Err(GetThemeMissing);
    }

    /** `initTheme` as intended: adopt a valid stored mode and mark the state initialised, unless that already happened. */
    method InitTheme(stored: Option<string>)
      modifies this
      ensures (themeMode, isInitialized) == InitStep(old(themeMode), old(isInitialized), stored)
      ensures systemTheme == old(systemTheme)
    {
      if isInitialized {
        return;
      }
      if stored.Some? && stored.value != "" {
        var parsed := ParseThemeMode(stored.value);
        if parsed.Some? {
          themeMode := parsed.value;
        }
      }
      isInitialized := true;
    }
  }
}
