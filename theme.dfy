/**
 * The theme provider (`ThemeProvider` in the theme context): a light/dark
 * mode that starts dark, is loaded once from the device store behind a
 * one-shot `isReady` flag, and flips on `toggleTheme`, which persists the new
 * mode. The two colour themes are the constants of the colour table.
 */
module Theme {
  import opened Wrappers
  import opened CoinTypes

  /** `ThemeMode`: 'dark' | 'light'. */
  datatype ThemeMode = Dark | Light

  /** `ColorTheme`. */
  datatype ColorTheme = ColorTheme(
    primary: string,
    background: string,
    card: string,
    text: string,
    subtext: string,
    success: string,
    error: string,
    border: string)

  const DarkTheme := ColorTheme("#4A90E2", "#0A0A1F", "#11173cff", "#FFFFFF",
                                "#D4D4D4", "#00FF7F", "#FF4136", "#3A3A5F")
  const LightTheme := ColorTheme("#4A90E2", "#F0F0F5", "#FFFFFF", "#1C1C1C",
                                 "#666666", "#10A045", "#DC3545", "#E0E0E0")

  /** The string stored for a mode. */
  function ModeName(m: ThemeMode): (s: string)
    ensures s == "dark" <==> m == Dark
    ensures s == "light" <==> m == Light
  {
    match m
    case Dark => "dark"
    case Light => "light"
  }

  /** The stored value is adopted only when it is exactly 'light' or 'dark'. */
  function ParseStoredMode(stored: Option<string>): (r: Option<ThemeMode>)
    ensures r.Some? <==> stored == Some("light") || stored == Some("dark")
    ensures r.Some? ==> stored == Some(ModeName(r.value))
  {
    if stored == Some("light") then Some(Light)
    else if stored == Some("dark") then Some(Dark)
    else None
  }

  /** What the toggle persists is read back as the same mode. */
  lemma StoredModeRoundTrip(m: ThemeMode)
    ensures ParseStoredMode(Some(ModeName(m))) == Some(m)
  {
  }

  /** `theme`: the dark colours exactly for the dark mode. */
  function ThemeFor(m: ThemeMode): (t: ColorTheme)
    ensures t == DarkTheme <==> m == Dark
    ensures t == LightTheme <==> m == Light
  {
    assert DarkTheme.background[1] != LightTheme.background[1];
    match m
    case Dark => DarkTheme
    case Light => LightTheme
  }

  /** `newMode` in `toggleTheme`: dark becomes light, anything else dark. */
  function Toggled(m: ThemeMode): (r: ThemeMode)
    ensures r != m
  {
    match m
    case Dark => Light
    case Light => Dark
  }

  lemma ToggledInvolution(m: ThemeMode)
    ensures Toggled(Toggled(m)) == m
  {
  }

  /** A read of the theme key: the stored string (or null), or a read that threw. */
  datatype StoredRead = ReadFailed | ReadValue(value: Option<string>)

  /** The context value given to consumers once the provider renders. */
  datatype ThemeContextValue = ThemeContextValue(theme: ColorTheme, mode: ThemeMode, isReady: bool)

  class ThemeProvider {
    var mode: ThemeMode
    /** Set once the stored preference has been read, whatever the read gave. */
    var isReady: bool
    /** Writes to the device store, in the order issued. */
    ghost var log: seq<SideEffect>

    constructor ()
      ensures mode == Dark && !isReady && log == []
    {
      mode := Dark;
      isReady := false;
      log := [];
    }

    /** `loadTheme`: adopt a valid stored mode; `isReady` becomes true in every case. */
    method LoadTheme(stored: StoredRead)
      modifies this
      ensures isReady
      ensures stored.ReadValue? && ParseStoredMode(stored.value).Some? ==>
                mode == ParseStoredMode(stored.value).value
      ensures stored.ReadFailed? || ParseStoredMode(stored.value).None? ==> mode == old(mode)
      ensures log == old(log)
    {
      if stored.ReadValue? {
        var parsed := ParseStoredMode(stored.value);
        if parsed.Some? {
          mode := parsed.value;
        }
      }
      isReady := true;
    }

    /** `toggleTheme`: flip the mode and persist exactly the new one. */
    method ToggleTheme()
      modifies this
      ensures mode == Toggled(old(mode))
      ensures isReady == old(isReady)
      ensures log == old(log) + [SaveThemeMode(ModeName(mode))]
    {
      var newMode := Toggled(mode);
      log := log + [SaveThemeMode(ModeName(newMode))];
      mode := newMode;
    }

    /** The provider renders nothing until ready, then the theme matching the mode. */
    method Render() returns (v: Option<ThemeContextValue>)
      ensures v.None? <==> !isReady
      ensures v.Some? ==> v.value == ThemeContextValue(ThemeFor(mode), mode, true)
    {
      if !isReady {
        return None;
      }
      return Some(ThemeContextValue(ThemeFor(mode), mode, isReady));
    }
  }

  /** Two toggles restore the mode, persisting first the flipped and then the original mode. */
  method ToggleTwiceRestores(p: ThemeProvider)
    modifies p
    ensures p.mode == old(p.mode) && p.isReady == old(p.isReady)
    ensures p.log == old(p.log) + [SaveThemeMode(ModeName(Toggled(old(p.mode)))), SaveThemeMode(ModeName(old(p.mode)))]
  {
    p.ToggleTheme();
    p.ToggleTheme();
    ToggledInvolution(old(p.mode));
  }
}
