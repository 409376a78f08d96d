/**
 * The theme provider: three flags, their toggles, and the theme string
 * recomputed from them after every change.  Saved preferences, when found
 * in browser storage, are an optional input to the mount step.
 */
module ThemeContext {
  import opened Wrappers
  import Text

  datatype ThemeFlags = ThemeFlags(isDarkMode: bool, isHighContrast: bool, isColorBlindMode: bool)

  /** The flags the provider starts with: dark, normal contrast, no colour-blind palette. */
  const Defaults: ThemeFlags := ThemeFlags(true, false, false)

  const DarkBase: string := "dark"
  const LightBase: string := "light"
  const HighContrastSuffix: string := "-high-contrast"
  const ColorBlindSuffix: string := "-color-blind"

  /**
   * The theme string: the base, then the high-contrast suffix if that flag
   * is set, then the colour-blind suffix if that flag is set.  Only the
   * default flags give the bare `"dark"`, and only light mode without either
   * option gives the bare `"light"`.
   */
  function ThemeString(f: ThemeFlags): (r: string)
    ensures Text.IsPrefix(if f.isDarkMode then DarkBase else LightBase, r)
    ensures r == DarkBase <==> f == Defaults
    ensures r == LightBase <==> f == Defaults.(isDarkMode := false)
  {
    (if f.isDarkMode then DarkBase else LightBase)
      + (if f.isHighContrast then HighContrastSuffix else "")
      + (if f.isColorBlindMode then ColorBlindSuffix else "")
  }

  /** The effect's step-by-step construction of the string with `+=`. */
  method ComposeTheme(f: ThemeFlags) returns (themeString: string)
    ensures themeString == ThemeString(f)
    ensures f == Defaults ==> themeString == DarkBase
  {
    themeString := if f.isDarkMode then DarkBase else LightBase;
    if f.isHighContrast {
      themeString := themeString + HighContrastSuffix;
    }
    if f.isColorBlindMode {
      themeString := themeString + ColorBlindSuffix;
    }
  }

  /**
   * Reads the flags back from a theme string; the inverse of `ThemeString`:
   * whatever it accepts is the theme string of the flags it returns.
   */
  function ParseTheme(s: string): (r: Option<ThemeFlags>)
    ensures r.Some? ==> ThemeString(r.value) == s
  {
    if |s| >= |DarkBase| && s[..|DarkBase|] == DarkBase then
      assert s == DarkBase + s[|DarkBase|..];
      ParseSuffixes(true, s[|DarkBase|..])
    else if |s| >= |LightBase| && s[..|LightBase|] == LightBase then
      assert s == LightBase + s[|LightBase|..];
      ParseSuffixes(false, s[|LightBase|..])
    else None
  }

  function ParseSuffixes(dark: bool, rest: string): (r: Option<ThemeFlags>)
    ensures r.Some? ==> r.value.isDarkMode == dark
    ensures r.Some? ==> rest == (if r.value.isHighContrast then HighContrastSuffix else "")
                                + (if r.value.isColorBlindMode then ColorBlindSuffix else "")
  {
    if rest == "" then Some(ThemeFlags(dark, false, false))
    else if rest == HighContrastSuffix then Some(ThemeFlags(dark, true, false))
    else if rest == ColorBlindSuffix then Some(ThemeFlags(dark, false, true))
    else if rest == HighContrastSuffix + ColorBlindSuffix then Some(ThemeFlags(dark, true, true))
    else None
  }

  /** Every theme string reads back as the flags it was built from. */
  lemma ParseThemeString(f: ThemeFlags)
    ensures ParseTheme(ThemeString(f)) == Some(f)
  {
    var base := if f.isDarkMode then DarkBase else LightBase;
    var rest := (if f.isHighContrast then HighContrastSuffix else "")
                + (if f.isColorBlindMode then ColorBlindSuffix else "");
    var s := ThemeString(f);
    assert s == base + rest;
    assert s[..|base|] == base;
    assert s[|base|..] == rest;
    if !f.isDarkMode {
      assert s[..|DarkBase|] != DarkBase by {
        assert s[0] == 'l';
      }
    }
  }

  /** So distinct flag triples give distinct theme strings. */
  lemma ThemeStringInjective(f: ThemeFlags, g: ThemeFlags)
    requires ThemeString(f) == ThemeString(g)
    ensures f == g
  {
    ParseThemeString(f);
    ParseThemeString(g);
  }

  function DarkModeToggled(f: ThemeFlags): (r: ThemeFlags)
    ensures r.isDarkMode == !f.isDarkMode
    ensures r.isHighContrast == f.isHighContrast && r.isColorBlindMode == f.isColorBlindMode
  {
    f.(isDarkMode := !f.isDarkMode)
  }

  function HighContrastToggled(f: ThemeFlags): (r: ThemeFlags)
    ensures r.isHighContrast == !f.isHighContrast
    ensures r.isDarkMode == f.isDarkMode && r.isColorBlindMode == f.isColorBlindMode
  {
    f.(isHighContrast := !f.isHighContrast)
  }

  function ColorBlindModeToggled(f: ThemeFlags): (r: ThemeFlags)
    ensures r.isColorBlindMode == !f.isColorBlindMode
    ensures r.isDarkMode == f.isDarkMode && r.isHighContrast == f.isHighContrast
  {
    f.(isColorBlindMode := !f.isColorBlindMode)
  }

  /** Toggling the same flag twice restores the flags, hence the theme string. */
  lemma ToggleTwice(f: ThemeFlags)
    ensures DarkModeToggled(DarkModeToggled(f)) == f
    ensures HighContrastToggled(HighContrastToggled(f)) == f
    ensures ColorBlindModeToggled(ColorBlindModeToggled(f)) == f
  {
  }

  /** Any single toggle changes the theme string. */
  lemma ToggleChangesTheme(f: ThemeFlags)
    ensures ThemeString(DarkModeToggled(f)) != ThemeString(f)
    ensures ThemeString(HighContrastToggled(f)) != ThemeString(f)
    ensures ThemeString(ColorBlindModeToggled(f)) != ThemeString(f)
  {
    if ThemeString(DarkModeToggled(f)) == ThemeString(f) {
      ThemeStringInjective(DarkModeToggled(f), f);
    }
    if ThemeString(HighContrastToggled(f)) == ThemeString(f) {
      ThemeStringInjective(HighContrastToggled(f), f);
    }
    if ThemeString(ColorBlindModeToggled(f)) == ThemeString(f) {
      ThemeStringInjective(ColorBlindModeToggled(f), f);
    }
  }

  class Provider {
    var isDarkMode: bool
    var isHighContrast: bool
    var isColorBlindMode: bool
    var theme: string

    function Flags(): ThemeFlags
      reads this
    {
      ThemeFlags(isDarkMode, isHighContrast, isColorBlindMode)
    }

    /** The theme string agrees with the flags once the effect has run. */
    ghost predicate Valid()
      reads this
    {
      theme == ThemeString(Flags())
    }

    constructor()
      ensures Flags() == Defaults && theme == DarkBase
      ensures Valid()
    {
      isDarkMode, isHighContrast, isColorBlindMode := true, false, false;
      theme := DarkBase;
    }

    /** The effect that runs after every flag change: rebuild the string. */
    method ApplyTheme()
      modifies this
      ensures Flags() == old(Flags())
      ensures Valid()
    {
      theme := ComposeTheme(Flags());
    }

    /** The mount step: adopt the saved flags, if any, then rebuild the string. */
    method Load(saved: Option<ThemeFlags>)
      modifies this
      ensures Flags() == (if saved.Some? then saved.value else old(Flags()))
      ensures Valid()
    {
      if saved.Some? {
        isDarkMode := saved.value.isDarkMode;
        isHighContrast := saved.value.isHighContrast;
        isColorBlindMode := saved.value.isColorBlindMode;
      }
      ApplyTheme();
    }

    method ToggleDarkMode()
      modifies this
      ensures Flags() == DarkModeToggled(old(Flags()))
      ensures Valid()
    {
      isDarkMode := !isDarkMode;
      ApplyTheme();
    }

    method ToggleHighContrast()
      modifies this
      ensures Flags() == HighContrastToggled(old(Flags()))
      ensures Valid()
    {
      isHighContrast := !isHighContrast;
      ApplyTheme();
    }

    method ToggleColorBlindMode()
      modifies this
      ensures Flags() == ColorBlindModeToggled(old(Flags()))
      ensures Valid()
    {
      isColorBlindMode := !isColorBlindMode;
      ApplyTheme();
    }
  }
}
