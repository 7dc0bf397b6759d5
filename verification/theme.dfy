/** The theme context (src/context/ThemeContext.tsx): the chosen theme, the
    device's colour scheme, and the light or dark theme actually applied.
    The scheme the device reports and the stored settings are inputs. */
module Theme {
  import opened Base
  import opened Types

  /** A theme that can be applied. */
  datatype Mode = LightMode | DarkMode

  /** The device's scheme; a device that reports none counts as dark. */
  function SystemMode(scheme: Option<Mode>): (r: Mode)
    ensures scheme.Some? ==> r == scheme.value
    ensures scheme.None? ==> r == DarkMode
  {
    if scheme.Some? then scheme.value else DarkMode
  }

  /** The theme applied for a choice: the device's for 'system', otherwise the choice. */
  function Resolve(theme: ThemeType, scheme: Option<Mode>): (r: Mode)
    ensures theme == Light ==> r == LightMode
    ensures theme == Dark ==> r == DarkMode
    ensures theme == System ==> r == SystemMode(scheme)
  {
    match theme
    case Light => LightMode
    case Dark => DarkMode
    case System => SystemMode(scheme)
  }

  /** The context's state; `current` is kept equal to the resolution of `theme`
      by an effect that re-runs whenever the theme or the scheme changes. */
  datatype State = State(theme: ThemeType, scheme: Option<Mode>, current: Mode)

  predicate Settled(s: State) {
    s.current == Resolve(s.theme, s.scheme)
  }

  /** The state on mount: theme 'system', applied as the device's scheme. */
  function Initial(scheme: Option<Mode>): (r: State)
    ensures r.theme == System && r.scheme == scheme
    ensures r.current == SystemMode(scheme)
  {
    State(System, scheme, Resolve(System, scheme))
  }

  /** `setTheme` followed by the effect. */
  function SetTheme(s: State, theme: ThemeType): (r: State)
    ensures r.theme == theme && r.scheme == s.scheme
    ensures Settled(r)
  {
    State(theme, s.scheme, Resolve(theme, s.scheme))
  }

  /** The device changes scheme; the effect re-resolves. */
  function SchemeChanged(s: State, scheme: Option<Mode>): (r: State)
    ensures r.theme == s.theme && r.scheme == scheme
    ensures Settled(r)
  {
    State(s.theme, scheme, Resolve(s.theme, scheme))
  }

  /** The mount-time load of the stored settings. `Ok(None)` stands for an
      answer with no settings or an empty theme; only a present theme is
      taken, and a failure is only logged. */
  function LoadTheme(s: State, answer: Result<Option<ThemeType>>): (r: State)
    ensures answer.Ok? && answer.value.Some? ==> r == SetTheme(s, answer.value.value)
    ensures !(answer.Ok? && answer.value.Some?) ==> r == s
  {
    match answer
    case Ok(Some(t)) => SetTheme(s, t)
    case _ => s
  }

  /** Every transition leaves the applied theme in step with the choice. */
  lemma SettledAlways(s: State, t: ThemeType, scheme: Option<Mode>, answer: Result<Option<ThemeType>>)
    requires Settled(s)
    ensures Settled(Initial(scheme))
    ensures Settled(SetTheme(s, t)) && Settled(SchemeChanged(s, scheme)) && Settled(LoadTheme(s, answer))
  {
  }

  /** A fixed choice ignores the device; 'system' follows it. */
  lemma FixedIgnoresDevice(s: State, scheme: Option<Mode>)
    requires Settled(s)
    ensures s.theme != System ==> SchemeChanged(s, scheme).current == s.current
    ensures s.theme == System ==> SchemeChanged(s, scheme).current == SystemMode(scheme)
  {
  }

  /** The last theme set wins, and setting the current theme changes nothing. */
  lemma SetThemeLastWins(s: State, a: ThemeType, b: ThemeType)
    ensures SetTheme(SetTheme(s, a), b) == SetTheme(s, b)
    ensures Settled(s) ==> SetTheme(s, s.theme) == s
  {
  }
}
