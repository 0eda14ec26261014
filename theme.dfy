/**
 * The theme decision of `lib/theme.ts`: `getInitialTheme` (server render,
 * saved preference, system preference, default) and the decision made by
 * the inline script that `getInitialThemeScript` returns.
 */
module RootTheme {
  import opened Wrappers

  datatype Theme = Light | Dark

  /** The text a theme is stored and compared as. */
  function ThemeText(t: Theme): string {
    match t
    case Light => "light"
    case Dark => "dark"
  }

  /**
   * What the decision reads: on the server there is no window; in the
   * browser, the saved `"theme"` value (if any) and whether the system
   * prefers a dark colour scheme.
   */
  datatype Env = Server | Browser(saved: Option<string>, prefersDark: bool)

  /** A saved value is used only when it names a theme. */
  predicate IsThemeText(saved: Option<string>) {
    saved == Some("light") || saved == Some("dark")
  }

  /** `getInitialTheme()`. */
  function GetInitialTheme(env: Env): (t: Theme)
    ensures env.Server? ==> t == Light
    ensures env.Browser? && IsThemeText(env.saved) ==> ThemeText(t) == env.saved.value
    ensures env.Browser? && !IsThemeText(env.saved) ==> (t == Dark <==> env.prefersDark)
  {
    if env.Server? then Light
    else if env.saved == Some("light") then Light
    else if env.saved == Some("dark") then Dark
    else if env.prefersDark then Dark
    else Light
  }

  /**
   * The inline script's decision: whether it adds the `dark` class. Any
   * non-empty saved string is taken as the theme; without one, the system
   * preference decides.
   */
  function ScriptAddsDark(saved: Option<string>, prefersDark: bool): (dark: bool)
    ensures saved.Some? && saved.value != "" ==> (dark <==> saved.value == "dark")
    ensures saved.None? || saved.value == "" ==> (dark <==> prefersDark)
  {
    var theme := if saved.Some? && saved.value != "" then saved.value
                 else if prefersDark then "dark" else "light";
    theme == "dark"
  }

  /** On the server the initial theme is light. */
  lemma ServerIsLight()
    ensures GetInitialTheme(Server) == Light
  {
  }

  /** A saved theme is used whatever the system prefers. */
  lemma SavedThemeWins(t: Theme, prefersDark: bool)
    ensures GetInitialTheme(Browser(Some(ThemeText(t)), prefersDark)) == t
  {
  }

  /** Any other saved value, or none, is ignored and the system preference decides. */
  lemma InvalidSavedValueIgnored(saved: Option<string>, prefersDark: bool)
    requires !IsThemeText(saved)
    ensures GetInitialTheme(Browser(saved, prefersDark)) == GetInitialTheme(Browser(None, prefersDark))
    ensures GetInitialTheme(Browser(saved, prefersDark)) == (if prefersDark then Dark else Light)
  {
  }

  /** The initial theme is dark exactly when a browser saved "dark", or saved no theme and prefers dark. */
  lemma InitialThemeIsDark(env: Env)
    ensures GetInitialTheme(env) == Dark <==>
            env.Browser? && (env.saved == Some("dark") || (!IsThemeText(env.saved) && env.prefersDark))
  {
  }

  /**
   * The script and `getInitialTheme` disagree on the dark class exactly
   * when a non-empty saved value names no theme and the system prefers dark.
   */
  lemma ScriptDisagreement(saved: Option<string>, prefersDark: bool)
    ensures ScriptAddsDark(saved, prefersDark) != (GetInitialTheme(Browser(saved, prefersDark)) == Dark) <==>
            saved.Some? && saved.value != "" && !IsThemeText(saved) && prefersDark
  {
  }

  /** The case that shows it: a saved "blue" under a dark system preference. */
  lemma ScriptIgnoresPreferenceForBlue()
    ensures !ScriptAddsDark(Some("blue"), true)
    ensures GetInitialTheme(Browser(Some("blue"), true)) == Dark
  {
  }
}
