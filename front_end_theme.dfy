/**
 * The theme decision of `front_end/lib/theme.ts`: the same `getInitialTheme`
 * chain, and an inline script that validates the saved value the same way.
 */
module FrontEndTheme {
  import opened Wrappers
  import opened RootTheme

  /** `getInitialTheme()`. */
  function GetInitialTheme(env: Env): (t: Theme)
    ensures env.Server? ==> t == Light
    ensures env.Browser? && IsThemeText(env.saved) ==> ThemeText(t) == env.saved.value
    ensures env.Browser? && !IsThemeText(env.saved) ==> (t == Dark <==> env.prefersDark)
  {
    if env.Server? then Light
    else
      var saved := env.saved;
      if saved == Some("light") || saved == Some("dark") then (if saved.value == "light" then Light else Dark)
      else if env.prefersDark then Dark
      else Light
  }

  /**
   * The inline script's decision: a saved "light" or "dark" is the theme,
   * anything else gives way to the system preference.
   */
  function ScriptAddsDark(saved: Option<string>, prefersDark: bool): (dark: bool)
    ensures IsThemeText(saved) ==> (dark <==> saved == Some("dark"))
    ensures !IsThemeText(saved) ==> (dark <==> prefersDark)
  {
    var theme := if saved == Some("light") || saved == Some("dark") then saved.value
                 else if prefersDark then "dark" else "light";
    theme == "dark"
  }

  /** A saved "light" or "dark" is returned as it is, whatever the system prefers. */
  lemma SavedThemeWins(t: Theme, prefersDark: bool)
    ensures GetInitialTheme(Browser(Some(ThemeText(t)), prefersDark)) == t
  {
  }

  /** An invalid or missing saved value falls through to the system preference. */
  lemma InvalidSavedValueIgnored(saved: Option<string>, prefersDark: bool)
    requires !IsThemeText(saved)
    ensures GetInitialTheme(Browser(saved, prefersDark)) == (if prefersDark then Dark else Light)
  {
  }

  /** In every browser state the script adds the dark class exactly when `getInitialTheme` is dark. */
  lemma ScriptAgreesWithInitialTheme(saved: Option<string>, prefersDark: bool)
    ensures ScriptAddsDark(saved, prefersDark) <==> GetInitialTheme(Browser(saved, prefersDark)) == Dark
  {
  }

  /** The two `getInitialTheme` functions make the same decision. */
  lemma SameAsRootInitialTheme(env: Env)
    ensures GetInitialTheme(env) == RootTheme.GetInitialTheme(env)
  {
  }
}
