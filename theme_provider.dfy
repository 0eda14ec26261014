/**
 * The theme provider's state machine: `theme` (initially light) and
 * `mounted` (initially false); a mount effect that reads the initial theme;
 * an apply effect that, once mounted, keeps the document's `dark` class and
 * the stored `"theme"` value in step with `theme`; and the toggle.
 */
module ThemeProvider {
  import opened Wrappers
  import opened RootTheme

  /** The functional update `toggleTheme` passes to `setTheme`. */
  function ToggledTheme(t: Theme): (r: Theme)
    ensures r != t
    ensures t == Light ==> r == Dark
  {
    if t == Light then Dark else Light
  }

  /** Toggling twice restores the theme. */
  lemma ToggleTwice(t: Theme)
    ensures ToggledTheme(ToggledTheme(t)) == t
  {
  }

  /** The value the provider hands to the components below it. */
  datatype ThemeContext = ThemeContext(theme: Theme)

  /** `useTheme()`: the context value, or the error it throws outside a provider. */
  function UseTheme(ctx: Option<ThemeContext>): (r: Result<ThemeContext, string>)
    ensures r.Failure? <==> ctx.None?
    ensures r.Success? ==> ctx == Some(r.value)
    ensures r.Failure? ==> r.error == "useTheme must be used within a ThemeProvider"
  {
    match ctx
    case None => Failure("useTheme must be used within a ThemeProvider")
    case Some(c) => Success(c)
  }

  class Provider {
    var theme: Theme
    var mounted: bool
    /** The class list of the document's root element. */
    var classes: set<string>
    /** The browser's local storage. */
    var storage: map<string, string>

    /** Once mounted, the `dark` class and the stored value both follow `theme`. */
    ghost predicate InStep()
      reads this
    {
      mounted ==>
        && ("dark" in classes <==> theme == Dark)
        && "theme" in storage && storage["theme"] == ThemeText(theme)
    }

    /** The stored `"theme"` value, if any (`localStorage.getItem("theme")`). */
    function SavedTheme(): (r: Option<string>)
      reads this
      ensures r.Some? <==> "theme" in storage
      ensures r.Some? ==> r.value == storage["theme"]
    {
      if "theme" in storage then Some(storage["theme"]) else None
    }

    /** The first render's state, over the page's current class list and storage. */
    constructor (classes0: set<string>, storage0: map<string, string>)
      ensures theme == Light && !mounted
      ensures classes == classes0 && storage == storage0
    {
      theme := Light;
      mounted := false;
      classes := classes0;
      storage := storage0;
    }

    /** The mount effect: marks the provider mounted and takes the initial theme. */
    method MountEffect(prefersDark: bool)
      modifies this
      ensures mounted
      ensures theme == GetInitialTheme(Browser(old(SavedTheme()), prefersDark))
      ensures classes == old(classes) && storage == old(storage)
    {
      mounted := true;
      theme := GetInitialTheme(Browser(SavedTheme(), prefersDark));
    }

    /**
     * The apply effect: before mounting it touches nothing; once mounted it
     * adds or removes the `dark` class and stores the theme.
     */
    method ApplyEffect()
      modifies this
      ensures theme == old(theme) && mounted == old(mounted)
      ensures !mounted ==> classes == old(classes) && storage == old(storage)
      ensures mounted ==>
        && classes == (if theme == Dark then old(classes) + {"dark"} else old(classes) - {"dark"})
        && storage == old(storage)["theme" := ThemeText(theme)]
      ensures mounted ==> InStep()
    {
      if mounted {
        if theme == Dark {
          classes := classes + {"dark"};
        } else {
          classes := classes - {"dark"};
        }
        storage := storage["theme" := ThemeText(theme)];
      }
    }

    /**
     * `toggleTheme`: light becomes dark and dark becomes light; nothing else
     * changes, so a mounted page is out of step until the apply effect runs.
     */
    method ToggleTheme()
      modifies this
      ensures theme == ToggledTheme(old(theme))
      ensures mounted == old(mounted) && classes == old(classes) && storage == old(storage)
      ensures mounted && old(InStep()) ==> !InStep()
    {
      theme := ToggledTheme(theme);
    }
  }
}
