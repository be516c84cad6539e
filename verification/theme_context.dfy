/**
 * The light/dark theme: chosen on mount from the saved preference or, when
 * there is none, from the system's colour scheme; set explicitly (and then
 * saved), toggled, or following the system while nothing is saved. The
 * saved preference and the document's "dark" class are fields of the state.
 */
module ThemeContext {
  import opened Seqs

  datatype Theme = Light | Dark

  /** The value written to storage for a theme. */
  function ThemeName(t: Theme): (r: string)
    ensures r == "dark" <==> t == Dark
    ensures r == "light" <==> t == Light
  {
    match t
    case Light => "light"
    case Dark => "dark"
  }

  /** !localStorage.getItem(key): no item, or the empty string. */
  predicate NothingSaved(saved: Option<string>)
  {
    saved.None? || saved.value == ""
  }

  /** The theme chosen on mount: the saved "dark", or the system's preference when nothing is saved. */
  function InitialTheme(saved: Option<string>, prefersDark: bool): Theme
  {
    if saved == Some("dark") || (NothingSaved(saved) && prefersDark) then Dark else Light
  }

  /**
   * A saved choice wins over the system: a saved "light" (or any value other
   * than "dark") opens light even on a dark system, and only an empty
   * preference lets the system decide.
   */
  lemma InitialThemeChoice(saved: Option<string>, prefersDark: bool)
    ensures InitialTheme(saved, prefersDark) == Dark <==> saved == Some("dark") || (NothingSaved(saved) && prefersDark)
    ensures saved.Some? && saved.value != "" ==> InitialTheme(saved, prefersDark) == InitialTheme(saved, !prefersDark)
    ensures NothingSaved(saved) ==> (InitialTheme(saved, prefersDark) == Dark <==> prefersDark)
    ensures InitialTheme(Some(ThemeName(Light)), true) == Light
  {
  }

  /** The theme toggleTheme asks for. */
  function Flip(t: Theme): (r: Theme)
    ensures r != t
  {
    if t == Dark then Light else Dark
  }

  /** Toggling twice returns to the original theme. */
  lemma FlipTwice(t: Theme)
    ensures Flip(Flip(t)) == t
  {
  }

  /** A theme read back from storage is the theme written. */
  lemma SavedThemeReadsBack(t: Theme, prefersDark: bool)
    ensures InitialTheme(Some(ThemeName(t)), prefersDark) == t
  {
  }

  class ThemeState {
    var theme: Theme
    /** The stored preference. */
    var saved: Option<string>
    /** Whether the document element carries the "dark" class. */
    var darkClass: bool

    /** The document's dark class follows the theme. */
    predicate Valid()
      reads this
    {
      darkClass <==> theme == Dark
    }

    /** isDarkMode: theme === 'dark'. */
    predicate IsDarkMode()
      reads this
    {
      theme == Dark
    }

    /** The provider after its mount effect. */
    constructor(stored: Option<string>, prefersDark: bool)
      ensures theme == InitialTheme(stored, prefersDark) && saved == stored
      ensures Valid()
    {
      theme := InitialTheme(stored, prefersDark);
      saved := stored;
      darkClass := InitialTheme(stored, prefersDark) == Dark;
    }

    /** setTheme: the state, the stored preference and the dark class all follow the new theme. */
    method SetTheme(t: Theme)
      modifies this
      ensures theme == t && saved == Some(ThemeName(t))
      ensures Valid() && (IsDarkMode() <==> t == Dark)
    {
      theme := t;
      saved := Some(ThemeName(t));
      if t == Dark {
        darkClass := true;
      } else {
        darkClass := false;
      }
    }

    /** toggleTheme: setTheme with the other theme, which is then saved. */
    method ToggleTheme()
      modifies this
      ensures theme == Flip(old(theme)) && saved == Some(ThemeName(theme))
      ensures Valid() && (IsDarkMode() <==> !old(IsDarkMode()))
    {
      SetTheme(if theme == Dark then Light else Dark);
    }

    /**
     * The system's colour scheme changed: the theme follows it only when no
     * preference is saved; the saved preference is never written here.
     */
    method MediaChange(matches: bool)
      requires Valid()
      modifies this
      ensures NothingSaved(saved) ==> theme == (if matches then Dark else Light)
      ensures !NothingSaved(saved) ==> theme == old(theme)
      ensures saved == old(saved) && Valid()
    {
      if NothingSaved(saved) {
        var newTheme := if matches then Dark else Light;
        theme := newTheme;
        if newTheme == Dark {
          darkClass := true;
        } else {
          darkClass := false;
        }
      }
    }
  }
}
