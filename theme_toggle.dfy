/** The theme toggle: the `theme` state, the `theme` item of local
    storage and the `dark` class on the document element. The system
    colour-scheme preference is an input. */
module ThemeToggle {
  import opened Common

  const Light := "light"
  const Dark := "dark"

  /** `localStorage`, as far as the `theme` item goes. */
  class Preferences {
    var theme: Option<string>

    constructor (theme: Option<string>)
      ensures this.theme == theme
    {
      this.theme := theme;
    }
  }

  /** `document.documentElement.classList`, as far as `dark` goes. */
  class Root {
    var dark: bool

    constructor (dark: bool)
      ensures this.dark == dark
    {
      this.dark := dark;
    }
  }

  /** The theme the mount effect picks: a saved (non-empty) value as it is
      stored, otherwise the system preference. */
  function InitialTheme(saved: Option<string>, prefersDark: bool): (t: string)
    ensures Truthy(saved) ==> t == saved.value
    ensures !Truthy(saved) ==> (t == Dark <==> prefersDark) && t in {Light, Dark}
  {
    if Truthy(saved) then saved.value else if prefersDark then Dark else Light
  }

  /** `theme === 'light' ? 'dark' : 'light'`. */
  function Next(theme: string): (t: string)
    ensures t in {Light, Dark} && t != theme
    ensures theme == Dark ==> t == Light
  {
    if theme == Light then Dark else Light
  }

  /** Toggling twice restores a light or dark theme. */
  lemma NextInvolution(theme: string)
    requires theme in {Light, Dark}
    ensures Next(Next(theme)) == theme
  {
  }

  /** Any other stored value toggles to light, then back and forth. */
  lemma NextOfOther(theme: string)
    requires theme !in {Light, Dark}
    ensures Next(theme) == Light && Next(Next(theme)) == Dark
  {
  }

  /** The component's state and the two pieces of the page it writes. */
  class Toggle {
    var theme: string
    const prefs: Preferences
    const root: Root

    /** The class follows the theme. */
    predicate Shown()
      reads this, root
    {
      root.dark <==> theme == Dark
    }

    constructor (prefs: Preferences, root: Root)
      ensures theme == Light && this.prefs == prefs && this.root == root
    {
      theme := Light;
      this.prefs := prefs;
      this.root := root;
    }

    /** The mount effect: picks the initial theme and sets the class; the
        stored value is only read. */
    method Mount(prefersDark: bool)
      modifies this, root
      ensures theme == InitialTheme(prefs.theme, prefersDark) && Shown()
    {
      var savedTheme := prefs.theme;
      var initialTheme;
      if Truthy(savedTheme) {
        initialTheme := savedTheme.value;
      } else {
        initialTheme := if prefersDark then Dark else Light;
      }
      theme := initialTheme;
      root.dark := initialTheme == Dark;
    }

    /** `toggleTheme`: the other theme, persisted, with the class set. */
    method ToggleTheme()
      modifies this, prefs, root
      ensures theme == Next(old(theme)) && prefs.theme == Some(theme) && Shown()
    {
      var newTheme := if theme == Light then Dark else Light;
      theme := newTheme;
      prefs.theme := Some(newTheme);
      root.dark := newTheme == Dark;
    }
  }

  /** A toggled theme survives a reload: mounting again, whatever the
      system preference, brings back the theme chosen last. */
  method ToggleThenRemount(t: Toggle, prefersDark: bool) returns (chosen: string)
    modifies t, t.prefs, t.root
    ensures chosen == t.theme && t.Shown()
    ensures chosen in {Light, Dark}
  {
    t.ToggleTheme();
    chosen := t.theme;
    t.Mount(prefersDark);
  }

  /** Toggling twice from a light or dark theme restores it and the class. */
  method ToggleTwice(t: Toggle) returns (stored: Option<string>)
    requires t.theme in {Light, Dark}
    modifies t, t.prefs, t.root
    ensures t.theme == old(t.theme) && t.Shown() && stored == Some(old(t.theme))
  {
    t.ToggleTheme();
    t.ToggleTheme();
    NextInvolution(old(t.theme));
    stored := t.prefs.theme;
  }
}
