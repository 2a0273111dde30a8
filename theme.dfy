/**
 * Light/dark theme preference (src/theme.ts): a stored choice, the
 * operating system's preference and a dark default, mirrored into the
 * body's class list and announced with a `themechange` event.
 */
module Theme {
  import opened Wrappers
  import Storage

  datatype Theme = Dark | Light

  /** The string a theme is stored and announced as. */
  function Name(t: Theme): string {
    match t
    case Dark => "dark"
    case Light => "light"
  }

  const ThemeKey := "theme"
  const LightModeClass := "light-mode"
  const DarkModeClass := "dark-mode"

  /**
   * `getTheme()`'s decision. Without a window the answer is dark; otherwise a
   * stored "light" or "dark" wins, and failing that the system's
   * `prefers-color-scheme: light` picks light and anything else dark.
   */
  function Preferred(hasWindow: bool, stored: Option<string>, prefersLight: bool): (t: Theme)
    ensures !hasWindow ==> t == Dark
    ensures hasWindow ==> (t == Light <==> stored == Some("light") || (stored != Some("dark") && prefersLight))
  {
    if !hasWindow then Dark
    else if stored == Some("light") then Light
    else if stored == Some("dark") then Dark
    else if prefersLight then Light
    else Dark
  }

  /** A stored theme is returned whatever the system prefers. */
  lemma StoredThemeWins(t: Theme, prefersLight: bool)
    ensures Preferred(true, Some(Name(t)), prefersLight) == t
  {
  }

  /** With nothing valid stored, the system preference decides, and dark is the default. */
  lemma SystemPreferenceDecides(stored: Option<string>, prefersLight: bool)
    requires stored != Some("light") && stored != Some("dark")
    ensures Preferred(true, stored, prefersLight) == Light <==> prefersLight
    ensures Preferred(false, stored, prefersLight) == Dark
  {
  }

  /** `classList.toggle(name, force)` */
  function Toggle(classes: set<string>, name: string, force: bool): set<string> {
    if force then classes + {name} else classes - {name}
  }

  /** The body's classes after `setTheme(t)`: exactly one of the two mode classes, the rest untouched. */
  function WithThemeClass(classes: set<string>, t: Theme): (r: set<string>)
    ensures LightModeClass in r <==> t == Light
    ensures DarkModeClass in r <==> t == Dark
    ensures forall c :: c != LightModeClass && c != DarkModeClass ==> (c in r <==> c in classes)
  {
    Toggle(Toggle(classes, LightModeClass, t == Light), DarkModeClass, t == Dark)
  }

  /** The browser page: its storage, its body's classes and the theme events it has seen. */
  class Page {
    const storage: Storage.LocalStorage
    /** `window.matchMedia('(prefers-color-scheme: light)').matches` */
    const prefersLight: bool
    var bodyClasses: set<string>
    /** The `detail` of every `themechange` event dispatched, oldest first. */
    var events: seq<Theme>

    constructor (storage: Storage.LocalStorage, prefersLight: bool, bodyClasses: set<string>)
      ensures this.storage == storage && this.prefersLight == prefersLight
      ensures this.bodyClasses == bodyClasses && events == []
    {
      this.storage := storage;
      this.prefersLight := prefersLight;
      this.bodyClasses := bodyClasses;
      events := [];
    }

    /** `getTheme()` in a browser. */
    function GetTheme(): (t: Theme)
      reads this, storage
      ensures storage.GetItem(ThemeKey) == Some("light") ==> t == Light
      ensures storage.GetItem(ThemeKey) == Some("dark") ==> t == Dark
      ensures storage.GetItem(ThemeKey) != Some("light") && storage.GetItem(ThemeKey) != Some("dark")
              ==> (t == Light <==> prefersLight)
    {
      Preferred(true, storage.GetItem(ThemeKey), prefersLight)
    }

    method SetTheme(t: Theme)
      modifies this, storage
      ensures storage.items == old(storage.items)[ThemeKey := Name(t)]
      ensures bodyClasses == WithThemeClass(old(bodyClasses), t)
      ensures events == old(events) + [t]
      ensures GetTheme() == t
    {
      storage.SetItem(ThemeKey, Name(t));
      bodyClasses := Toggle(bodyClasses, LightModeClass, t == Light);
      bodyClasses := Toggle(bodyClasses, DarkModeClass, t == Dark);
      events := events + [t];
      StoredThemeWins(t, prefersLight);
    }

    method SyncThemeWithBody()
      modifies this, storage
      ensures GetTheme() == old(GetTheme())
      ensures storage.items == old(storage.items)[ThemeKey := Name(old(GetTheme()))]
      ensures bodyClasses == WithThemeClass(old(bodyClasses), old(GetTheme()))
      ensures events == old(events) + [old(GetTheme())]
    {
      var t := GetTheme();
      SetTheme(t);
    }
  }
}
