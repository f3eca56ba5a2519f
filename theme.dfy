/** The light/dark theme choice, kept under "AppTheme" in the settings store. */
module Theme {
  import opened Wrappers
  import Settings

  datatype ThemeMode = Light | Dark

  const ThemeKey: string := "AppTheme"

  /** `theme.ToString()`. */
  function Name(t: ThemeMode): string {
    match t
    case Light => "Light"
    case Dark => "Dark"
  }

  /** `Enum.TryParse<ThemeMode>` on the stored text (None for a missing key). */
  function Parse(stored: Option<string>): Option<ThemeMode> {
    if stored == Some("Light") then Some(Light)
    else if stored == Some("Dark") then Some(Dark)
    else None
  }

  /** The theme in effect: the stored one if it parses, Light otherwise. */
  function CurrentTheme(settings: map<string, string>): ThemeMode {
    Parse(if ThemeKey in settings then Some(settings[ThemeKey]) else None).GetOr(Light)
  }

  /** The theme a toggle switches to. */
  function Toggled(t: ThemeMode): ThemeMode {
    if t == Light then Dark else Light
  }

  /** Names parse back to their theme, and only the two names parse. */
  lemma ParseName(t: ThemeMode, s: string)
    ensures Parse(Some(Name(t))) == Some(t)
    ensures Parse(Some(s)) == Some(t) ==> s == Name(t)
  {
  }

  /** After setting a theme it is the current theme. */
  lemma SetThenGet(settings: map<string, string>, t: ThemeMode)
    ensures CurrentTheme(settings[ThemeKey := Name(t)]) == t
  {
    ParseName(t, Name(t));
  }

  /** Toggling twice from a stored valid theme stores the same text again,
      and a journal with no stored theme is light and toggles to dark. */
  lemma ToggleTwice(settings: map<string, string>)
    ensures var once := settings[ThemeKey := Name(Toggled(CurrentTheme(settings)))];
            var twice := once[ThemeKey := Name(Toggled(CurrentTheme(once)))];
            && CurrentTheme(twice) == CurrentTheme(settings)
            && (ThemeKey in settings && Parse(Some(settings[ThemeKey])).Some? ==> twice == settings)
    ensures ThemeKey !in settings ==>
              CurrentTheme(settings) == Light && CurrentTheme(settings[ThemeKey := Name(Toggled(CurrentTheme(settings)))]) == Dark
  {
    var t := CurrentTheme(settings);
    var once := settings[ThemeKey := Name(Toggled(t))];
    SetThenGet(settings, Toggled(t));
    var twice := once[ThemeKey := Name(Toggled(CurrentTheme(once)))];
    SetThenGet(once, Toggled(Toggled(t)));
    if ThemeKey in settings && Parse(Some(settings[ThemeKey])).Some? {
      ParseName(t, settings[ThemeKey]);
      assert twice == settings[ThemeKey := settings[ThemeKey]];
    }
  }

  class ThemeService {
    const store: Settings.SettingsStore

    constructor (store: Settings.SettingsStore)
      ensures this.store == store
    {
      this.store := store;
    }

    /** `GetCurrentThemeAsync`. */
    method GetCurrentTheme() returns (theme: ThemeMode)
      ensures theme == CurrentTheme(store.values)
    {
      var themeValue := store.Get(ThemeKey);
      var parsed := Parse(themeValue);
      theme := if parsed.Some? then parsed.value else Light;
    }

    /** `SetThemeAsync`: the theme's name is stored under "AppTheme". */
    method SetTheme(theme: ThemeMode)
      modifies store
      ensures store.values == old(store.values)[ThemeKey := Name(theme)]
    {
      store.Save(ThemeKey, Name(theme));
    }

    /** `ToggleThemeAsync`: Light becomes Dark, anything else Light. */
    method ToggleTheme()
      modifies store
      ensures store.values == old(store.values)[ThemeKey := Name(Toggled(CurrentTheme(old(store.values))))]
    {
      var currentTheme := GetCurrentTheme();
      var newTheme := if currentTheme == Light then Dark else Light;
      SetTheme(newTheme);
    }
  }
}
