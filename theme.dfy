/** The app-wide colour theme: a light/dark mode, the palette that goes with
    it, and the provider that loads, sets and toggles the mode, saving it
    under its own storage key. */
module Theme {
  import opened Types

  datatype ThemeMode = Light | Dark

  /** The named colours of a theme. */
  datatype Palette = Palette(
    primary: string, primaryDark: string, primaryLight: string,
    background: string, surface: string, card: string,
    text: string, textSecondary: string, textTertiary: string,
    accent: string, success: string, warning: string, error: string, info: string,
    border: string, divider: string,
    shadow: string, overlay: string,
    headerBackground: string, headerGradient: string, headerText: string,
    headerSubtext: string, logoBackground: string)

  datatype Theme = Theme(mode: ThemeMode, colors: Palette)

  function LightColors(): Palette
  {
    Palette(
      "#27ae60", "#1e8449", "#2ecc71",
      "#f5f5f5", "#ffffff", "#ffffff",
      "#2c3e50", "#7f8c8d", "#95a5a6",
      "#3498db", "#27ae60", "#f39c12", "#e74c3c", "#3498db",
      "#ddd", "#ecf0f1",
      "#000", "rgba(0, 0, 0, 0.5)",
      "#1e8449", "#27ae60", "#ffffff",
      "rgba(255, 255, 255, 0.85)", "rgba(255, 255, 255, 0.95)")
  }

  function DarkColors(): Palette
  {
    Palette(
      "#2ecc71", "#27ae60", "#52be80",
      "#121212", "#1e1e1e", "#2a2a2a",
      "#e0e0e0", "#b0b0b0", "#808080",
      "#5dade2", "#2ecc71", "#f39c12", "#e74c3c", "#5dade2",
      "#404040", "#333333",
      "#000", "rgba(0, 0, 0, 0.7)",
      "#1a5c3e", "#239855", "#ffffff",
      "rgba(255, 255, 255, 0.85)", "rgba(255, 255, 255, 0.15)")
  }

  /** The theme of a mode: the light or the dark palette, labelled with that
      mode. */
  function ThemeFor(mode: ThemeMode): (t: Theme)
    ensures t.mode == mode
  {
    match mode
    case Light => Theme(Light, LightColors())
    case Dark => Theme(Dark, DarkColors())
  }

  /** The text a mode is saved as. */
  function ModeName(mode: ThemeMode): string
  {
    match mode
    case Light => "light"
    case Dark => "dark"
  }

  /** A saved value is applied only when it is exactly "dark" or "light". */
  function ModeFromStored(saved: Option<string>): (m: Option<ThemeMode>)
    ensures m == Some(Dark) <==> saved == Some("dark")
    ensures m == Some(Light) <==> saved == Some("light")
    ensures m.None? <==> saved != Some("dark") && saved != Some("light")
  {
    if saved == Some("dark") then Some(Dark)
    else if saved == Some("light") then Some(Light)
    else None
  }

  /** A saved mode is read back as itself. */
  lemma ModeRoundTrip(mode: ThemeMode)
    ensures ModeFromStored(Some(ModeName(mode))) == Some(mode)
  {
  }

  function Opposite(mode: ThemeMode): (m: ThemeMode)
    ensures m != mode
  {
    match mode
    case Light => Dark
    case Dark => Light
  }

  /** Switching twice restores the mode. */
  lemma {:induction false} OppositeInvolution(mode: ThemeMode)
    ensures Opposite(Opposite(mode)) == mode
  {
    match mode
    case Light =>
    case Dark =>
  }

  /** The context's value outside a provider is missing, and using it there
      fails with the hook's message. */
  function UseTheme<T>(context: Option<T>): (r: Result<T>)
    ensures r.Ok? <==> context.Some?
    ensures r.Ok? ==> r.value == context.value
    ensures r.Err? ==> r.message == "useTheme must be used within a ThemeProvider"
  {
    match context
    case Some(c) => Ok(c)
    case None => Err("useTheme must be used within a ThemeProvider")
  }

  /** The storage slot holding the saved mode; a read or a write can fail. */
  class ThemeStorage {
    var saved: Option<string>
    var readFails: bool
    var writeFails: bool

    constructor(saved: Option<string>, readFails: bool, writeFails: bool)
      ensures this.saved == saved && this.readFails == readFails && this.writeFails == writeFails
    {
      this.saved := saved;
      this.readFails := readFails;
      this.writeFails := writeFails;
    }
  }

  class ThemeProvider {
    var themeMode: ThemeMode
    var theme: Theme

    /** The theme always matches the mode. */
    predicate Valid()
      reads this
    {
      theme == ThemeFor(themeMode)
    }

    /** Starts in light mode with the light theme. */
    constructor()
      ensures themeMode == Light && theme == ThemeFor(Light)
      ensures Valid()
    {
      themeMode := Light;
      theme := ThemeFor(Light);
    }

    /** Applies the saved mode when it reads as one; otherwise, or when the
        read fails, nothing changes. */
    method LoadTheme(storage: ThemeStorage)
      requires Valid()
      modifies this
      ensures Valid()
      ensures var m := ModeFromStored(storage.saved);
        if !storage.readFails && m.Some? then themeMode == m.value else themeMode == old(themeMode)
    {
      if storage.readFails {
        return;
      }
      var savedTheme := storage.saved;
      if savedTheme == Some("dark") || savedTheme == Some("light") {
        var mode := if savedTheme == Some("dark") then Dark else Light;
        themeMode := mode;
        theme := ThemeFor(mode);
      }
    }

    /** Saves the mode and then applies it; when the write fails the state
        stays as it was. */
    method SetThemeMode(storage: ThemeStorage, mode: ThemeMode)
      requires Valid()
      modifies this, storage
      ensures Valid()
      ensures !old(storage.writeFails) ==> && storage.saved == Some(ModeName(mode))
                                           && themeMode == mode && theme.mode == mode
      ensures old(storage.writeFails) ==> && storage.saved == old(storage.saved)
                                          && themeMode == old(themeMode) && theme == old(theme)
      ensures storage.readFails == old(storage.readFails) && storage.writeFails == old(storage.writeFails)
    {
      if storage.writeFails {
        return;
      }
      storage.saved := Some(ModeName(mode));
      themeMode := mode;
      theme := ThemeFor(mode);
    }

    /** Sets the opposite mode. */
    method ToggleTheme(storage: ThemeStorage)
      requires Valid()
      modifies this, storage
      ensures Valid()
      ensures !old(storage.writeFails) ==> themeMode == Opposite(old(themeMode))
      ensures old(storage.writeFails) ==>
        && themeMode == old(themeMode) && theme == old(theme)
        && storage.saved == old(storage.saved)
      ensures storage.readFails == old(storage.readFails) && storage.writeFails == old(storage.writeFails)
      ensures !old(storage.writeFails) ==> storage.saved == Some(ModeName(themeMode))
    {
      var newMode := if themeMode == Light then Dark else Light;
      SetThemeMode(storage, newMode);
    }
  }

  /** Toggling twice with working storage restores the mode and leaves it
      saved, so a provider that loads the storage afterwards starts in it
      (ModeRoundTrip). */
  method ToggleTwiceRestores(p: ThemeProvider, storage: ThemeStorage)
    requires p.Valid() && !storage.writeFails
    modifies p, storage
    ensures p.Valid() && p.themeMode == old(p.themeMode)
    ensures storage.saved == Some(ModeName(p.themeMode))
  {
    p.ToggleTheme(storage);
    p.ToggleTheme(storage);
    OppositeInvolution(old(p.themeMode));
  }
}
