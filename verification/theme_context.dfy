/** The light/dark preference: one flag, kept in storage under `darkMode`,
    and the palette it selects. */
module ThemeContext {
  import opened Common
  import opened Storage

  const Primary := "#1976d2"
  const Secondary := "#dc004e"

  datatype Palette = Palette(mode: string, primary: string, secondary: string,
                             backgroundDefault: string, backgroundPaper: string)

  /** The palette `createTheme` is given: the mode and both backgrounds follow
      the flag, the accent colours do not. */
  function PaletteFor(darkMode: bool): (p: Palette)
    ensures p.mode == "dark" <==> darkMode
    ensures p.mode == "light" <==> !darkMode
    ensures p.primary == Primary && p.secondary == Secondary
    ensures darkMode ==> p.backgroundDefault == "#121212" && p.backgroundPaper == "#1e1e1e"
    ensures !darkMode ==> p.backgroundDefault == "#f5f5f5" && p.backgroundPaper == "#ffffff"
  {
    Palette(if darkMode then "dark" else "light", Primary, Secondary,
            if darkMode then "#121212" else "#f5f5f5",
            if darkMode then "#1e1e1e" else "#ffffff")
  }

  class ThemeStore {
    var darkMode: bool
    const storage: LocalStorage

    /** Storage holds the current flag. */
    ghost predicate Persisted()
      reads this, storage
    {
      storage.GetItem(DarkModeKey) == Some(FlagJson(darkMode))
    }

    /** The first render: light mode. */
    constructor (storage: LocalStorage)
      ensures this.storage == storage && !darkMode
    {
      this.storage := storage;
      darkMode := false;
    }

    /** The mount effects, in order: read a stored flag, then save the
        initial `false`; the re-render with the stored flag saves again when
        it differs. A stored value of another kind makes the parse throw, and
        nothing after it runs. */
    method Mount() returns (outcome: Hydration)
      requires !darkMode
      modifies this, storage
      ensures var stored := old(storage.GetItem(DarkModeKey));
        && (outcome.Malformed? <==> stored.Some? && Truthy(stored.value) && !stored.value.FlagJson?)
        && (outcome.Malformed? ==> !darkMode && storage.entries == old(storage.entries))
        && (outcome.Hydrated? ==>
              && darkMode == (stored.Some? && Truthy(stored.value) && stored.value.flag)
              && storage.entries == old(storage.entries)[DarkModeKey := FlagJson(darkMode)]
              && Persisted())
    {
      var hydrated := darkMode;
      var stored := storage.GetItem(DarkModeKey);
      if stored.Some? && Truthy(stored.value) {
        if !stored.value.FlagJson? {
          return Malformed(DarkModeKey);
        }
        hydrated := stored.value.flag;
      }
      // save effect for the initial render
      storage.SetItem(DarkModeKey, FlagJson(darkMode));
      // the re-render with the hydrated flag
      var changed := hydrated != darkMode;
      darkMode := hydrated;
      if changed {
        storage.SetItem(DarkModeKey, FlagJson(darkMode));
      }
      outcome := Hydrated;
    }

    /** `toggleTheme`: flip the flag; the save effect stores the new one. */
    method ToggleTheme()
      modifies this, storage
      ensures darkMode == !old(darkMode)
      ensures storage.entries == old(storage.entries)[DarkModeKey := FlagJson(darkMode)]
      ensures Persisted()
    {
      darkMode := !darkMode;
      storage.SetItem(DarkModeKey, FlagJson(darkMode));
    }
  }

  /** Toggling twice restores the mode, and storage agrees with it. */
  method ToggleTwice(theme: ThemeStore)
    modifies theme, theme.storage
    ensures theme.darkMode == old(theme.darkMode)
    ensures theme.Persisted()
  {
    theme.ToggleTheme();
    theme.ToggleTheme();
  }
}
