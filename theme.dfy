/** The page's colour theme: a `'theme'` storage slot holding `'dark'` or
    `'light'`, the `isDarkMode` flag, and the `dark` class on the document
    element. */
module Theme {
  import opened Common

  /** The mode the page starts in: `'dark'` and `'light'` decide it; anything
      else, including no stored value, defers to the system preference. */
  function LoadTheme(saved: Option<string>, systemDark: bool): (dark: bool)
    ensures saved == Some("dark") ==> dark
    ensures saved == Some("light") ==> !dark
    ensures saved != Some("dark") && saved != Some("light") ==> dark == systemDark
  {
    if saved == Some("dark") then true
    else if saved == Some("light") then false
    else systemDark
  }

  /** The value written to the slot for a mode. */
  function SaveTheme(dark: bool): (stored: string)
    ensures stored == "dark" || stored == "light"
    ensures stored == "dark" <==> dark
  {
    if dark then "dark" else "light"
  }

  /** Loading what was saved gives the saved mode back, whatever the system
      preference. */
  lemma ThemeRoundTrip(dark: bool, systemDark: bool)
    ensures LoadTheme(Some(SaveTheme(dark)), systemDark) == dark
  {
  }

  /** A value the page wrote is read back as the same value. */
  lemma SaveAfterLoad(stored: string, systemDark: bool)
    requires stored == "dark" || stored == "light"
    ensures SaveTheme(LoadTheme(Some(stored), systemDark)) == stored
  {
  }

  class Page {
    /** The `'theme'` storage slot. */
    var storedTheme: Option<string>
    var isDarkMode: bool
    /** Whether the document element carries the `dark` class. */
    var documentDark: bool

    constructor (storedTheme: Option<string>)
      ensures this.storedTheme == storedTheme && !isDarkMode && !documentDark
    {
      this.storedTheme := storedTheme;
      isDarkMode := false;
      documentDark := false;
    }

    /** The save effect: the slot receives the mode's name and the document
        class follows the mode. */
    method Persist()
      modifies this
      ensures storedTheme == Some(SaveTheme(isDarkMode)) && documentDark == isDarkMode
      ensures isDarkMode == old(isDarkMode)
    {
      storedTheme := Some(SaveTheme(isDarkMode));
      documentDark := isDarkMode;
    }

    /** Mount: the load effect chooses the mode, and the save effect then
        records it. */
    method Mount(systemDark: bool)
      modifies this
      ensures isDarkMode == LoadTheme(old(storedTheme), systemDark)
      ensures storedTheme == Some(SaveTheme(isDarkMode)) && documentDark == isDarkMode
    {
      isDarkMode := LoadTheme(storedTheme, systemDark);
      Persist();
    }

    /** `toggleDarkMode`, followed by the save effect. */
    method Toggle()
      modifies this
      ensures isDarkMode == !old(isDarkMode)
      ensures storedTheme == Some(SaveTheme(isDarkMode)) && documentDark == isDarkMode
    {
      isDarkMode := !isDarkMode;
      Persist();
    }
  }
}
