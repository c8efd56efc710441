/** The theme store of `ThemeContext.jsx`: the theme read from storage at start-up, the
    light/dark toggle that writes it back, and the body's "dark" class that follows it. */
module ThemeContext {
  const ThemeKey: string := "theme"
  const Light: string := "light"
  const Dark: string := "dark"

  /** The stored theme when there is a non-empty one (an empty string is falsy), else
      light. */
  function InitialTheme(storage: map<string, string>): (t: string)
    ensures t != ""
    ensures ThemeKey in storage && storage[ThemeKey] != "" ==> t == storage[ThemeKey]
    ensures ThemeKey !in storage || storage[ThemeKey] == "" ==> t == Light
  {
    if ThemeKey in storage && storage[ThemeKey] != "" then storage[ThemeKey] else Light
  }

  /** Light becomes dark; every other value, a stored unknown one included, becomes light. */
  function NextTheme(t: string): (n: string)
    ensures n == Dark <==> t == Light
    ensures n != Dark ==> n == Light
  {
    if t == Light then Dark else Light
  }

  /** Two toggles come back exactly from light and from dark, and from nothing else. */
  lemma ToggleTwice(t: string)
    ensures NextTheme(NextTheme(t)) == t <==> t == Light || t == Dark
  {
  }

  /** From any theme, two toggles reach light or dark and stay in that cycle. */
  lemma ToggleSettles(t: string)
    ensures NextTheme(t) in {Light, Dark}
    ensures NextTheme(NextTheme(NextTheme(t))) == NextTheme(t)
  {
  }

  /** The provider's state: the theme, the browser storage it reads and writes, and
      whether the document body carries the "dark" class. */
  class ThemeProvider {
    var theme: string
    var storage: map<string, string>
    var bodyDark: bool

    /** The body follows the theme, and reloading from storage gives the same theme. */
    predicate Valid()
      reads this
    {
      && (bodyDark <==> theme == Dark)
      && InitialTheme(storage) == theme
    }

    /** Mounting reads the stored theme; the effect then sets the body class. */
    constructor (initialStorage: map<string, string>)
      ensures theme == InitialTheme(initialStorage) && storage == initialStorage
      ensures Valid()
    {
      theme := InitialTheme(initialStorage);
      storage := initialStorage;
      bodyDark := InitialTheme(initialStorage) == Dark;
    }

    method ToggleTheme()
      requires Valid()
      modifies this
      ensures theme == NextTheme(old(theme))
      ensures storage == old(storage)[ThemeKey := theme]
      ensures Valid()
    {
      var newTheme := NextTheme(theme);
      theme := newTheme;
      storage := storage[ThemeKey := newTheme];
      bodyDark := theme == Dark;
    }
  }
}
