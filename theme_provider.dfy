/**
 The theme preference of `ThemeProvider`: a two-valued theme held in a state cell
 and mirrored, as its JSON encoding, under one key of the browser's key/value
 storage. The storage is modelled as a map from keys to stored strings.
 */
module Theme {

  datatype Option<T> = None | Some(value: T)

  /** `ThemeName`, the two themes. */
  datatype ThemeName = Light | Dark

  /** The storage key the preference lives under. */
  const LocalStorageKey: string := "@todoList: theme"

  /** `JSON.stringify` of a theme: the theme's name as a quoted JSON string; `Parse` reads it back. */
  function Stringify(t: ThemeName): (s: string)
    ensures Parse(s) == Some(t)
    ensures |s| >= 2 && s[0] == '"' && s[|s| - 1] == '"'
  {
    match t
    case Light => "\"light\""
    case Dark => "\"dark\""
  }

  /**
   `JSON.parse` restricted to the exact strings `JSON.stringify` writes for a theme.
   `None` stands for every other stored string. Some of those also decode to a theme
   in JavaScript (a padded ` "dark" `, an escaped `"d\u0061rk"`); the others make
   `JSON.parse` throw or yield a value that is not a `ThemeName`.
   */
  function Parse(s: string): Option<ThemeName> {
    if s == "\"light\"" then Some(Light)
    else if s == "\"dark\"" then Some(Dark)
    else None
  }

  /** `Parse` accepts nothing but the encodings: what it reads, `Stringify` writes back unchanged. */
  lemma ParseOnlyEncodings(s: string)
    ensures Parse(s).Some? ==> Stringify(Parse(s).value) == s
  {
  }

  /** The lazy initialiser: `dark` when the key is absent, the decoded stored value otherwise. */
  function InitialTheme(storage: map<string, string>): (r: Option<ThemeName>)
    ensures LocalStorageKey !in storage ==> r == Some(Dark)
    ensures LocalStorageKey in storage ==> r == Parse(storage[LocalStorageKey])
  {
    if LocalStorageKey in storage then Parse(storage[LocalStorageKey]) else Some(Dark)
  }

  /** A theme persisted under the key is what a fresh initialiser reads back, whatever else the storage holds. */
  lemma PersistedThemeReloads(storage: map<string, string>, t: ThemeName)
    ensures InitialTheme(storage[LocalStorageKey := Stringify(t)]) == Some(t)
  {
  }

  /** The updater of `toggleTheme`: `dark` becomes `light`, anything else becomes `dark`. */
  function Flip(t: ThemeName): (r: ThemeName)
    ensures r != t
  {
    if t == Dark then Light else Dark
  }

  /** Toggling twice restores the theme. */
  lemma FlipTwice(t: ThemeName)
    ensures Flip(Flip(t)) == t
  {
  }

  /** The provider's state cell `theme` and the storage it writes to. */
  class ThemeProvider {
    var theme: ThemeName
    var storage: map<string, string>

    /** The storage mirrors the theme: a fresh initialiser over it would read `theme`. */
    ghost predicate Valid()
      reads this
    {
      LocalStorageKey in storage && storage[LocalStorageKey] == Stringify(theme)
    }

    /**
     Mounting the provider over the storage contents `localStorage`: the initialiser
     picks the theme, then the effect writes its encoding under the key and leaves
     every other key alone. The stored value must be absent or exactly one of the two
     strings `Stringify` writes. This also excludes strings that `JSON.parse` would
     decode to a theme, such as a padded or escaped encoding, besides those on which
     it throws or yields a value that is not a theme.
     */
    constructor (localStorage: map<string, string>)
      requires InitialTheme(localStorage).Some?
      ensures theme == InitialTheme(localStorage).value
      ensures storage == localStorage[LocalStorageKey := Stringify(theme)]
      ensures Valid()
    {
      theme := InitialTheme(localStorage).value;
      storage := localStorage[LocalStorageKey := Stringify(InitialTheme(localStorage).value)];
    }

    /** `toggleTheme`, followed by the effect that persists the new theme under the key. */
    method ToggleTheme()
      modifies this
      ensures theme == Flip(old(theme)) && theme != old(theme)
      ensures storage == old(storage)[LocalStorageKey := Stringify(theme)]
      ensures forall k :: k != LocalStorageKey ==>
                (k in storage <==> k in old(storage)) && (k in storage ==> storage[k] == old(storage)[k])
      ensures Valid()
    {
      theme := Flip(theme);
      storage := storage[LocalStorageKey := Stringify(theme)];
    }

    /** The remount promise: while the storage mirrors the theme, a fresh initialiser over it reads that theme. */
    lemma RemountReadsTheme()
      requires Valid()
      ensures InitialTheme(storage) == Some(theme)
    {
    }
  }

  /**
   A client: a provider over empty storage starts `dark`; one toggle stores the encoding
   of `light`; a provider mounted afterwards over that storage starts `light`.
   */
  method ToggleSurvivesRemount()
  {
    var first := new ThemeProvider(map[]);
    assert first.theme == Dark;
    first.ToggleTheme();
    first.RemountReadsTheme();
    var second := new ThemeProvider(first.storage);
    assert second.theme == Light;
  }
}
