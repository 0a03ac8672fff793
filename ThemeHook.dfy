/** hooks/useTheme.ts: the current theme id, restored from storage only when it names a theme. */
module ThemeHook {
  import opened Wrappers
  import opened Types
  import opened Storage
  import opened Constants

  /** The `THEMES[storedTheme]` test: the stored text is one of the four theme keys. */
  function ParseThemeId(s: string): (r: Option<ThemeId>)
    ensures r.Some? ==> ThemeIdName(r.value) == s
    ensures r.None? ==> forall id :: ThemeIdName(id) != s
  {
    if s == "default" then Some(Default)
    else if s == "dark" then Some(Dark)
    else if s == "berry" then Some(Berry)
    else if s == "ocean" then Some(Ocean)
    else None
  }

  /** The text `changeTheme` stores is read back as the same theme. */
  lemma ThemeIdRoundTrip(id: ThemeId)
    ensures ParseThemeId(ThemeIdName(id)) == Some(id)
  {
  }

  /** `useTheme`: the current theme id and the storage it is written to. */
  class ThemeState {
    var currentThemeId: ThemeId
    const storage: LocalStorage

    /** `useState('default')`. */
    constructor (storage: LocalStorage)
      ensures currentThemeId == Default && this.storage == storage
    {
      this.currentThemeId := Default;
      this.storage := storage;
    }

    /** The mount effect: adopt the stored id only if it names a `THEMES` entry. */
    method Load()
      modifies this
      ensures var stored := storage.GetItem(ThemeKey);
        if stored.Some? && ParseThemeId(stored.value).Some?
        then currentThemeId == ParseThemeId(stored.value).value
        else currentThemeId == old(currentThemeId)
      ensures storage.GetItem(ThemeKey).Some? && currentThemeId != old(currentThemeId)
        ==> storage.GetItem(ThemeKey).value == ThemeIdName(currentThemeId)
    {
      var storedTheme := storage.GetItem(ThemeKey);
      if storedTheme.Some? && storedTheme.value != "" {
        var id := ParseThemeId(storedTheme.value);
        if id.Some? {
          currentThemeId := id.value;
        }
      }
    }

    /** `changeTheme`: switch to `id` and store its key. */
    method ChangeTheme(id: ThemeId)
      modifies this, storage
      ensures currentThemeId == id
      ensures storage.items == old(storage.items)[ThemeKey := ThemeIdName(id)]
      ensures ParseThemeId(storage.items[ThemeKey]) == Some(id)
    {
      currentThemeId := id;
      storage.SetItem(ThemeKey, ThemeIdName(id));
    }

    /** `theme`: the `THEMES` entry of the current id, whose own id is the current id. */
    function Theme(): (t: ThemeConfig)
      reads this
      ensures t.id == currentThemeId
      ensures t == Themes(currentThemeId)
    {
      Themes(currentThemeId)
    }
  }

  /** The theme chosen is the theme the next mount restores. */
  method ChangeThenRemount(t: ThemeState, id: ThemeId) returns (remounted: ThemeState)
    modifies t, t.storage
    ensures fresh(remounted) && remounted.storage == t.storage
    ensures t.currentThemeId == id && remounted.currentThemeId == id
  {
    t.ChangeTheme(id);
    remounted := new ThemeState(t.storage);
    remounted.Load();
  }
}
