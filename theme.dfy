/** Theme selection (src/app/services/theme.service.ts): a fixed table of eight themes, the current
    choice, and its persistence under 'dashboard-theme'. The colour palettes and the CSS variables
    `applyTheme` writes are not part of this model; only the ids, names and icons are. */
module Themes {
  import opened Wrappers
  import opened Storage

  datatype Theme = Theme(id: string, name: string, icon: string)

  const ThemeStorageKey := "dashboard-theme"

  /** The built-in themes, in table order; the first is the default. */
  const BuiltIn: seq<Theme> := [
    Theme("light", "Light", "☀️"),
    Theme("dark", "Midnight", "🌙"),
    Theme("ocean", "Ocean", "🌊"),
    Theme("sunset", "Sunset", "🌅"),
    Theme("forest", "Forest", "🌲"),
    Theme("lavender", "Lavender", "💜"),
    Theme("rose", "Rose Gold", "🌸"),
    Theme("cyber", "Cyberpunk", "🤖")
  ]

  /** `themes.find(t => t.id === id)`: the first theme with that id. */
  function FindTheme(themes: seq<Theme>, id: string): (r: Option<Theme>)
    ensures r.Some? ==> r.value in themes && r.value.id == id
    ensures r.None? <==> forall i :: 0 <= i < |themes| ==> themes[i].id != id
  {
    if themes == [] then None
    else if themes[0].id == id then Some(themes[0])
    else FindTheme(themes[1..], id)
  }

  /** The ids of a theme table, in order. */
  function Ids(themes: seq<Theme>): (r: seq<string>)
    ensures |r| == |themes| && forall i :: 0 <= i < |themes| ==> r[i] == themes[i].id
  {
    if themes == [] then [] else [themes[0].id] + Ids(themes[1..])
  }

  /** A lookup succeeds exactly for the ids in the table. */
  lemma {:induction false} FindThemeSucceeds(themes: seq<Theme>, id: string)
    ensures FindTheme(themes, id).Some? <==> id in Ids(themes)
  {
    if themes != [] && themes[0].id != id {
      FindThemeSucceeds(themes[1..], id);
      assert Ids(themes) == [themes[0].id] + Ids(themes[1..]);
    }
  }

  /** The eight built-in ids, in table order. */
  lemma BuiltInIds()
    ensures Ids(BuiltIn) == ["light", "dark", "ocean", "sunset", "forest", "lavender", "rose", "cyber"]
  {
  }

  /** The built-in ids are pairwise distinct, so a lookup by id is unambiguous. */
  lemma BuiltInIdsDistinct()
    ensures forall i, j :: 0 <= i < j < |BuiltIn| ==> BuiltIn[i].id != BuiltIn[j].id
  {
  }

  /** A lookup in the built-in table succeeds exactly for the eight known ids. */
  lemma FindBuiltIn(id: string)
    ensures FindTheme(BuiltIn, id).Some? <==>
              id in ["light", "dark", "ocean", "sunset", "forest", "lavender", "rose", "cyber"]
  {
    FindThemeSucceeds(BuiltIn, id);
    BuiltInIds();
  }

  class ThemeService {
    var currentTheme: Theme
    var currentThemeId: string
    const storage: LocalStorage

    /** The current theme is a table entry and the current id is its id. */
    ghost predicate Valid()
      reads this
    {
      currentTheme in BuiltIn && currentTheme.id == currentThemeId
    }

    /** The constructor restores a saved id when it names a theme; otherwise 'light' stays. */
    constructor (storage: LocalStorage)
      ensures Valid()
      ensures this.storage == storage
      ensures var saved := storage.GetItem(ThemeStorageKey);
        if Truthy(saved) && FindTheme(BuiltIn, saved.value).Some? then currentThemeId == saved.value
        else currentTheme == BuiltIn[0] && currentThemeId == "light"
    {
      this.storage := storage;
      currentTheme := BuiltIn[0];
      currentThemeId := "light";
      var saved := storage.GetItem(ThemeStorageKey);
      if Truthy(saved) {
        var theme := FindTheme(BuiltIn, saved.value);
        if theme.Some? {
          currentTheme := theme.value;
          currentThemeId := saved.value;
        }
      }
    }

    /** `setTheme(themeId)`: a known id becomes current and is persisted; an unknown one changes nothing. */
    method SetTheme(themeId: string)
      requires Valid()
      modifies this, storage
      ensures Valid()
      ensures FindTheme(BuiltIn, themeId).Some? ==>
                && currentTheme == FindTheme(BuiltIn, themeId).value
                && currentThemeId == themeId
                && storage.items == old(storage.items)[ThemeStorageKey := themeId]
      ensures FindTheme(BuiltIn, themeId).None? ==>
                currentTheme == old(currentTheme) && currentThemeId == old(currentThemeId)
                && storage.items == old(storage.items)
    {
      var theme := FindTheme(BuiltIn, themeId);
      if theme.Some? {
        currentTheme := theme.value;
        currentThemeId := themeId;
        storage.SetItem(ThemeStorageKey, themeId);
      }
    }
  }
}
