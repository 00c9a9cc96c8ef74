/**
 * The theme store: a fixed table of six colour themes, the current theme, and the
 * actions that load it from `localStorage`, set it, and apply its colours to the
 * document root.
 */
module Themes {
  import opened Common
  import opened WebStorage

  /** A theme's entry in the table (its display name and emoji are left out). */
  datatype ThemeColors = ThemeColors(id: string, primary: string, secondary: string)

  const ThemeTable: seq<ThemeColors> := [
    ThemeColors("default", "#3b82f6", "#a855f7"),
    ThemeColors("ocean", "#06b6d4", "#0ea5e9"),
    ThemeColors("sunset", "#f97316", "#ef4444"),
    ThemeColors("forest", "#10b981", "#14b8a6"),
    ThemeColors("violet", "#8b5cf6", "#d946ef"),
    ThemeColors("rose", "#ec4899", "#f43f5e")
  ]

  const DefaultTheme: string := "default"
  const ThemeKey: string := "keyflow_theme"

  /** `themes.find(t => t.id === id)`: the first entry with that id. */
  function Find(ts: seq<ThemeColors>, id: string): (r: Option<ThemeColors>)
    ensures r.Some? ==> r.value in ts && r.value.id == id
    ensures r.None? <==> forall t :: t in ts ==> t.id != id
    decreases |ts|
  {
    if ts == [] then None
    else if ts[0].id == id then Some(ts[0])
    else Find(ts[1..], id)
  }

  /** The id is one of the table's. */
  function IsTheme(id: string): (b: bool)
    ensures b <==> id in {"default", "ocean", "sunset", "forest", "violet", "rose"}
  {
    Find(ThemeTable, id).Some?
  }

  ghost predicate DistinctIds(ts: seq<ThemeColors>) {
    forall i, j :: 0 <= i < j < |ts| ==> ts[i].id != ts[j].id
  }

  /** With distinct ids, the entry found for the id at position i is the entry at i. */
  lemma {:induction false} FindAt(ts: seq<ThemeColors>, i: nat)
    requires DistinctIds(ts) && i < |ts|
    ensures Find(ts, ts[i].id) == Some(ts[i])
    decreases i
  {
    if i > 0 {
      assert ts[1..][i - 1] == ts[i];
      FindAt(ts[1..], i - 1);
    }
  }

  /** The table has six entries with distinct ids, and the initial theme is one of them. */
  lemma ThemeTableWellFormed()
    ensures |ThemeTable| == 6 && DistinctIds(ThemeTable)
    ensures IsTheme(DefaultTheme) && Find(ThemeTable, DefaultTheme) == Some(ThemeTable[0])
  {
  }

  /** Every entry of the table is found by its own id. */
  lemma EveryThemeFound(i: nat)
    requires i < |ThemeTable|
    ensures Find(ThemeTable, ThemeTable[i].id) == Some(ThemeTable[i])
  {
    ThemeTableWellFormed();
    FindAt(ThemeTable, i);
  }

  /** What `applyTheme` writes on the document root: the two colour properties and `data-theme`. */
  datatype RootStyle = RootStyle(primary: string, secondary: string, dataTheme: string)

  class ThemeStore {
    var currentTheme: string
    /** The document root's theme styling, once some theme has been applied. */
    var root: Option<RootStyle>

    ghost predicate Valid()
      reads this
    {
      IsTheme(currentTheme)
    }

    /** The store is created with the default theme and immediately runs `loadTheme`. */
    constructor (local: Storage)
      ensures Valid()
      ensures currentTheme == (var s := local.GetItem(ThemeKey); if Truthy(s) && IsTheme(s.value) then s.value else DefaultTheme)
      ensures root == Some(Styled(Find(ThemeTable, currentTheme).value))
    {
      currentTheme := DefaultTheme;
      root := None;
      ThemeTableWellFormed();
      new;
      LoadTheme(local);
    }

    /** The root styling for a table entry. */
    static function Styled(t: ThemeColors): RootStyle {
      RootStyle(t.primary, t.secondary, t.id)
    }

    /** `applyTheme`: styles the root with the current theme's entry; nothing when no entry has its id. */
    method ApplyTheme()
      modifies this`root
      ensures Find(ThemeTable, currentTheme).Some? ==> root == Some(Styled(Find(ThemeTable, currentTheme).value))
      ensures Find(ThemeTable, currentTheme).None? ==> root == old(root)
      ensures root.Some? && root != old(root) ==> root.value.dataTheme == currentTheme
    {
      var theme := Find(ThemeTable, currentTheme);
      if theme.None? {
        return;
      }
      root := Some(Styled(theme.value));
    }

    /** `loadTheme`: a saved value is adopted only when it is a theme id; then the theme is applied. */
    method LoadTheme(local: Storage)
      requires Valid()
      modifies this
      ensures Valid()
      ensures var s := local.GetItem(ThemeKey);
        currentTheme == (if Truthy(s) && IsTheme(s.value) then s.value else old(currentTheme))
      ensures root == Some(Styled(Find(ThemeTable, currentTheme).value))
    {
      var saved := local.GetItem(ThemeKey);
      if Truthy(saved) && IsTheme(saved.value) {
        currentTheme := saved.value;
      }
      ApplyTheme();
    }

    /** `setTheme(theme)`: the theme becomes current, is saved under 'keyflow_theme' and is applied. */
    method SetTheme(theme: string, local: Storage)
      requires IsTheme(theme)
      modifies this, local
      ensures Valid()
      ensures currentTheme == theme
      ensures local.items == old(local.items)[ThemeKey := theme]
      ensures root == Some(Styled(Find(ThemeTable, theme).value))
    {
      currentTheme := theme;
      local.SetItem(ThemeKey, theme);
      ApplyTheme();
    }
  }

  /** A theme that was set is the one loaded the next time the store starts. */
  method SetThenReload(theme: string, local: Storage) returns (store: ThemeStore, next: ThemeStore)
    requires IsTheme(theme)
    modifies local
    ensures next.currentTheme == theme
    ensures next.root == Some(ThemeStore.Styled(Find(ThemeTable, theme).value))
  {
    store := new ThemeStore(local);
    store.SetTheme(theme, local);
    next := new ThemeStore(local);
  }
}
