/** The application frame: a sidebar that can be collapsed, a light or dark theme, both
    remembered in the browser's storage, and the profile menu that holds the theme,
    sidebar and logout actions. */
module Layout {
  import opened Options
  import opened Text

  datatype NavItem = NavItem(to: String, caption: String)

  const NavItems: seq<NavItem> := [
    NavItem("/dashboard", "Dashboard"),
    NavItem("/chat", "FP Legal AI"),
    NavItem("/upload", "Nova Petição"),
    NavItem("/history", "Histórico")]

  const CollapsedKey: String := "sidebar_collapsed"
  const ThemeKey: String := "theme"

  /** `localStorage.getItem(key)`: `null` for a missing key. */
  function Stored(storage: map<String, String>, key: String): (v: Option<String>)
    ensures v.Some? <==> key in storage
    ensures v.Some? ==> v.value == storage[key]
  {
    if key in storage then Some(storage[key]) else None
  }

  /** `b.toString()`: the text that reads back as the flag on the next visit. */
  function BoolText(b: bool): (t: String)
    ensures t == "true" || t == "false"
    ensures InitialCollapsed(Some(t)) == b
  {
    if b then "true" else "false"
  }

  /** The sidebar starts collapsed only when the stored text is exactly `true`. */
  function InitialCollapsed(stored: Option<String>): (c: bool)
    ensures c <==> stored == Some("true")
  {
    stored == Some("true")
  }

  /** The stored theme, or dark when none (or an empty one) is stored. */
  function InitialTheme(stored: Option<String>): (t: String)
    ensures t != []
    ensures Truthy(stored) ==> t == stored.value
    ensures !Truthy(stored) ==> t == "dark"
  {
    OrElse(stored, "dark")
  }

  /** The two persisting effects: the flag as text and the theme as it is. */
  function Persist(storage: map<String, String>, collapsed: bool, theme: String): (s: map<String, String>)
    ensures Stored(s, CollapsedKey) == Some(BoolText(collapsed))
    ensures Stored(s, ThemeKey) == Some(theme)
    ensures forall k | k in storage && k != CollapsedKey && k != ThemeKey :: k in s && s[k] == storage[k]
  {
    storage[CollapsedKey := BoolText(collapsed)][ThemeKey := theme]
  }

  /** What is persisted is what the next visit starts with. */
  lemma PersistRoundTrip(storage: map<String, String>, collapsed: bool, theme: String)
    requires theme != []
    ensures InitialCollapsed(Stored(Persist(storage, collapsed, theme), CollapsedKey)) == collapsed
    ensures InitialTheme(Stored(Persist(storage, collapsed, theme), ThemeKey)) == theme
  {
  }

  /** `toggleTheme`: dark becomes light, anything else becomes dark. */
  function ToggleTheme(theme: String): (t: String)
    ensures t == "light" <==> theme == "dark"
    ensures t == "dark" <==> theme != "dark"
  {
    if theme == "dark" then "light" else "dark"
  }

  /** Toggling twice restores dark and light; any other stored theme settles on light. */
  lemma ToggleThemeTwice(theme: String)
    ensures theme == "dark" || theme == "light" ==> ToggleTheme(ToggleTheme(theme)) == theme
    ensures theme != "dark" && theme != "light" ==> ToggleTheme(ToggleTheme(theme)) == "light"
  {
  }

  /** The logo for each combination of sidebar width and theme. */
  function Logo(collapsed: bool, theme: String): (path: String)
    ensures collapsed && theme == "dark" ==> path == "/apenas_logo_fundo_preto.png"
    ensures collapsed && theme != "dark" ==> path == "/apenas_logo_fundo_branco.png"
    ensures !collapsed && theme == "dark" ==> path == "/logo_fundo_preto.png"
    ensures !collapsed && theme != "dark" ==> path == "/logo_fundo_branco.png"
  {
    if collapsed then (if theme == "dark" then "/apenas_logo_fundo_preto.png" else "/apenas_logo_fundo_branco.png")
    else (if theme == "dark" then "/logo_fundo_preto.png" else "/logo_fundo_branco.png")
  }

  /** Each pair of sidebar width and (dark or not) theme has a logo of its own. */
  lemma LogoDistinct(c1: bool, t1: String, c2: bool, t2: String)
    requires Logo(c1, t1) == Logo(c2, t2)
    ensures c1 == c2 && (t1 == "dark" <==> t2 == "dark")
  {
    assert |Logo(c1, t1)| == |Logo(c2, t2)|;
  }

  /** The theme entry of the profile menu names the theme it switches to. */
  function ThemeEntry(theme: String): (caption: String)
    ensures caption == (if ToggleTheme(theme) == "light" then "Modo Claro" else "Modo Escuro")
  {
    if theme == "dark" then "Modo Claro" else "Modo Escuro"
  }

  /** The sidebar entry of the profile menu names what it will do. */
  function SidebarEntry(collapsed: bool): (caption: String)
    ensures caption == (if collapsed then "Expandir Menu" else "Recolher Menu")
  {
    if collapsed then "Expandir Menu" else "Recolher Menu"
  }

  class Frame {
    var isCollapsed: bool
    var theme: String
    var menuOpen: bool
    var storage: map<String, String>
    var dataTheme: String

    /** The document's theme attribute and the stored settings follow the state. */
    ghost predicate Valid()
      reads this
    {
      && theme != []
      && dataTheme == theme
      && Stored(storage, CollapsedKey) == Some(BoolText(isCollapsed))
      && Stored(storage, ThemeKey) == Some(theme)
    }

    /** Mounting: the state read from storage, then the persisting effects run once. */
    constructor(storage: map<String, String>)
      ensures Valid()
      ensures isCollapsed == InitialCollapsed(Stored(storage, CollapsedKey))
      ensures theme == InitialTheme(Stored(storage, ThemeKey))
      ensures !menuOpen
      ensures this.storage == Persist(storage, isCollapsed, theme)
    {
      var collapsed := InitialCollapsed(Stored(storage, CollapsedKey));
      var chosen := InitialTheme(Stored(storage, ThemeKey));
      isCollapsed := collapsed;
      theme := chosen;
      menuOpen := false;
      this.storage := Persist(storage, collapsed, chosen);
      dataTheme := chosen;
    }

    /** The profile button opens or closes the menu. */
    method ToggleMenu()
      modifies this
      ensures menuOpen == !old(menuOpen)
      ensures isCollapsed == old(isCollapsed) && theme == old(theme)
      ensures storage == old(storage) && dataTheme == old(dataTheme)
    {
      menuOpen := !menuOpen;
    }

    /** A mouse press anywhere: outside the sidebar footer it closes the menu. */
    method MouseDown(inside: bool)
      modifies this
      ensures menuOpen == (old(menuOpen) && inside)
      ensures isCollapsed == old(isCollapsed) && theme == old(theme)
      ensures storage == old(storage) && dataTheme == old(dataTheme)
    {
      if !inside {
        menuOpen := false;
      }
    }

    /** The theme entry: switch theme, persist it, close the menu. */
    method ChooseThemeEntry()
      requires Valid()
      modifies this
      ensures Valid()
      ensures theme == ToggleTheme(old(theme)) && isCollapsed == old(isCollapsed) && !menuOpen
      ensures storage == Persist(old(storage), isCollapsed, theme)
    {
      theme := ToggleTheme(theme);
      storage := Persist(storage, isCollapsed, theme);
      dataTheme := theme;
      menuOpen := false;
    }

    /** The sidebar entry: collapse or expand, persist it, close the menu. */
    method ChooseSidebarEntry()
      requires Valid()
      modifies this
      ensures Valid()
      ensures isCollapsed == !old(isCollapsed) && theme == old(theme) && !menuOpen
      ensures storage == Persist(old(storage), isCollapsed, theme)
    {
      isCollapsed := !isCollapsed;
      storage := Persist(storage, isCollapsed, theme);
      menuOpen := false;
    }

    /** The logout entry: the session ends and the login page opens. */
    method ChooseLogoutEntry() returns (target: String)
      modifies this
      ensures target == "/login" && !menuOpen
      ensures isCollapsed == old(isCollapsed) && theme == old(theme)
      ensures storage == old(storage) && dataTheme == old(dataTheme)
    {
      menuOpen := false;
      target := "/login";
    }
  }
}
