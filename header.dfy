/**
 * The site header: which navigation link is highlighted for the current
 * path, the colour theme with its saved preference, and the mobile menu.
 * The browser's storage and the document's `data-theme` attribute are
 * fields of the header's state.
 */
module Header {
  import opened Wrappers
  import opened Text

  /** The navigation links' targets, in the order they are drawn. */
  const NavPaths: seq<string> := ["/", "/about", "/skills", "/services", "/contact"]

  /** `isActive(path)`: the root only on the root itself, any other path on every path it begins. */
  predicate IsActive(path: string, pathname: string): (r: bool)
    ensures r ==> StartsWith(pathname, path)
    ensures path == "/" ==> (r <==> pathname == "/")
    ensures path != "/" && StartsWith(pathname, path) ==> r
  {
    (path == "/" && pathname == "/") || (path != "/" && StartsWith(pathname, path))
  }

  /** Two prefixes of one string are prefixes of each other. */
  lemma PrefixesComparable(p: string, a: string, b: string)
    requires StartsWith(p, a) && StartsWith(p, b) && |a| <= |b|
    ensures StartsWith(b, a)
  {
    assert b[..|a|] == p[..|b|][..|a|] == p[..|a|];
  }

  /** No navigation target other than the root is a prefix of another target. */
  lemma NavPathsIndependent(i: nat, j: nat)
    requires 0 < i < |NavPaths| && j < |NavPaths| && i != j
    ensures !StartsWith(NavPaths[j], NavPaths[i])
  {
    var a, b := NavPaths[i], NavPaths[j];
    assert |b| < |a| || b[1] != a[1] || b[2] != a[2];
  }

  /** Whatever the current path, at most one navigation link is highlighted. */
  lemma AtMostOneActive(pathname: string, i: nat, j: nat)
    requires i < |NavPaths| && j < |NavPaths| && i != j
    ensures !(IsActive(NavPaths[i], pathname) && IsActive(NavPaths[j], pathname))
  {
    var a, b := NavPaths[i], NavPaths[j];
    if IsActive(a, pathname) && IsActive(b, pathname) && a != "/" && b != "/" {
      if |a| <= |b| {
        PrefixesComparable(pathname, a, b);
        NavPathsIndependent(i, j);
      } else {
        PrefixesComparable(pathname, b, a);
        NavPathsIndependent(j, i);
      }
    }
  }

  /** `toggleTheme`'s choice: dark becomes light, anything else becomes dark. */
  function NextTheme(theme: string): (r: string)
    ensures r == "light" <==> theme == "dark"
    ensures r == "dark" || r == "light"
  {
    if theme == "dark" then "light" else "dark"
  }

  /** Toggling twice restores dark and light; any other stored value ends up light. */
  lemma ToggleTwice(theme: string)
    ensures theme == "dark" || theme == "light" ==> NextTheme(NextTheme(theme)) == theme
    ensures theme != "dark" && theme != "light" ==> NextTheme(NextTheme(theme)) == "light"
  {
  }

  /** `localStorage.getItem('theme') || 'dark'`. */
  function InitialTheme(saved: Option<string>): (r: string)
    ensures saved.Some? && saved.value != "" ==> r == saved.value
    ensures saved.None? || saved.value == "" ==> r == "dark"
  {
    if saved.Some? && saved.value != "" then saved.value else "dark"
  }

  class HeaderState {
    var theme: string
    var mobileMenuOpen: bool
    /** The `theme` entry of the browser's storage. */
    var stored: Option<string>
    /** The document root's `data-theme` attribute. */
    var dataTheme: Option<string>

    /** The page shows the theme the header holds. */
    ghost predicate Valid()
      reads this
    {
      dataTheme == Some(theme)
    }

    /** Mounting: the menu is closed and the saved theme, or dark, is applied to the page. */
    constructor(saved: Option<string>)
      ensures Valid()
      ensures theme == InitialTheme(saved) && !mobileMenuOpen && stored == saved
    {
      theme := InitialTheme(saved);
      mobileMenuOpen := false;
      stored := saved;
      dataTheme := Some(InitialTheme(saved));
    }

    /** `toggleTheme`: switch the theme, save it and apply it to the page. */
    method ToggleTheme()
      modifies this`theme, this`stored, this`dataTheme
      ensures Valid()
      ensures theme == NextTheme(old(theme)) && stored == Some(theme)
    {
      theme := NextTheme(theme);
      stored := Some(theme);
      dataTheme := Some(theme);
    }

    /** The menu button flips the mobile menu. */
    method ToggleMenu()
      modifies this`mobileMenuOpen
      ensures mobileMenuOpen == !old(mobileMenuOpen)
    {
      mobileMenuOpen := !mobileMenuOpen;
    }

    /** A route change, or a click on a mobile link, closes the mobile menu. */
    method CloseMenu()
      modifies this`mobileMenuOpen
      ensures !mobileMenuOpen
    {
      mobileMenuOpen := false;
    }
  }
}
