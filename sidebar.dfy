/** Navigation highlighting in the sidebar (src/components/layout/Sidebar.tsx):
    the four fixed routes and the test that marks a route active for the
    current path. */
module Sidebar {
  import opened Text

  datatype NavItem = NavItem(title: string, url: string)

  const NavigationItems: seq<NavItem> := [
    NavItem("My Feed", "/"),
    NavItem("Popular", "/popular"),
    NavItem("Bookmarks", "/bookmarks"),
    NavItem("Settings", "/settings")
  ]

  /** `isActive(path)`: the root only on the root itself, every other route
      on any path that starts with it. */
  predicate IsActive(pathname: string, path: string)
    ensures IsActive(pathname, path) ==> StartsWith(pathname, path)
    ensures path == "/" ==> (IsActive(pathname, path) <==> pathname == "/")
  {
    if path == "/" then pathname == "/" else StartsWith(pathname, path)
  }

  /** The feed's item is active on "/" and nowhere else. */
  lemma RootActiveOnlyAtRoot(pathname: string)
    ensures IsActive(pathname, NavigationItems[0].url) <==> pathname == "/"
  {
  }

  /** Every route is active on its own path. */
  lemma OwnPathActive(i: nat)
    requires i < |NavigationItems|
    ensures IsActive(NavigationItems[i].url, NavigationItems[i].url)
  {
  }

  /** The test is a plain prefix test: it does not stop at a path segment. */
  lemma PrefixNotSegment()
    ensures IsActive("/popularity", "/popular")
    ensures IsActive("/settings/profile", "/settings")
    ensures !IsActive("/popular", "/")
  {
    assert "/popularity"[..|"/popular"|] == "/popular";
    assert "/settings/profile"[..|"/settings"|] == "/settings";
  }

  /** For any path, at most one of the four routes is highlighted. */
  lemma AtMostOneActive(pathname: string, i: nat, j: nat)
    requires i < j < |NavigationItems|
    ensures !(IsActive(pathname, NavigationItems[i].url) && IsActive(pathname, NavigationItems[j].url))
  {
    var u, v := NavigationItems[i].url, NavigationItems[j].url;
    // Every route but the root is longer than "/", and the routes differ
    // in their second character, which any path they both prefix shares.
    assert 1 < |v| && v != "/";
    assert StartsWith(pathname, v) ==> pathname[1] == v[1];
    if i > 0 {
      assert 1 < |u| && u != "/" && u[1] != v[1];
      assert StartsWith(pathname, u) ==> pathname[1] == u[1];
    }
  }
}
