/** The customer sidebar of `src/components/layout/Sidebar.tsx`: which
    navigation entry is highlighted, and the logout button, which clears
    storage and navigates without going through the session provider. */
module Sidebar {
  import opened Basics
  import AuthContext
  import ProtectedRoute

  datatype NavItem = NavItem(name: string, path: string)

  const NavItems: seq<NavItem> := [
    NavItem("Men\U{00FA}", "/menu"),
    NavItem("Mis Pedidos", "/orders"),
    NavItem("Perfil", "/profile")
  ]

  /** An entry is highlighted when its path equals the current pathname
      exactly. */
  predicate IsActive(item: NavItem, pathname: string) {
    item.path == pathname
  }

  predicate DistinctPaths(items: seq<NavItem>) {
    forall i, j :: 0 <= i < j < |items| ==> items[i].path != items[j].path
  }

  /** The highlighted entries, in order. */
  function Active(items: seq<NavItem>, pathname: string): (r: seq<NavItem>)
    ensures forall it :: it in r <==> it in items && IsActive(it, pathname)
    ensures |r| <= |items|
  {
    if items == [] then []
    else (if IsActive(items[0], pathname) then [items[0]] else []) + Active(items[1..], pathname)
  }

  /** No entry of `items` matches, so nothing is highlighted. */
  lemma {:induction false} NoneActive(items: seq<NavItem>, pathname: string)
    requires forall k :: 0 <= k < |items| ==> !IsActive(items[k], pathname)
    ensures Active(items, pathname) == []
  {
    if items != [] {
      NoneActive(items[1..], pathname);
    }
  }

  /** With distinct paths, at most one entry is highlighted. */
  lemma {:induction false} AtMostOneActive(items: seq<NavItem>, pathname: string)
    requires DistinctPaths(items)
    ensures |Active(items, pathname)| <= 1
  {
    if items != [] {
      var tail := items[1..];
      if IsActive(items[0], pathname) {
        forall k | 0 <= k < |tail|
          ensures !IsActive(tail[k], pathname)
        {
          assert tail[k] == items[k + 1];
        }
        NoneActive(tail, pathname);
      } else {
        assert DistinctPaths(tail) by {
          forall i, j | 0 <= i < j < |tail|
            ensures tail[i].path != tail[j].path
          {
            assert tail[i] == items[i + 1] && tail[j] == items[j + 1];
          }
        }
        AtMostOneActive(tail, pathname);
      }
    }
  }

  /** The application's three entries have distinct paths, so the sidebar
      never highlights two of them. */
  lemma NavItemsHighlightAtMostOne(pathname: string)
    ensures |Active(NavItems, pathname)| <= 1
  {
    AtMostOneActive(NavItems, pathname);
  }

  /** What the logout button leaves behind. */
  datatype LogoutEffect = LogoutEffect(provider: AuthContext.Provider, navigateTo: string)

  /** `handleLogout`: `localStorage.clear()` empties every slot, then the
      router goes to the login page. The provider's `logout` is not called,
      so its user and loading flag are as they were. */
  function HandleLogout(p: AuthContext.Provider): (e: LogoutEffect)
    ensures e.provider.storage == map[]
    ensures e.provider.user == p.user && e.provider.loading == p.loading
    ensures e.navigateTo == ProtectedRoute.LoginPath
  {
    LogoutEffect(p.(storage := map[]), ProtectedRoute.LoginPath)
  }
}
