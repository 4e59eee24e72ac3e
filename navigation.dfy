/**
 * The navigation composable (`useNavigation`): the two fixed menus, the rule that
 * decides whether an item is shown for a session, and the mobile-menu and
 * current-route state.
 */
module Navigation {
  import opened Base

  /** `NavigationItem` (its `label` is `caption`); `requiresAuth` and `roles` may be left out. */
  datatype NavigationItem = NavigationItem(
    caption: string,
    icon: string,
    route: string,
    requiresAuth: Option<bool>,
    roles: Option<seq<string>>)

  /** The menu for signed-in users. */
  const MainItems: seq<NavigationItem> := [
    NavigationItem("Dashboard", "mdi-view-dashboard", "/dashboard", Some(true), None),
    NavigationItem("All Users", "mdi-account-multiple", "/users", Some(true), None),
    NavigationItem("Game Users", "mdi-gamepad-variant", "/nakama", Some(true), None),
    NavigationItem("Profile", "mdi-account", "/profile", Some(true), None)
  ]

  /** The menu for visitors. */
  const AuthItems: seq<NavigationItem> := [
    NavigationItem("Login", "mdi-login", "/login", Some(false), None),
    NavigationItem("Register", "mdi-account-plus", "/register", Some(false), None)
  ]

  predicate RequiresAuth(item: NavigationItem)
  {
    item.requiresAuth == Some(true)
  }

  /**
   * `isItemVisible(item, isAuthenticated, userRole)`: an item is shown only to the
   * session its `requiresAuth` asks for, and an item with roles is hidden when a
   * (non-empty) role is given that is not among them.
   */
  predicate IsItemVisible(item: NavigationItem, isAuthenticated: bool, userRole: Option<string>)
  {
    if RequiresAuth(item) && !isAuthenticated then false
    else if !RequiresAuth(item) && isAuthenticated then false
    else if item.roles.Some? && TruthyStr(userRole) && userRole.value !in item.roles.value then false
    else true
  }

  /** Visibility is exactly: the session matches `requiresAuth`, and no given role is excluded. */
  lemma VisibilityRule(item: NavigationItem, isAuthenticated: bool, userRole: Option<string>)
    ensures IsItemVisible(item, isAuthenticated, userRole) <==>
      RequiresAuth(item) == isAuthenticated &&
      (item.roles.None? || !TruthyStr(userRole) || userRole.value in item.roles.value)
  {
  }

  /** `items.filter(item => isItemVisible(item, ...))` */
  function Visible(items: seq<NavigationItem>, isAuthenticated: bool, userRole: Option<string>): (r: seq<NavigationItem>)
    ensures |r| <= |items|
    ensures forall x :: x in r <==> x in items && IsItemVisible(x, isAuthenticated, userRole)
  {
    if items == [] then []
    else (if IsItemVisible(items[0], isAuthenticated, userRole) then [items[0]] else []) + Visible(items[1..], isAuthenticated, userRole)
  }

  /** A list whose every item is visible passes the filter unchanged. */
  lemma {:induction false} VisibleAll(items: seq<NavigationItem>, isAuthenticated: bool, userRole: Option<string>)
    requires forall i :: 0 <= i < |items| ==> IsItemVisible(items[i], isAuthenticated, userRole)
    ensures Visible(items, isAuthenticated, userRole) == items
  {
    if items != [] {
      VisibleAll(items[1..], isAuthenticated, userRole);
      assert [items[0]] + items[1..] == items;
    }
  }

  /** `getFilteredNavigationItems(isAuthenticated, userRole)` */
  function FilteredNavigationItems(isAuthenticated: bool, userRole: Option<string>): (r: seq<NavigationItem>)
    ensures isAuthenticated ==> forall x :: x in r ==> x in MainItems
    ensures !isAuthenticated ==> forall x :: x in r ==> x in AuthItems
  {
    Visible(if isAuthenticated then MainItems else AuthItems, isAuthenticated, userRole)
  }

  /** Signed-in users see all four main items and visitors see exactly Login and Register, whatever the role. */
  lemma FilteredMenus(userRole: Option<string>)
    ensures FilteredNavigationItems(true, userRole) == MainItems
    ensures FilteredNavigationItems(false, userRole) == AuthItems
  {
    var m, a := MainItems, AuthItems;
    assert |m| == 4 && |a| == 2;
    forall i | 0 <= i < |m| ensures m[i].roles.None? && m[i].requiresAuth == Some(true) {
      assert i == 0 || i == 1 || i == 2 || i == 3;
    }
    forall i | 0 <= i < |a| ensures a[i].roles.None? && a[i].requiresAuth == Some(false) {
      assert i == 0 || i == 1;
    }
    MenuVisible(m, true, userRole);
    MenuVisible(a, false, userRole);
  }

  /** A menu whose items carry no roles and all ask for the same session is shown whole to that session. */
  lemma MenuVisible(items: seq<NavigationItem>, isAuthenticated: bool, userRole: Option<string>)
    requires forall i :: 0 <= i < |items| ==> items[i].roles.None? && items[i].requiresAuth == Some(isAuthenticated)
    ensures Visible(items, isAuthenticated, userRole) == items
  {
    VisibleAll(items, isAuthenticated, userRole);
  }

  class NavigationState {
    var isMobileMenuOpen: bool
    var currentRoute: string

    constructor()
      ensures !isMobileMenuOpen && currentRoute == ""
    {
      isMobileMenuOpen := false;
      currentRoute := "";
    }

    method ToggleMobileMenu()
      modifies this
      ensures isMobileMenuOpen == !old(isMobileMenuOpen) && currentRoute == old(currentRoute)
    {
      isMobileMenuOpen := !isMobileMenuOpen;
    }

    method CloseMobileMenu()
      modifies this
      ensures !isMobileMenuOpen && currentRoute == old(currentRoute)
    {
      isMobileMenuOpen := false;
    }

    method OpenMobileMenu()
      modifies this
      ensures isMobileMenuOpen && currentRoute == old(currentRoute)
    {
      isMobileMenuOpen := true;
    }

    predicate IsRouteActive(route: string)
      reads this
    {
      currentRoute == route
    }

    method UpdateCurrentRoute(route: string)
      modifies this
      ensures currentRoute == route && isMobileMenuOpen == old(isMobileMenuOpen)
      ensures forall r :: IsRouteActive(r) <==> r == route
    {
      currentRoute := route;
    }
  }

  /** Toggling the mobile menu twice restores it. */
  method ToggleMenuTwice(n: NavigationState) returns (restored: bool)
    modifies n
    ensures restored
  {
    var before := n.isMobileMenuOpen;
    n.ToggleMobileMenu();
    n.ToggleMobileMenu();
    restored := n.isMobileMenuOpen == before;
  }
}
