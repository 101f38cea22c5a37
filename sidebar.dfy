/**
 * The side navigation of `src/components/layout/Sidebar.tsx`: the fixed menu,
 * which entries the store's permission check lets through, and the submenu
 * toggles.
 */
module Sidebar {
  import opened Wrappers
  import Auth
  import Seqs

  /** A menu entry (`label` in the component, a keyword here); the icon is left out. */
  datatype NavItem = NavItem(title: string, path: string, permission: Option<string>, subItems: Option<seq<NavItem>>)

  const AdminSubItems: seq<NavItem> := [
    NavItem("Users", "/admin/users", Some("admin"), None),
    NavItem("Settings", "/admin/settings", Some("admin"), None)
  ]

  /** `navItems`, in the order they are listed. */
  const NavItems: seq<NavItem> := [
    NavItem("Dashboard", "/dashboard", None, None),
    NavItem("Materials", "/materials", Some("request"), None),
    NavItem("Inventory", "/inventory", Some("request"), None),
    NavItem("Purchasing", "/purchasing", Some("request"), None),
    NavItem("Warehousing", "/warehousing", Some("request"), None),
    NavItem("Operations", "/operations", Some("request"), None),
    NavItem("Planning", "/planning", Some("request"), None),
    NavItem("Tasks", "/tasks", Some("request"), None),
    NavItem("Administration", "/admin", Some("admin"), Some(AdminSubItems))
  ]

  /**
   * The sidebar's `hasPermission(item)`: an entry without a permission (or with
   * the empty one) is always shown, any other asks the store.
   */
  function Visible(s: Auth.AuthState, item: NavItem): (r: bool)
    ensures item.permission.None? ==> r
    ensures !s.isAuthenticated ==> (r <==> item.permission.None? || item.permission.value == "")
    ensures item.permission == Some("admin") ==> (r <==> Auth.PermissionGranted(s, "admin"))
  {
    item.permission.None? || item.permission.value == "" || Auth.PermissionGranted(s, item.permission.value)
  }

  /** The filter's facts on any menu, stated without unfolding the fixed one. */
  lemma VisibleItemsFacts(items: seq<NavItem>, s: Auth.AuthState)
    requires |items| >= 1 && items[0].permission.None?
    ensures Seqs.IsSubseq(Seqs.Filter(items, item => Visible(s, item)), items)
    ensures forall item :: item in Seqs.Filter(items, item => Visible(s, item)) <==> item in items && Visible(s, item)
    ensures |Seqs.Filter(items, item => Visible(s, item))| >= 1
    ensures Seqs.Filter(items, item => Visible(s, item))[0] == items[0]
  {
    var p := item => Visible(s, item);
    Seqs.FilterIsSubseq(items, p);
    forall item ensures item in Seqs.Filter(items, p) <==> item in items && p(item) {
      Seqs.FilterMembership(items, p, item);
    }
  }

  /**
   * The top-level entries rendered for the store state `s`: each visible
   * entry of the menu and no other, the dashboard always first.
   */
  function VisibleItems(s: Auth.AuthState): (r: seq<NavItem>)
    ensures Seqs.IsSubseq(r, NavItems)
    ensures forall item :: item in r <==> item in NavItems && Visible(s, item)
    ensures |r| >= 1 && r[0] == NavItems[0]
  {
    VisibleItemsFacts(NavItems, s);
    Seqs.Filter(NavItems, item => Visible(s, item))
  }

  /**
   * The menu in terms of the store's role table: the dashboard always, the
   * seven working areas with the "request" permission, the administration
   * entry with the "admin" permission, in the menu's order.
   */
  lemma VisibleItemsByPermission(s: Auth.AuthState)
    ensures VisibleItems(s) ==
              NavItems[..1] +
              (if Auth.PermissionGranted(s, "request") then NavItems[1..8] else []) +
              (if Auth.PermissionGranted(s, "admin") then NavItems[8..] else [])
  {
    var p := (item: NavItem) => Visible(s, item);
    assert NavItems == NavItems[..1] + NavItems[1..8] + NavItems[8..];
    Seqs.FilterAppend(NavItems[..1] + NavItems[1..8], NavItems[8..], p);
    Seqs.FilterAppend(NavItems[..1], NavItems[1..8], p);
    Seqs.FilterKeepsAll(NavItems[..1], p);
    if Auth.PermissionGranted(s, "request") {
      Seqs.FilterKeepsAll(NavItems[1..8], p);
    } else {
      Seqs.FilterDropsAll(NavItems[1..8], p);
    }
    if Auth.PermissionGranted(s, "admin") {
      Seqs.FilterKeepsAll(NavItems[8..], p);
    } else {
      Seqs.FilterDropsAll(NavItems[8..], p);
    }
  }

  /** What each kind of session sees: everything for an admin, all but administration otherwise, only the dashboard when logged out. */
  lemma VisibleItemsByRole(s: Auth.AuthState)
    ensures !s.isAuthenticated || s.user.None? ==> VisibleItems(s) == [NavItems[0]]
    ensures s.isAuthenticated && s.user.Some? && s.user.value.role == Auth.Admin ==> VisibleItems(s) == NavItems
    ensures s.isAuthenticated && s.user.Some? && s.user.value.role != Auth.Admin ==> VisibleItems(s) == NavItems[..8]
  {
    VisibleItemsByPermission(s);
    assert NavItems[..1] + NavItems[1..8] == NavItems[..8];
    assert NavItems[..8] + NavItems[8..] == NavItems;
  }

  /** `expandedItems[key]`: a key never toggled reads as collapsed. */
  function Expanded(m: map<string, bool>, key: string): bool {
    key in m && m[key]
  }

  /** `toggleSubmenu(key)`: flip that key's flag, keep every other key as it was. */
  function Toggle(m: map<string, bool>, key: string): (r: map<string, bool>)
    ensures key in r && (Expanded(r, key) <==> !Expanded(m, key))
    ensures forall k :: k != key ==> (k in r <==> k in m)
    ensures forall k :: k != key && k in m ==> r[k] == m[k]
  {
    m[key := !Expanded(m, key)]
  }

  /** Toggling twice gives back the same reading of every key. */
  lemma ToggleTwice(m: map<string, bool>, key: string, k: string)
    ensures Expanded(Toggle(Toggle(m, key), key), k) == Expanded(m, k)
  {
  }

  /** The sub-entries shown under `item`: only for a visible, expanded entry that has some, and only the permitted ones. */
  function RenderedSubItems(s: Auth.AuthState, m: map<string, bool>, item: NavItem): seq<NavItem> {
    if Visible(s, item) && item.subItems.Some? && Expanded(m, item.path)
    then Seqs.Filter(item.subItems.value, sub => Visible(s, sub))
    else []
  }

  /**
   * The administration submenu lists Users and Settings exactly when an
   * admin has it expanded, and nothing otherwise.
   */
  lemma AdministrationSubmenu(s: Auth.AuthState, m: map<string, bool>)
    ensures RenderedSubItems(s, m, NavItems[8]) ==
              if Auth.PermissionGranted(s, "admin") && Expanded(m, "/admin") then AdminSubItems else []
  {
    var p := (sub: NavItem) => Visible(s, sub);
    if Auth.PermissionGranted(s, "admin") {
      Seqs.FilterKeepsAll(AdminSubItems, p);
    }
  }

  /** The sidebar's own state: the expanded submenus, and the user its subscription last delivered. */
  class SidebarView {
    var expandedItems: map<string, bool>
    var user: Option<Auth.User>

    /** The first render: nothing expanded, the store's current user. */
    constructor (store: Auth.SessionStore)
      requires store.Valid()
      ensures expandedItems == map[] && user == store.state.user
    {
      expandedItems := map[];
      user := store.GetCurrentUser();
    }

    /** The subscription callback: `setUser(state.user)`. */
    method OnAuthState(s: Auth.AuthState)
      modifies this
      ensures user == s.user && expandedItems == old(expandedItems)
    {
      user := s.user;
    }

    /** A click on an entry with a submenu. */
    method ToggleSubmenu(key: string)
      modifies this
      ensures expandedItems == Toggle(old(expandedItems), key)
      ensures Expanded(expandedItems, key) <==> !old(Expanded(expandedItems, key))
      ensures user == old(user)
    {
      expandedItems := Toggle(expandedItems, key);
    }
  }
}
