/** The side navigation (`Sidebar`): the fixed primary menu, the management
    menu chosen by the signed-in user's role, the "selected" test for an entry,
    and the collapse and management-open toggles. */
module Sidebar {
  import opened Util
  import AuthContext
  import AppRoutes

  datatype NavItem = NavItem(text: string, path: string)

  const Home := NavItem("Home", "/dashboard")
  const MyKeys := NavItem("My Keys", "/keys")
  const GenerateKeys := NavItem("Generate Keys", "/generate-keys")
  const Transactions := NavItem("Transactions", "/transactions")
  const ResetKey := NavItem("Reset Key", "/reset-key")

  const Users := NavItem("Users", "/users")
  const UploadKey := NavItem("Upload Key", "/upload-keys")
  const ProvidersPlans := NavItem("Providers & Plans", "/provider-plans")
  const UnsoldKeys := NavItem("Unsold Keys", "/unsold-keys")
  const BonusList := NavItem("Bonus List", "/bonus-list")
  const CreateReferral := NavItem("Create Referral", "/create-ref")
  const MyBonus := NavItem("My Bonus", "/my-bonus")
  const ChangePassword := NavItem("Change Password", "/change-password")

  /** The primary menu: the same five entries for every user. */
  const MenuItems: seq<NavItem> := [Home, MyKeys, GenerateKeys, Transactions, ResetKey]

  const OwnerItems: seq<NavItem> :=
    [Users, UploadKey, ProvidersPlans, UnsoldKeys, BonusList, CreateReferral, ChangePassword]
  const AdminItems: seq<NavItem> := [Users, MyBonus, CreateReferral, ChangePassword]
  const ResellerItems: seq<NavItem> := [ChangePassword]

  /** `getManagementItems()`: nothing without a user; otherwise the list of
      the user's role, by exact comparison, with any other or missing role
      getting the reseller's single entry. */
  function ManagementItems(user: Option<AuthContext.User>): (items: seq<NavItem>)
    ensures user.None? ==> items == []
    ensures user.Some? ==> |items| >= 1 && items[|items| - 1] == ChangePassword
    ensures user.Some? && user.value.role == Some("owner") ==> items == OwnerItems
    ensures user.Some? && user.value.role == Some("admin") ==> items == AdminItems
    ensures user.Some? && user.value.role != Some("owner") && user.value.role != Some("admin") ==>
      items == [ChangePassword]
  {
    if user.None? then []
    else
      var role := user.value.role;
      if role == Some("owner") then OwnerItems
      else if role == Some("admin") then AdminItems
      else if role == Some("reseller") then ResellerItems
      else [ChangePassword]
  }

  /** `showManagementSection`: the management list is non-empty. */
  predicate ShowManagementSection(user: Option<AuthContext.User>) {
    |ManagementItems(user)| > 0
  }

  /** The management section is shown exactly when someone is signed in. */
  lemma ManagementShownIffSignedIn(user: Option<AuthContext.User>)
    ensures ShowManagementSection(user) <==> user.Some?
  {
  }

  /** `isSelected(path)`: the current path is the entry's path or lies below it. */
  function IsSelected(currentPath: string, path: string): (r: bool)
    ensures r <==> currentPath == path ||
                   (StartsWith(currentPath, path) && |currentPath| > |path| && currentPath[|path|] == '/')
  {
    var below := StartsWith(currentPath, path + "/");
    if |currentPath| > |path| then
      assert currentPath[..|path| + 1] == currentPath[..|path|] + [currentPath[|path|]];
      currentPath == path || below
    else
      currentPath == path || below
  }

  /** Selection respects path segments: an entry is selected only at its own
      path or one below it, never at a longer sibling such as `/keysX`. */
  lemma {:induction false} SelectionRespectsSegments(currentPath: string, path: string)
    ensures IsSelected(currentPath, path) ==>
      StartsWith(currentPath, path) &&
      (|currentPath| == |path| || currentPath[|path|] == '/')
  {
    if IsSelected(currentPath, path) && currentPath != path {
      assert currentPath[..|path| + 1] == path + "/";
      assert currentPath[..|path|] == (path + "/")[..|path|];
    }
  }

  lemma NoSiblingSelection()
    ensures !IsSelected("/keysX", "/keys") && IsSelected("/keys/1", "/keys")
  {
    assert ("/keysX")[..6][5] != ("/keys/")[5];
    assert ("/keys/1")[..6] == "/keys/";
  }

  /** Every path of the primary menu is a static path of the route table. */
  lemma {:induction false} MenuPathsMatch(p: string)
    requires p in {"/dashboard", "/keys", "/generate-keys", "/transactions", "/reset-key"}
    ensures AppRoutes.MatchRoute(p) !in {AppRoutes.NotFound, AppRoutes.Root}
    ensures !AppRoutes.IsPublic(AppRoutes.MatchRoute(p))
  {
    if p == "/dashboard" {
      AppRoutes.MatchDashboard();
    } else if p == "/keys" {
      AppRoutes.MatchKeys();
    } else if p == "/generate-keys" {
      AppRoutes.MatchGenerateKeys();
    } else if p == "/transactions" {
      AppRoutes.MatchTransactions();
    } else {
      AppRoutes.MatchResetKey();
    }
  }

  /** Every path of the management menu is a static path of the route table. */
  lemma {:induction false} ManagementPathsMatch(p: string)
    requires p in {"/users", "/upload-keys", "/provider-plans", "/unsold-keys", "/bonus-list",
                   "/create-ref", "/my-bonus", "/change-password"}
    ensures AppRoutes.MatchRoute(p) !in {AppRoutes.NotFound, AppRoutes.Root}
    ensures !AppRoutes.IsPublic(AppRoutes.MatchRoute(p))
  {
    if p == "/users" {
      AppRoutes.MatchUsers();
    } else if p == "/upload-keys" {
      AppRoutes.MatchUploadKeys();
    } else if p == "/provider-plans" {
      AppRoutes.MatchProviderPlans();
    } else if p == "/unsold-keys" {
      AppRoutes.MatchUnsoldKeys();
    } else if p == "/bonus-list" {
      AppRoutes.MatchBonusList();
    } else if p == "/create-ref" {
      AppRoutes.MatchCreateReferral();
    } else if p == "/my-bonus" {
      AppRoutes.MatchMyBonus();
    } else {
      AppRoutes.MatchChangePassword();
    }
  }

  /** Every entry either menu offers, for any user, opens a page of the route
      table rather than the `*` fallback, and a signed-in user is shown it. */
  lemma {:induction false} EveryEntryIsARoute(user: Option<AuthContext.User>, item: NavItem)
    requires item in MenuItems || item in ManagementItems(user)
    ensures AppRoutes.MatchRoute(item.path) != AppRoutes.NotFound
    ensures AppRoutes.Render(item.path, true, false) == AppRoutes.Show(AppRoutes.MatchRoute(item.path))
  {
    if item in MenuItems {
      MenuPathsMatch(item.path);
    } else {
      assert item in OwnerItems || item in AdminItems;
      ManagementPathsMatch(item.path);
    }
  }

  /** The toggles of the side panel. */
  class SidebarState {
    var collapsed: bool
    var managementOpen: bool

    constructor ()
      ensures !collapsed && !managementOpen
    {
      collapsed, managementOpen := false, false;
    }

    /** The management submenu is visible only when opened and not collapsed. */
    function SubmenuVisible(): bool
      reads this
    {
      managementOpen && !collapsed
    }

    /** `toggleCollapse()`: flip `collapsed` and report the new value to
        `onCollapse` when the parent supplied one. */
    method ToggleCollapse(hasOnCollapse: bool) returns (reported: Option<bool>)
      modifies this
      ensures collapsed == !old(collapsed) && managementOpen == old(managementOpen)
      ensures reported == if hasOnCollapse then Some(collapsed) else None
    {
      var newCollapsedState := !collapsed;
      collapsed := newCollapsedState;
      if hasOnCollapse {
        reported := Some(newCollapsedState);
      } else {
        reported := None;
      }
    }

    /** The management header's click: flip `managementOpen`. */
    method ToggleManagement()
      modifies this
      ensures managementOpen == !old(managementOpen) && collapsed == old(collapsed)
    {
      managementOpen := !managementOpen;
    }
  }
}
