/** The mobile bottom navigation (`BottomNav`): four tabs, the highlighted tab
    that follows the current path, and the tab click that either navigates or
    opens the menu. */
module BottomNav {
  import opened Util
  import AppRoutes

  datatype TabAction = Navigate(path: string) | OpenMenu

  datatype Tab = Tab(text: string, action: TabAction)

  /** `navigationItems`: three links and the menu action, in this order. */
  const NavigationItems: seq<Tab> := [
    Tab("Home", Navigate("/dashboard")),
    Tab("Keys", Navigate("/keys")),
    Tab("Generate", Navigate("/generate-keys")),
    Tab("Menu", OpenMenu)
  ]

  /** The paths the path-change effect looks for, in tab order. */
  const TabPaths: seq<string> := ["/dashboard", "/keys", "/generate-keys"]

  /** `paths.findIndex(path => currentPath.startsWith(path))`, from index `from`:
      the first index at or after `from` whose path is a plain prefix of the
      current path, or -1. */
  function FindPrefixIndex(paths: seq<string>, currentPath: string, from: nat): (r: int)
    requires from <= |paths|
    ensures r == -1 || from <= r < |paths|
    ensures r == -1 <==> forall j :: from <= j < |paths| ==> !StartsWith(currentPath, paths[j])
    ensures r != -1 ==> StartsWith(currentPath, paths[r]) &&
                        forall j :: from <= j < r ==> !StartsWith(currentPath, paths[j])
    decreases |paths| - from
  {
    if from == |paths| then -1
    else if StartsWith(currentPath, paths[from]) then from
    else FindPrefixIndex(paths, currentPath, from + 1)
  }

  /** The effect's lookup ignores segment boundaries: `/keysX` counts as the
      Keys tab. */
  lemma PrefixWithoutBoundary()
    ensures FindPrefixIndex(TabPaths, "/keysX", 0) == 1
  {
    assert !StartsWith("/keysX", "/dashboard");
    assert StartsWith("/keysX", "/keys");
  }

  /** Each tab's link path, as the current path, highlights that same tab. */
  lemma {:induction false} TabPathsHighlightTheirTab(n: nat)
    requires n < |TabPaths|
    ensures NavigationItems[n].action == Navigate(TabPaths[n])
    ensures FindPrefixIndex(TabPaths, TabPaths[n], 0) == n
  {
    if n == 0 {
      assert StartsWith(TabPaths[0], TabPaths[0]);
    } else if n == 1 {
      assert TabPaths[1][1] != TabPaths[0][1];
      assert !StartsWith(TabPaths[1], TabPaths[0]);
      assert StartsWith(TabPaths[1], TabPaths[1]);
    } else {
      assert TabPaths[2][1] != TabPaths[0][1];
      assert TabPaths[2][1] != TabPaths[1][1];
      assert !StartsWith(TabPaths[2], TabPaths[1]);
      assert StartsWith(TabPaths[2], TabPaths[2]);
    }
  }

  /** Only the fourth tab opens the menu; every other tab links to a page the
      route table knows. */
  lemma {:induction false} OnlyTheLastTabOpensTheMenu(n: nat)
    requires n < |NavigationItems|
    ensures NavigationItems[n].action == OpenMenu <==> n == 3
    ensures NavigationItems[n].action.Navigate? ==>
      AppRoutes.MatchRoute(NavigationItems[n].action.path) !in {AppRoutes.NotFound, AppRoutes.Root}
  {
    if n < 3 {
      var p := NavigationItems[n].action.path;
      if n == 0 {
        AppRoutes.MatchDashboard();
      } else if n == 1 {
        AppRoutes.MatchKeys();
      } else {
        AppRoutes.MatchGenerateKeys();
      }
    }
  }

  class BottomNavState {
    /** The highlighted tab. */
    var value: int

    constructor ()
      ensures value == 0
    {
      value := 0;
    }

    /** The effect run when the current path changes: highlight the first tab
        whose path prefixes it, and leave the highlight alone when none does. */
    method OnPathChange(currentPath: string)
      modifies this
      ensures var index := FindPrefixIndex(TabPaths, currentPath, 0);
        value == if index != -1 then index else old(value)
    {
      var index := FindPrefixIndex(TabPaths, currentPath, 0);
      if index != -1 {
        value := index;
      }
    }

    /** `handleChange(event, newValue)`: highlight the clicked tab, then open
        the menu or navigate to the tab's path. */
    method HandleChange(newValue: nat) returns (effect: TabAction)
      requires newValue < |NavigationItems|
      modifies this
      ensures value == newValue
      ensures effect == NavigationItems[newValue].action
      ensures effect == OpenMenu <==> newValue == 3
    {
      value := newValue;
      OnlyTheLastTabOpensTheMenu(newValue);
      effect := NavigationItems[newValue].action;
    }
  }
}
