/**
 * The console's shell: what a menu click does, which menu entry is
 * highlighted, which group opens for the current route, and how the user's
 * role is labelled.
 */
module MainLayout {
  import opened Strings
  import opened WmsTypes

  /** The three menu groups; their keys are not routes. */
  const Operations: string := "islemler"
  const Settings: string := "ayarlar"
  const Reports: string := "raporlar"

  predicate IsGroupKey(key: string) {
    key == Operations || key == Settings || key == Reports
  }

  /** A menu group and the route keys of its entries. */
  datatype MenuGroup = MenuGroup(key: string, children: seq<string>)

  /** The side menu's groups, in display order. */
  const MenuGroups: seq<MenuGroup> := [
    MenuGroup(Operations, ["/orders", "/orders/pending", "/stock-receive", "/stock-out", "/picking", "/packing",
                           "/returns", "/inventory", "/stock-count", "/low-stock"]),
    MenuGroup(Settings, ["/settings/products", "/settings/tenants", "/settings/warehouses", "/settings/locations",
                         "/settings/users", "/settings/cargo"]),
    MenuGroup(Reports, ["/reports/orders", "/reports/performance", "/reports/stock", "/reports/cargo"])
  ]

  /** The side menu's one top-level entry, the dashboard. */
  const DashboardKey: string := "/"

  /** The user dropdown's entries. */
  const ProfileKey: string := "profile"
  const SettingsEntryKey: string := "settings"
  const LogoutKey: string := "logout"

  datatype MenuAction = Logout | Navigate(to: string) | Stay

  /** `handleMenuClick`, shared by the side menu and the user dropdown. */
  function HandleMenuClick(key: string): (r: MenuAction)
    ensures r == Logout <==> key == LogoutKey
    ensures r == Stay <==> IsGroupKey(key)
    ensures r.Navigate? ==> r.to == key
  {
    if key == LogoutKey then Logout
    else if !IsGroupKey(key) then Navigate(key)
    else Stay
  }

  /**
   * Every menu entry navigates to its own key; the dropdown's profile and
   * settings entries navigate to the relative paths `profile` and `settings`.
   */
  lemma MenuEntriesNavigate(key: string)
    requires key == DashboardKey || key == ProfileKey || key == SettingsEntryKey || exists g :: g in MenuGroups && key in g.children
    ensures HandleMenuClick(key) == Navigate(key)
  {
  }

  /** `getSelectedKeys`: the current path, alone. */
  function SelectedKeys(pathname: string): (r: seq<string>)
    ensures |r| == 1 && pathname in r
  {
    [pathname]
  }

  /** A path under one of the operations group's route prefixes. */
  predicate OperationsPath(pathname: string) {
    StartsWith(pathname, "/orders") || StartsWith(pathname, "/stock") || StartsWith(pathname, "/picking")
    || StartsWith(pathname, "/packing") || StartsWith(pathname, "/returns") || StartsWith(pathname, "/inventory")
    || StartsWith(pathname, "/low-stock")
  }

  /** `getOpenKeys`: the group whose route prefixes the path starts with, if any. */
  function OpenKeys(pathname: string): (r: seq<string>)
    ensures |r| <= 1
    ensures forall k :: k in r ==> IsGroupKey(k)
    ensures OperationsPath(pathname) ==> r == [Operations]
    ensures r == [] <==> !(OperationsPath(pathname) || StartsWith(pathname, "/settings") || StartsWith(pathname, "/reports"))
  {
    if OperationsPath(pathname)
    then [Operations]
    else if StartsWith(pathname, "/settings") then [Settings]
    else if StartsWith(pathname, "/reports") then [Reports]
    else []
  }

  /** Two strings that differ at a common position cannot both prefix one path. */
  lemma PrefixesDiffer(s: string, p: string, q: string, i: int)
    requires 0 <= i < |p| && i < |q| && p[i] != q[i]
    requires StartsWith(s, p)
    ensures !StartsWith(s, q)
  {
    assert s[i] == s[..|p|][i] == p[i];
  }

  /** Every path under `/settings` opens the settings group. */
  lemma SettingsPathsOpenSettings(pathname: string)
    requires StartsWith(pathname, "/settings")
    ensures OpenKeys(pathname) == [Settings]
  {
    PrefixesDiffer(pathname, "/settings", "/orders", 1);
    PrefixesDiffer(pathname, "/settings", "/stock", 2);
    PrefixesDiffer(pathname, "/settings", "/picking", 1);
    PrefixesDiffer(pathname, "/settings", "/packing", 1);
    PrefixesDiffer(pathname, "/settings", "/returns", 1);
    PrefixesDiffer(pathname, "/settings", "/inventory", 1);
    PrefixesDiffer(pathname, "/settings", "/low-stock", 1);
  }

  /** Every path under `/reports` opens the reports group. */
  lemma ReportsPathsOpenReports(pathname: string)
    requires StartsWith(pathname, "/reports")
    ensures OpenKeys(pathname) == [Reports]
  {
    PrefixesDiffer(pathname, "/reports", "/orders", 1);
    PrefixesDiffer(pathname, "/reports", "/stock", 1);
    PrefixesDiffer(pathname, "/reports", "/picking", 1);
    PrefixesDiffer(pathname, "/reports", "/packing", 1);
    PrefixesDiffer(pathname, "/reports", "/returns", 3);
    PrefixesDiffer(pathname, "/reports", "/inventory", 1);
    PrefixesDiffer(pathname, "/reports", "/low-stock", 1);
    PrefixesDiffer(pathname, "/reports", "/settings", 1);
  }

  /** Every entry of the operations group opens it, the `/stock-…` entries included. */
  lemma OperationsEntriesOpenOperations(key: string)
    requires key in MenuGroups[0].children
    ensures OpenKeys(key) == [Operations]
  {
    if key == "/orders" || key == "/orders/pending" {
      assert StartsWith(key, "/orders");
    } else if key == "/stock-receive" || key == "/stock-out" || key == "/stock-count" {
      assert StartsWith(key, "/stock");
    } else {
      assert StartsWith(key, key);
    }
  }

  /** Opening the page at any entry of a group opens that group. */
  lemma MenuEntryOpensItsGroup(g: MenuGroup, key: string)
    requires g in MenuGroups && key in g.children
    ensures OpenKeys(key) == [g.key]
  {
    if g == MenuGroups[0] {
      OperationsEntriesOpenOperations(key);
    } else if g == MenuGroups[1] {
      assert StartsWith(key, "/settings");
      SettingsPathsOpenSettings(key);
    } else {
      assert StartsWith(key, "/reports");
      ReportsPathsOpenReports(key);
    }
  }

  /**
   * The dashboard opens no group, and neither does a path that does not start
   * with `/`, such as the relative `profile` the dropdown navigates to.
   */
  lemma UngroupedPathsOpenNothing(pathname: string)
    requires pathname == DashboardKey || (|pathname| > 0 && pathname[0] != '/')
    ensures OpenKeys(pathname) == []
  {
    if pathname != DashboardKey {
      var prefixes := ["/orders", "/stock", "/picking", "/packing", "/returns", "/inventory", "/low-stock",
                       "/settings", "/reports"];
      forall p | p in prefixes
        ensures !StartsWith(pathname, p)
      {
        PrefixesDiffer(pathname, pathname[..1], p, 0);
      }
    }
  }

  /** The role label: the strings '0'/'Admin' and '1'/'Manager' are recognised, anything else is an operator. */
  function RoleLabel(role: RoleValue): (r: string)
    ensures r == "Yönetici" <==> role == RoleText("0") || role == RoleText("Admin")
    ensures r == "Müdür" <==> role == RoleText("1") || role == RoleText("Manager")
    ensures r == "Yönetici" || r == "Müdür" || r == "Operatör"
  {
    if role == RoleText("0") || role == RoleText("Admin") then "Yönetici"
    else if role == RoleText("1") || role == RoleText("Manager") then "Müdür"
    else "Operatör"
  }

  /** A role delivered as the numeric enum value never matches: every number is labelled an operator. */
  lemma NumericRoleIsOperator(n: int)
    ensures RoleLabel(RoleNumber(n)) == "Operatör"
  {
  }
}
