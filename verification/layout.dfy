/** The dashboard shell: its menu, the active-item rule and the logout action. */
module Layout {
  import opened MockApi
  import opened Wrappers

  /** A sidebar entry: the translation key of its label and the route it opens. */
  datatype MenuItem = MenuItem(labelKey: string, path: string)

  const DashboardPath: string := "/dashboard"
  const LoginPath: string := "/login"

  /** The five sidebar entries, in order. */
  function MenuItems(): (r: seq<MenuItem>)
    ensures |r| == 5
    ensures r[0].path == DashboardPath
    ensures forall i :: 0 <= i < |r| ==> DashboardPath <= r[i].path
    ensures forall i, j :: 0 <= i < j < |r| ==> r[i].path != r[j].path
  {
    [ MenuItem("nav.dashboard", "/dashboard"),
      MenuItem("nav.accounts", "/dashboard/accounts"),
      MenuItem("nav.messages", "/dashboard/messages"),
      MenuItem("nav.automations", "/dashboard/automations"),
      MenuItem("nav.profile", "/dashboard/profile") ]
  }

  /** Whether an entry is highlighted for the current pathname: the dashboard entry only on an
      exact match, every other entry whenever its path is a string prefix of the pathname. */
  function IsActive(item: MenuItem, pathname: string): (r: bool)
    ensures item.path == DashboardPath ==> (r <==> pathname == DashboardPath)
    ensures item.path != DashboardPath ==> (r <==> item.path <= pathname)
  {
    if item.path == DashboardPath then pathname == DashboardPath else item.path <= pathname
  }

  /** On the accounts page the accounts entry is the only highlighted one. */
  lemma AccountsPageHighlight()
    ensures IsActive(MenuItems()[1], "/dashboard/accounts")
    ensures forall i :: 0 <= i < 5 && i != 1 ==> !IsActive(MenuItems()[i], "/dashboard/accounts")
  {
    var items := MenuItems();
    assert items[2].path == "/dashboard/messages";
    assert "/dashboard/messages"[11] != "/dashboard/accounts"[11];
    assert "/dashboard/automations"[12] != "/dashboard/accounts"[12];
    assert "/dashboard/profile"[11] != "/dashboard/accounts"[11];
  }

  /** The prefix rule is on characters, not path segments: a longer sibling path still highlights. */
  lemma PrefixIsNotSegmentwise()
    ensures IsActive(MenuItems()[1], "/dashboard/accounts-archive")
  {
    assert "/dashboard/accounts" <= "/dashboard/accounts-archive";
  }

  /** Every pathname highlights at most one entry. */
  lemma AtMostOneActive(pathname: string, i: nat, j: nat)
    requires i < j < 5
    ensures !(IsActive(MenuItems()[i], pathname) && IsActive(MenuItems()[j], pathname))
  {
    var a, b := MenuItems()[i].path, MenuItems()[j].path;
    if i != 0 {
      var k := if i == 1 && j == 3 then 12 else 11;
      assert k < |a| && k < |b| && a[k] != b[k];
      if a <= pathname && b <= pathname {
        PrefixesOfOneStringAreComparable(a, b, pathname);
      }
    }
  }

  /** Two prefixes of the same string are prefixes of one another. */
  lemma PrefixesOfOneStringAreComparable(a: string, b: string, s: string)
    requires a <= s && b <= s
    ensures a <= b || b <= a
    ensures forall k :: 0 <= k < |a| && k < |b| ==> a[k] == b[k]
  {
    if |a| <= |b| {
      assert a == s[..|a|] == b[..|a|];
    } else {
      assert b == s[..|b|] == a[..|b|];
    }
  }

  /** Where the app goes after the logout button. */
  datatype Navigation = Navigation(store: Store, route: string)

  /** Logout clears the persisted user and then routes to the login page. */
  function HandleLogout(st: Store): (r: Navigation)
    ensures GetCurrentUser(r.store) == None
    ensures r.store.(authUser := st.authUser) == st
    ensures r.route == LoginPath
  {
    Navigation(Logout(st), LoginPath)
  }
}
