/** The backoffice sidebar: the navigation entries and which of them is
    highlighted for the current path. */
module Sidebar {
  import opened Text
  import opened RecordList

  datatype NavItem = NavItem(to: string, caption: string)

  const Dashboard := NavItem("/admin", "Dashboard")

  /** The entries, in display order. */
  const NavItems: seq<NavItem> := [
    Dashboard,
    NavItem("/admin/providers", "Providers"),
    NavItem("/admin/bookings", "Bookings"),
    NavItem("/admin/sales", "Sales & Analytics"),
    NavItem("/admin/users", "Users"),
    NavItem("/admin/settings", "Settings"),
    NavItem("/admin/developers", "Developers")
  ]

  /** An entry is highlighted on its own path and on every path below it. */
  predicate IsActive(pathname: string, to: string) {
    pathname == to || IsPrefix(to + "/", pathname)
  }

  /** The highlighted entries. */
  function ActiveItems(pathname: string): (r: seq<NavItem>)
    ensures forall n :: n in r <==> n in NavItems && IsActive(pathname, n.to)
    ensures IsSubsequence(r, NavItems)
  {
    FilterIsSubsequence(NavItems, (n: NavItem) => IsActive(pathname, n.to));
    Filter(NavItems, (n: NavItem) => IsActive(pathname, n.to))
  }

  /** The entries' paths serve as their keys, so they are distinct. */
  lemma TargetsDistinct()
    ensures forall i, j :: 0 <= i < j < |NavItems| ==> NavItems[i].to != NavItems[j].to
  {
    forall i, j | 0 <= i < j < |NavItems| ensures NavItems[i].to != NavItems[j].to {
      var a, b := NavItems[i].to, NavItems[j].to;
      if |a| == |b| {
        assert a[7] != b[7] || a[8] != b[8];
      }
    }
  }

  /** Of two prefixes of the same string, the shorter is a prefix of the
      longer. */
  lemma PrefixesNest(p: string, q: string, s: string)
    requires IsPrefix(p, s) && IsPrefix(q, s) && |p| <= |q|
    ensures IsPrefix(p, q)
  {
    assert q[..|p|] == s[..|q|][..|p|] == s[..|p|];
  }

  /** Two entries highlighted together: one of them lies below the other. */
  lemma {:induction false} BothActive(pathname: string, a: string, b: string)
    requires IsActive(pathname, a) && IsActive(pathname, b)
    ensures a == b || IsPrefix(a + "/", b) || IsPrefix(b + "/", a)
  {
    if pathname == a && pathname == b {
    } else if pathname == a {
      assert IsPrefix(b + "/", a);
    } else if pathname == b {
      assert IsPrefix(a + "/", b);
    } else if |a| <= |b| {
      PrefixesNest(a + "/", b + "/", pathname);
      assert (a + "/")[..|a| + 1] == (b + "/")[..|a| + 1];
      assert |a| == |b| ==> a == b by {
        if |a| == |b| {
          assert a == (a + "/")[..|a|] && b == (b + "/")[..|b|];
        }
      }
      if |a| < |b| {
        assert b[..|a| + 1] == (b + "/")[..|a| + 1];
      }
    } else {
      PrefixesNest(b + "/", a + "/", pathname);
      assert a[..|b| + 1] == (a + "/")[..|b| + 1];
    }
  }

  /** `/admin/` starts every other entry's path. */
  lemma BelowDashboard(i: nat)
    requires 1 <= i < |NavItems|
    ensures IsPrefix(Dashboard.to + "/", NavItems[i].to)
  {
    assert Dashboard.to + "/" == "/admin/";
  }

  /** No entry other than the dashboard lies below another. */
  lemma SectionsDisjoint(i: nat, j: nat)
    requires 1 <= i < |NavItems| && 1 <= j < |NavItems| && i != j
    ensures !IsPrefix(NavItems[i].to + "/", NavItems[j].to)
  {
    var a, b := NavItems[i].to + "/", NavItems[j].to;
    if |a| <= |b| {
      assert a[7] != b[7] || a[8] != b[8] || a[|a| - 1] != b[|a| - 1];
    }
  }

  /** The dashboard is highlighted wherever a section is. */
  lemma DashboardUnderSection(pathname: string, i: nat)
    requires 1 <= i < |NavItems| && IsActive(pathname, NavItems[i].to)
    ensures IsActive(pathname, Dashboard.to)
  {
    BelowDashboard(i);
    var a := NavItems[i].to;
    if pathname != a {
      PrefixesNest(Dashboard.to + "/", a + "/", pathname);
      assert (a + "/")[..7] == a[..7];
      assert pathname[..7] == "/admin/";
    }
  }

  /** On any path at most two entries are highlighted: one section, together
      with the dashboard, which is highlighted under every section. */
  lemma ActiveTrail(pathname: string, i: nat, j: nat)
    requires 1 <= i < |NavItems| && IsActive(pathname, NavItems[i].to)
    requires j < |NavItems| && IsActive(pathname, NavItems[j].to)
    ensures IsActive(pathname, Dashboard.to)
    ensures j == 0 || j == i
  {
    DashboardUnderSection(pathname, i);
    if j != 0 && j != i {
      BothActive(pathname, NavItems[i].to, NavItems[j].to);
      TargetsDistinct();
      SectionsDisjoint(i, j);
      SectionsDisjoint(j, i);
    }
  }

  /** A booking's detail page highlights exactly the dashboard and the
      bookings entry. */
  lemma BookingDetailHighlights()
    ensures forall j :: 0 <= j < |NavItems| ==> (IsActive("/admin/bookings/7", NavItems[j].to) <==> j == 0 || j == 2)
  {
    var p := "/admin/bookings/7";
    assert IsActive(p, NavItems[2].to) by {
      assert NavItems[2].to + "/" == p[..16];
    }
    ActiveTrail(p, 2, 2);
    forall j | 0 <= j < |NavItems| && IsActive(p, NavItems[j].to) ensures j == 0 || j == 2 {
      ActiveTrail(p, 2, j);
    }
  }

  /** A path that only extends an entry's path without a `/` does not
      highlight it. */
  lemma LookalikeNotActive()
    ensures !IsActive("/admin/providersX", "/admin/providers")
  {
    assert ("/admin/providers" + "/")[16] != "/admin/providersX"[16];
  }
}
