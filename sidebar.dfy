/**
 * The dashboard sidebar: a fixed list of seven navigation links, the one matching the
 * current path highlighted, and the user's initial in the footer avatar.
 */
module Sidebar {
  import opened JsString

  datatype NavItem = NavItem(title: string, href: string)

  /** A rendered link: the item and whether it is highlighted. */
  datatype NavLink = NavLink(item: NavItem, active: bool)

  const DashboardHref := "/dashboard"

  /** `NAV_ITEMS`, in display order. */
  const NavItems: seq<NavItem> := [
    NavItem("Dashboard", DashboardHref),
    NavItem("Upload", "/dashboard/upload"),
    NavItem("Datasets", "/dashboard/datasets"),
    NavItem("Reports", "/dashboard/reports"),
    NavItem("Kisan AI", "/dashboard/farmer"),
    NavItem("Verify Document", "/dashboard/verify"),
    NavItem("Settings", "/dashboard/settings")
  ]

  /** The root item needs an exact match; every other item is active below its path. */
  predicate IsActive(item: NavItem, pathname: string): (active: bool)
    ensures active ==> StartsWith(pathname, item.href)
  {
    if item.href == DashboardHref then pathname == DashboardHref else StartsWith(pathname, item.href)
  }

  /** The links as rendered for `pathname`. */
  function Nav(pathname: string): (links: seq<NavLink>)
    ensures |links| == |NavItems| == 7
    ensures forall i :: 0 <= i < |links| ==>
              links[i].item == NavItems[i] && links[i].active == IsActive(NavItems[i], pathname)
  {
    seq(|NavItems|, i requires 0 <= i < |NavItems| => NavLink(NavItems[i], IsActive(NavItems[i], pathname)))
  }

  /** The Dashboard link is highlighted exactly on the dashboard's own path. */
  lemma DashboardActiveIff(pathname: string)
    ensures Nav(pathname)[0].active <==> pathname == DashboardHref
  {
  }

  /** Two prefixes of one string: the shorter is a prefix of the longer. */
  lemma PrefixesNest(s: string, a: string, b: string)
    requires StartsWith(s, a) && StartsWith(s, b) && |a| <= |b|
    ensures StartsWith(b, a)
  {
    assert b[..|a|] == s[..|b|][..|a|] == s[..|a|];
  }

  /** No href other than the root's is a prefix of another, and all are longer than the root's. */
  lemma HrefsUnnested()
    ensures forall i :: 1 <= i < |NavItems| ==> |NavItems[i].href| > |DashboardHref|
    ensures forall i, j :: 1 <= i < |NavItems| && 1 <= j < |NavItems| && i != j ==>
              !StartsWith(NavItems[j].href, NavItems[i].href)
  {
    forall i, j | 1 <= i < |NavItems| && 1 <= j < |NavItems| && i != j
      ensures !StartsWith(NavItems[j].href, NavItems[i].href)
    {
      var a, b := NavItems[j].href, NavItems[i].href;
      if |b| <= |a| {
        assert a[11] != b[11];
        assert a[..|b|][11] == a[11];
      }
    }
  }

  /** Whatever the path, at most one link is highlighted. */
  lemma AtMostOneActive(pathname: string)
    ensures forall i, j :: 0 <= i < j < |Nav(pathname)| && Nav(pathname)[i].active ==> !Nav(pathname)[j].active
  {
    var links := Nav(pathname);
    HrefsUnnested();
    forall i, j | 0 <= i < j < |links| && links[i].active
      ensures !links[j].active
    {
      var a, b := NavItems[i].href, NavItems[j].href;
      if i == 0 {
        assert pathname == DashboardHref;
      } else if links[j].active {
        if |a| <= |b| {
          PrefixesNest(pathname, a, b);
        } else {
          PrefixesNest(pathname, b, a);
        }
      }
    }
  }

  /** A path below an item's own highlights that item and no other. */
  lemma NestedPathActivates(i: nat, rest: string)
    requires 1 <= i < |NavItems|
    ensures var links := Nav(NavItems[i].href + rest);
            links[i].active && forall j :: 0 <= j < |links| && j != i ==> !links[j].active
  {
    var p := NavItems[i].href + rest;
    assert p[..|NavItems[i].href|] == NavItems[i].href;
    AtMostOneActive(p);
  }

  /** `name.charAt(0)`: the first character, or the empty string for an empty name. */
  function AvatarInitial(name: string): (initial: string)
    ensures initial == "" <==> name == ""
    ensures initial != "" ==> initial == [name[0]]
  {
    Slice(name, 0, 1)
  }
}
