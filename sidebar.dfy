/** The active-item logic of the navigation sidebar (src/components/Sidebar.tsx). */
module Sidebar {
  import opened Js

  datatype MenuItem = MenuItem(id: string, caption: string, href: string)

  /** `menuItems`, in display order. */
  const MenuItems: seq<MenuItem> := [
    MenuItem("dashboard", "Bảng điều khiển", "/dashboard"),
    MenuItem("projects", "Dự án", "/dashboard/projects"),
    MenuItem("tasks", "Công việc", "/dashboard/tasks"),
    MenuItem("team", "Đội ngũ", "/dashboard/team"),
    MenuItem("reports", "Báo cáo", "/dashboard/reports")
  ]

  const SettingsHref := "/dashboard/settings"

  /** `isActive(href)` for the current pathname: the dashboard item by equality, since every
      other page also starts with /dashboard; the others by prefix, so that nested pages keep
      their section highlighted. */
  predicate IsActive(href: string, pathname: string): (active: bool)
    ensures active ==> StartsWith(pathname, href)
    ensures href == "/dashboard" ==> (active <==> pathname == href)
    ensures href != "/dashboard" ==> (active <==> exists rest :: pathname == href + rest)
  {
    assert StartsWith(pathname, href) ==> pathname == href + pathname[|href|..];
    if href == "/dashboard" then pathname == "/dashboard" else StartsWith(pathname, href)
  }

  /** What the sidebar highlights and shows for a pathname. */
  datatype View = View(active: seq<bool>, settingsActive: bool, logoutShown: bool)

  function Render(pathname: string, hasOnLogout: bool): (v: View)
    ensures |v.active| == |MenuItems|
    ensures v.active[0] <==> pathname == "/dashboard"
    ensures forall i :: 1 <= i < |MenuItems| ==> (v.active[i] <==> StartsWith(pathname, MenuItems[i].href))
    ensures v.settingsActive <==> pathname == SettingsHref
    ensures v.logoutShown <==> hasOnLogout
  {
    View(seq(|MenuItems|, i requires 0 <= i < |MenuItems| => IsActive(MenuItems[i].href, pathname)),
         pathname == SettingsHref, hasOnLogout)
  }

  /** Character 11, just after "/dashboard/", tells the section hrefs apart; the tasks and
      team hrefs, which share it, differ at character 12. */
  lemma SectionHrefsDiffer(i: nat, j: nat)
    requires 1 <= i < j < |MenuItems|
    ensures |MenuItems[i].href| > 12 && |MenuItems[j].href| > 12
    ensures MenuItems[i].href[11] != MenuItems[j].href[11] || MenuItems[i].href[12] != MenuItems[j].href[12]
  {
  }

  /** Character 11 also tells every section href from the settings href. */
  lemma SettingsHrefDiffers(i: nat)
    requires 1 <= i < |MenuItems|
    ensures |MenuItems[i].href| > 11 && MenuItems[i].href[11] != SettingsHref[11]
  {
  }

  /** Two prefixes of one pathname agree wherever both have a character. */
  lemma PrefixesAgree(s: string, a: string, b: string)
    requires StartsWith(s, a) && StartsWith(s, b)
    ensures forall k :: 0 <= k < |a| && k < |b| ==> a[k] == b[k]
  {
    assert forall k :: 0 <= k < |a| ==> a[k] == s[k];
    assert forall k :: 0 <= k < |b| ==> b[k] == s[k];
  }

  /** At most one menu item is active for any pathname: the dashboard item only on /dashboard
      itself, which is shorter than every other href; and no section href is a prefix of another. */
  lemma AtMostOneActive(pathname: string, i: nat, j: nat)
    requires i < |MenuItems| && j < |MenuItems|
    requires Render(pathname, false).active[i] && Render(pathname, false).active[j]
    ensures i == j
  {
    if i != 0 && j != 0 && i != j {
      PrefixesAgree(pathname, MenuItems[i].href, MenuItems[j].href);
      if i < j { SectionHrefsDiffer(i, j); } else { SectionHrefsDiffer(j, i); }
    }
  }

  /** On the settings page no menu item is highlighted, only settings. */
  lemma SettingsIsExclusive(i: nat)
    requires i < |MenuItems|
    ensures Render(SettingsHref, false).settingsActive
    ensures !Render(SettingsHref, false).active[i]
  {
    if i > 0 {
      SettingsHrefDiffers(i);
    }
  }

  /** A nested page keeps its section highlighted, and the dashboard item switches off there. */
  lemma NestedPageKeepsSection(rest: string)
    ensures Render("/dashboard/tasks" + rest, false).active[2]
    ensures !Render("/dashboard/tasks" + rest, false).active[0]
  {
    assert ("/dashboard/tasks" + rest)[..|"/dashboard/tasks"|] == "/dashboard/tasks";
  }
}
