/** The admin side menu and its active-item highlighting. */
module AdminSidebar {
  import opened Text

  datatype MenuItem = MenuItem(caption: string, path: string)

  /** `menuItems`, in display order. */
  const MenuItems: seq<MenuItem> := [
    MenuItem("Dashboard", "/admin/dashboard"),
    MenuItem("Users", "/admin/users"),
    MenuItem("Projects", "/admin/projects"),
    MenuItem("Support Tickets", "/admin/tickets"),
    MenuItem("Payments", "/admin/payments"),
    MenuItem("Analytics", "/admin/analytics"),
    MenuItem("Settings", "/admin/settings")]

  /** `isActive`: the current pathname starts with the item's path. */
  predicate IsActive(pathname: string, path: string)
  {
    StartsWith(pathname, path)
  }

  /** The two characters after `/admin/` that tell the menu paths apart. */
  const PathKeys: seq<string> := ["da", "us", "pr", "ti", "pa", "an", "se"]

  lemma KeysOfPaths()
    ensures forall k :: 0 <= k < |MenuItems| ==> |MenuItems[k].path| >= 9 && MenuItems[k].path[7..9] == PathKeys[k]
  {
  }

  lemma KeysDistinct()
    ensures forall x, y :: 0 <= x < |PathKeys| && 0 <= y < |PathKeys| && x != y ==> PathKeys[x] != PathKeys[y]
  {
  }

  /** No menu path is a prefix of another. */
  lemma NoPathIsPrefixOfAnother()
    ensures |MenuItems| == 7
    ensures forall i, j :: 0 <= i < |MenuItems| && 0 <= j < |MenuItems| && i != j ==>
      !StartsWith(MenuItems[j].path, MenuItems[i].path)
  {
    KeysOfPaths();
    KeysDistinct();
  }

  /** Whatever the pathname, at most one menu item is highlighted. */
  lemma AtMostOneActive(pathname: string, i: nat, j: nat)
    requires i < |MenuItems| && j < |MenuItems| && i != j
    ensures !(IsActive(pathname, MenuItems[i].path) && IsActive(pathname, MenuItems[j].path))
  {
    NoPathIsPrefixOfAnother();
    var a, b := MenuItems[i].path, MenuItems[j].path;
    if IsActive(pathname, a) && IsActive(pathname, b) {
      if |a| <= |b| {
        CommonPrefix(pathname, a, b);
      } else {
        CommonPrefix(pathname, b, a);
      }
    }
  }

  /** The help link at the foot of the menu is not a menu item, and on its page nothing is highlighted. */
  lemma HelpPageHighlightsNothing()
    ensures forall i :: 0 <= i < |MenuItems| ==> !IsActive("/admin/help", MenuItems[i].path)
  {
  }
}
