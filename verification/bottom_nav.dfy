/**
 * The mobile bottom navigation: four fixed items, one of them highlighted
 * according to the current path.
 */
module BottomNav {
  import opened Js

  datatype NavItem = NavItem(id: string, caption: string, route: string)

  const NavItems: seq<NavItem> := [
    NavItem("chats", "Chats", "/"),
    NavItem("updates", "Updates", "/updates"),
    NavItem("communities", "Communities", "/communities"),
    NavItem("calls", "Calls", "/calls")]

  /** The home route is active only on "/" itself; any other route on every path that starts with it. */
  predicate IsActive(path: string, route: string) {
    if route == "/" then path == "/" else StartsWith(path, route)
  }

  /** The routes other than "/" differ in their second or third character, which a matching path shares. */
  lemma RouteLetters(path: string)
    ensures StartsWith(path, "/updates") ==> |path| > 2 && path[1] == 'u'
    ensures StartsWith(path, "/communities") ==> |path| > 2 && path[1] == 'c' && path[2] == 'o'
    ensures StartsWith(path, "/calls") ==> |path| > 2 && path[1] == 'c' && path[2] == 'a'
  {
  }

  /**
   * The highlighted item, if any: "/" highlights Chats, and a path below one of the
   * other routes highlights that item; no path highlights two items.
   */
  function ActiveItem(path: string): (r: Option<nat>)
    ensures r.Some? ==> r.value < |NavItems|
    ensures forall k :: 0 <= k < |NavItems| ==> (IsActive(path, NavItems[k].route) <==> r == Some(k))
  {
    RouteLetters(path);
    if path == "/" then Some(0)
    else if StartsWith(path, "/updates") then Some(1)
    else if StartsWith(path, "/communities") then Some(2)
    else if StartsWith(path, "/calls") then Some(3)
    else None
  }

  /** At most one item is highlighted on any path. */
  lemma AtMostOneActive(path: string, i: nat, j: nat)
    requires i < |NavItems| && j < |NavItems|
    requires IsActive(path, NavItems[i].route) && IsActive(path, NavItems[j].route)
    ensures i == j
  {
    var _ := ActiveItem(path);
  }
}
