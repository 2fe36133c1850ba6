/**
 * The side menu: the avatar of the signed-in administrator and the four
 * management links, each highlighted when the current pathname starts with
 * its path.
 */
module Sidebar {
  import opened Wrappers
  import opened StaticResource

  datatype MenuEntry = MenuEntry(path: string, title: string)

  /** The signed-in administrator as the layout passes it. */
  datatype Auth = Auth(avatar: Option<string>, username: string)

  /** The menu, in display order. */
  const Routes: seq<MenuEntry> := [
    MenuEntry("/users", "Quản lý người dùng"),
    MenuEntry("/products", "Quản lý sản phẩm"),
    MenuEntry("/orders", "Quản lý đơn hàng"),
    MenuEntry("/contacts", "Quản lý liên hệ")
  ]

  /** A rendered link: its target and whether it is highlighted. */
  datatype MenuItem = MenuItem(path: string, title: string, active: bool)

  /**
   * The pattern "^" + path + ".*": the paths hold no pattern metacharacter,
   * and ".*" also matches nothing, so the match is a prefix test.
   */
  predicate IsActive(pathname: string, path: string)
  {
    path <= pathname
  }

  /** The rendered menu for the current pathname. */
  function Menu(pathname: string): (items: seq<MenuItem>)
    ensures |items| == |Routes|
    ensures forall i :: 0 <= i < |Routes| ==>
      items[i].path == Routes[i].path && items[i].title == Routes[i].title
    ensures forall i :: 0 <= i < |Routes| ==> (items[i].active <==> Routes[i].path <= pathname)
  {
    seq(|Routes|, i requires 0 <= i < |Routes| =>
      MenuItem(Routes[i].path, Routes[i].title, IsActive(pathname, Routes[i].path)))
  }

  /** The menu links to the users, products, orders and contacts pages, in that order. */
  lemma MenuTargets(pathname: string)
    ensures var items := Menu(pathname);
      |items| == 4 && items[0].path == "/users" && items[1].path == "/products"
      && items[2].path == "/orders" && items[3].path == "/contacts"
  {
  }

  /** No menu path is a prefix of another. */
  lemma PathsNotNested(i: int, j: int)
    requires 0 <= i < |Routes| && 0 <= j < |Routes| && i != j
    ensures !(Routes[i].path <= Routes[j].path)
  {
    var p, q := Routes[i].path, Routes[j].path;
    assert p[1] != q[1] || p[2] != q[2];
  }

  lemma PrefixesNest(a: string, b: string, s: string)
    requires a <= s && b <= s && |a| <= |b|
    ensures a <= b
  {
    assert a == s[..|a|] == b[..|a|];
  }

  /** At most one link is highlighted, whatever the pathname. */
  lemma AtMostOneActive(pathname: string, i: int, j: int)
    requires 0 <= i < |Routes| && 0 <= j < |Routes|
    requires Menu(pathname)[i].active && Menu(pathname)[j].active
    ensures i == j
  {
    if i != j {
      var p, q := Routes[i].path, Routes[j].path;
      if |p| <= |q| {
        PrefixesNest(p, q, pathname);
        PathsNotNested(i, j);
      } else {
        PrefixesNest(q, p, pathname);
        PathsNotNested(j, i);
      }
    }
  }

  /**
   * The test has no segment boundary: every pathname that continues a
   * menu path, such as "/users/5/edit" or "/usersX", highlights that link.
   */
  lemma AnyContinuationActive(i: int, rest: string)
    requires 0 <= i < |Routes|
    ensures Menu(Routes[i].path + rest)[i].active
  {
    assert Routes[i].path <= Routes[i].path + rest;
  }

  /** The avatar's source: the asset URL of the avatar, "" without a session or an avatar. */
  function AvatarSource(auth: Option<Auth>): (src: string)
    ensures src == "" <==> auth.None? || auth.value.avatar.None? || auth.value.avatar.value == ""
    ensures src != "" ==> src == AssetBase + auth.value.avatar.value
  {
    StaticResourceUrl(if auth.Some? then auth.value.avatar else None)
  }
}
