/**
 * The side navigation: which items of the navigation tree are shown for the
 * signed-in user, which menus start open for the current location, how a
 * menu header toggles, and the line break put into one menu title.
 * Markup, icons and link styling are not modelled; a shown item records the
 * data the markup is built from.
 */
module Sidebar {
  import opened Builtins
  import opened Types
  import Rbac

  /** What one navigation item renders as. */
  datatype Shown =
    | Link(titleKey: string, path: Option<string>, permission: Requirement)
    | Menu(titleKey: string, permission: Requirement, active: bool, open: bool, children: seq<Shown>)

  /** `openMenus[titleKey]` read as a condition: a missing key is closed. */
  predicate IsOpen(openMenus: map<string, bool>, key: string)
  {
    key in openMenus && openMenus[key]
  }

  /** `child.path && pathname.startsWith(child.path)`: an empty path never matches. */
  predicate PathActive(path: Option<string>, pathname: string)
  {
    path.Some? && path.value != "" && StartsWith(pathname, path.value)
  }

  /** `isChildActive(children)`. */
  predicate IsChildActive(children: seq<NavItem>, pathname: string)
  {
    exists i :: 0 <= i < |children| && PathActive(children[i].path, pathname)
  }

  /** The `NavItem` component: a menu is gated by its own requirement, a leaf by its own. */
  function Render(item: NavItem, user: Option<User>, catalog: seq<Role>,
                  openMenus: map<string, bool>, pathname: string): (r: Option<Shown>)
    ensures r.Some? <==> Rbac.HasPermission(user, catalog, item.permission)
    ensures r.Some? ==> r.value.titleKey == item.titleKey && r.value.permission == item.permission
    decreases item, 1
  {
    match item.children
    case Children(cs) =>
      if !Rbac.HasPermission(user, catalog, item.permission) then None
      else
        var open := IsOpen(openMenus, item.titleKey);
        Some(Menu(item.titleKey, item.permission, IsChildActive(cs, pathname), open,
                  if open then RenderAll(cs, user, catalog, openMenus, pathname) else []))
    case NoChildren =>
      if Rbac.HasPermission(user, catalog, item.permission)
      then Some(Link(item.titleKey, item.path, item.permission))
      else None
  }

  /** `items.map(item => <NavItem item={item} />)`, the items that render nothing dropped. */
  function RenderAll(items: seq<NavItem>, user: Option<User>, catalog: seq<Role>,
                     openMenus: map<string, bool>, pathname: string): (r: seq<Shown>)
    ensures |r| <= |items|
    ensures forall i :: 0 <= i < |r| ==> Rbac.HasPermission(user, catalog, r[i].permission)
    ensures forall i :: 0 <= i < |items| && Render(items[i], user, catalog, openMenus, pathname).Some? ==>
              Render(items[i], user, catalog, openMenus, pathname).value in r
    decreases items, 0
  {
    if items == [] then []
    else
      var head := Render(items[0], user, catalog, openMenus, pathname);
      (if head.Some? then [head.value] else []) + RenderAll(items[1..], user, catalog, openMenus, pathname)
  }

  /** Every node of a shown tree carries a requirement the user passes. */
  predicate AllGranted(s: Shown, user: Option<User>, catalog: seq<Role>)
  {
    Rbac.HasPermission(user, catalog, s.permission) &&
    (s.Menu? ==> forall i :: 0 <= i < |s.children| ==> AllGranted(s.children[i], user, catalog))
  }

  /** Nothing is ever shown, at any depth, whose requirement the user fails. */
  lemma {:induction false} ShownIsGranted(item: NavItem, user: Option<User>, catalog: seq<Role>,
                                          openMenus: map<string, bool>, pathname: string)
    requires Render(item, user, catalog, openMenus, pathname).Some?
    ensures AllGranted(Render(item, user, catalog, openMenus, pathname).value, user, catalog)
    decreases item, 1
  {
    if item.children.Children? && IsOpen(openMenus, item.titleKey) {
      AllShownGranted(item.children.items, user, catalog, openMenus, pathname);
    }
  }

  lemma {:induction false} AllShownGranted(items: seq<NavItem>, user: Option<User>, catalog: seq<Role>,
                                           openMenus: map<string, bool>, pathname: string)
    ensures forall i :: 0 <= i < |RenderAll(items, user, catalog, openMenus, pathname)| ==>
              AllGranted(RenderAll(items, user, catalog, openMenus, pathname)[i], user, catalog)
    decreases items, 0
  {
    if items != [] {
      var head := Render(items[0], user, catalog, openMenus, pathname);
      if head.Some? {
        ShownIsGranted(items[0], user, catalog, openMenus, pathname);
      }
      AllShownGranted(items[1..], user, catalog, openMenus, pathname);
    }
  }

  /** A menu whose own requirement fails is hidden together with all of its children. */
  lemma HiddenMenuHidesChildren(item: NavItem, user: Option<User>, catalog: seq<Role>,
                                openMenus: map<string, bool>, pathname: string)
    requires item.children.Children?
    requires !Rbac.HasPermission(user, catalog, item.permission)
    ensures Render(item, user, catalog, openMenus, pathname) == None
  {
  }

  /** A leaf is shown exactly when its requirement passes. */
  lemma LeafShownIff(item: NavItem, user: Option<User>, catalog: seq<Role>,
                     openMenus: map<string, bool>, pathname: string)
    requires item.children.NoChildren?
    ensures Render(item, user, catalog, openMenus, pathname).Some? <==>
            Rbac.HasPermission(user, catalog, item.permission)
  {
  }

  /**
   * A menu that passes its own gate is shown even when none of its
   * children would be: the children are not part of the menu's gate.
   */
  lemma MenuShownWithoutChildren(item: NavItem, user: Option<User>, catalog: seq<Role>,
                                 openMenus: map<string, bool>, pathname: string)
    requires item.children.Children?
    requires Rbac.HasPermission(user, catalog, item.permission)
    requires forall i :: 0 <= i < |item.children.items| ==>
               !Rbac.HasPermission(user, catalog, item.children.items[i].permission)
    ensures Render(item, user, catalog, openMenus, pathname).Some?
    ensures Render(item, user, catalog, openMenus, pathname).value.children == []
  {
    NoChildShown(item.children.items, user, catalog, openMenus, pathname);
  }

  lemma {:induction false} NoChildShown(items: seq<NavItem>, user: Option<User>, catalog: seq<Role>,
                                        openMenus: map<string, bool>, pathname: string)
    requires forall i :: 0 <= i < |items| ==> !Rbac.HasPermission(user, catalog, items[i].permission)
    ensures RenderAll(items, user, catalog, openMenus, pathname) == []
  {
    if items != [] {
      NoChildShown(items[1..], user, catalog, openMenus, pathname);
    }
  }

  /** A closed menu shows no children; an open one shows exactly its shown children. */
  lemma ChildrenOnlyWhenOpen(item: NavItem, user: Option<User>, catalog: seq<Role>,
                             openMenus: map<string, bool>, pathname: string)
    requires item.children.Children?
    requires Render(item, user, catalog, openMenus, pathname).Some?
    ensures var m := Render(item, user, catalog, openMenus, pathname).value;
            m.Menu? && m.open == IsOpen(openMenus, item.titleKey) &&
            (!m.open ==> m.children == []) &&
            (m.open ==> m.children == RenderAll(item.children.items, user, catalog, openMenus, pathname))
  {
  }

  /** Each shown child is what the same rule makes of one of the children. */
  lemma {:induction false} ShownChildrenComeFromItems(items: seq<NavItem>, user: Option<User>, catalog: seq<Role>,
                                                      openMenus: map<string, bool>, pathname: string)
    ensures |RenderAll(items, user, catalog, openMenus, pathname)| <= |items|
    ensures forall s :: s in RenderAll(items, user, catalog, openMenus, pathname) <==>
              exists i :: 0 <= i < |items| && Render(items[i], user, catalog, openMenus, pathname) == Some(s)
  {
    if items != [] {
      ShownChildrenComeFromItems(items[1..], user, catalog, openMenus, pathname);
      var rest := RenderAll(items[1..], user, catalog, openMenus, pathname);
      forall s | s in rest
        ensures exists i :: 0 <= i < |items| && Render(items[i], user, catalog, openMenus, pathname) == Some(s)
      {
        var j :| 0 <= j < |items[1..]| && Render(items[1..][j], user, catalog, openMenus, pathname) == Some(s);
        assert items[j + 1] == items[1..][j];
      }
    }
  }

  /** A single item gives its own rendering, or nothing when it is hidden. */
  lemma RenderAllOne(x: NavItem, user: Option<User>, catalog: seq<Role>,
                     openMenus: map<string, bool>, pathname: string)
    ensures RenderAll([x], user, catalog, openMenus, pathname) ==
            if Render(x, user, catalog, openMenus, pathname).Some?
            then [Render(x, user, catalog, openMenus, pathname).value] else []
  {
    assert [x][1..] == [];
  }

  /**
   * Rendering a concatenation renders each part in turn: shown items keep
   * the order of the list, and an item listed twice is shown twice.
   */
  lemma {:induction false} RenderAllAppend(a: seq<NavItem>, b: seq<NavItem>, user: Option<User>, catalog: seq<Role>,
                                           openMenus: map<string, bool>, pathname: string)
    ensures RenderAll(a + b, user, catalog, openMenus, pathname) ==
            RenderAll(a, user, catalog, openMenus, pathname) + RenderAll(b, user, catalog, openMenus, pathname)
  {
    if a == [] {
      assert a + b == b;
    } else {
      assert (a + b)[0] == a[0];
      assert (a + b)[1..] == a[1..] + b;
      RenderAllAppend(a[1..], b, user, catalog, openMenus, pathname);
    }
  }

  // ---------------------------------------------------------------------------
  // Open menus

  /** `toggleMenu(k)`: `{ ...prev, [k]: !prev[k] }`. */
  function Toggled(openMenus: map<string, bool>, key: string): (r: map<string, bool>)
    ensures IsOpen(r, key) == !IsOpen(openMenus, key)
    ensures r.Keys == openMenus.Keys + {key}
    ensures forall k :: k in openMenus && k != key ==> r[k] == openMenus[k]
  {
    openMenus[key := !IsOpen(openMenus, key)]
  }

  /** Toggling twice restores every menu's state, and the map itself when the key was present. */
  lemma ToggleTwice(openMenus: map<string, bool>, key: string)
    ensures forall k :: IsOpen(Toggled(Toggled(openMenus, key), key), k) == IsOpen(openMenus, k)
    ensures key in openMenus ==> Toggled(Toggled(openMenus, key), key) == openMenus
  {
  }

  /** A top-level item opens on mount when it has children and one of them is active. */
  predicate OpensOnMount(item: NavItem, pathname: string)
  {
    item.children.Children? && IsChildActive(item.children.items, pathname)
  }

  /** The effect run on mount: a map holding `true` for each top-level menu with an active child. */
  method InitialOpenMenus(items: seq<NavItem>, pathname: string) returns (m: map<string, bool>)
    ensures forall k :: k in m <==>
              exists i :: 0 <= i < |items| && items[i].titleKey == k && OpensOnMount(items[i], pathname)
    ensures forall k :: k in m ==> m[k]
  {
    m := map[];
    for n := 0 to |items|
      invariant forall k :: k in m <==>
                  exists i :: 0 <= i < n && items[i].titleKey == k && OpensOnMount(items[i], pathname)
      invariant forall k :: k in m ==> m[k]
    {
      var item := items[n];
      if item.children.Children? && ChildActive(item.children.items, pathname) {
        m := m[item.titleKey := true];
      }
    }
  }

  /** `children.some(child => child.path && pathname.startsWith(child.path))`. */
  function ChildActive(children: seq<NavItem>, pathname: string): (b: bool)
    ensures b == IsChildActive(children, pathname)
  {
    if children == [] then false
    else
      assert forall i :: 0 < i < |children| ==> children[i] == children[1..][i - 1];
      PathActive(children[0].path, pathname) || ChildActive(children[1..], pathname)
  }

  /** The menu-open state of the side navigation. */
  class SidebarState {
    var openMenus: map<string, bool>

    constructor ()
      ensures openMenus == map[]
    {
      openMenus := map[];
    }

    /** The mount effect replaces the whole map: its keys are exactly the menus that open, all set. */
    method Mount(items: seq<NavItem>, pathname: string)
      modifies this
      ensures forall k :: k in openMenus <==>
                exists i :: 0 <= i < |items| && items[i].titleKey == k && OpensOnMount(items[i], pathname)
      ensures forall k :: k in openMenus ==> openMenus[k]
      ensures forall k :: IsOpen(openMenus, k) <==>
                exists i :: 0 <= i < |items| && items[i].titleKey == k && OpensOnMount(items[i], pathname)
    {
      openMenus := InitialOpenMenus(items, pathname);
    }

    method ToggleMenu(key: string)
      modifies this
      ensures openMenus == Toggled(old(openMenus), key)
    {
      openMenus := Toggled(openMenus, key);
    }
  }

  // ---------------------------------------------------------------------------
  // The "Common Settings" title

  /** `title.replace(' ', '<br />')`: only the first space is replaced. */
  function ReplaceFirstSpace(title: string): (r: string)
    ensures ' ' !in title ==> r == title
    ensures ' ' in title ==>
              exists i :: 0 <= i < |title| && title[i] == ' ' && ' ' !in title[..i] &&
                          r == title[..i] + "<br />" + title[i + 1..]
  {
    match IndexOf(title, ' ')
    case None => title
    case Some(i) => title[..i] + "<br />" + title[i + 1..]
  }

  /** The menu title as placed in the markup. */
  function MenuTitle(titleKey: string, title: string): (t: string)
    ensures titleKey != "sidebar.commonSettings" || ' ' !in title ==> t == title
    ensures titleKey == "sidebar.commonSettings" && ' ' in title ==>
              exists i :: 0 <= i < |title| && title[i] == ' ' && ' ' !in title[..i] &&
                          t == title[..i] + "<br />" + title[i + 1..]
  {
    if titleKey != "sidebar.commonSettings" || ' ' !in title then title
    else ReplaceFirstSpace(title)
  }
}
