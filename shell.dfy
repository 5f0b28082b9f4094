/** The page shell of app.js as one object: the two views and the stop
    button `navigate` shows and hides, the drawer and collapse flags, the
    `localStorage` entries it keeps, the shared `expanded` alias set and the
    rendered navigation tree. */
module Shell {
  import opened JsText
  import opened Speech
  import opened Routing
  import opened NavTree

  const DrawerKey := "norskA2.drawerCollapsed"
  const ExpandedKey := "norskA2.navExpanded"
  const LastPathKey := "norskA2.lastDatasetPath"

  /** What a click on a tree button asks of the page besides its own state:
      nothing, a new `location.hash`, or `openDataset(alias, path)`. */
  datatype Effect = Stay | GoTo(hash: string) | OpenData(alias: string, path: string)

  class App {
    /** `data-route` of `view-home` and `view-learn`, and their `hidden` flags. */
    const routes: seq<string>
    var hidden: seq<bool>
    var stopHidden: bool
    const speech: Session

    /** The mobile drawer: `sidebar.show`, the toggle's `aria-expanded`,
        `overlay.hidden` and `body.no-scroll`. */
    var shown: bool
    var toggleExpanded: string
    var overlayHidden: bool
    var noScroll: bool

    /** The desktop collapse: `sidebar.dataset.collapsed` and `body.sidebar-collapsed`. */
    var collapsedAttr: string
    var bodyCollapsed: bool

    /** `localStorage`, except the expanded set, whose JSON is kept as the set itself. */
    var storage: map<string, string>
    var savedExpanded: set<string>

    var expanded: set<string>
    /** The items of the root list. */
    var rendered: seq<TreeItem>

    predicate Valid()
      reads this, speech
    {
      routes == [HomeRoute, LearnRoute] && |hidden| == |routes| && speech.Valid()
    }

    /** The drawer flags agree with each other. */
    predicate DrawerConsistent()
      reads this
    {
      overlayHidden == !shown && noScroll == shown && toggleExpanded == BoolToString(shown)
    }

    /** The fields only the router and the drawer handlers write hold the given values. */
    predicate UiUnchanged(toggle: string, overlay: bool, scroll: bool, collapsed: bool, stop: bool)
      reads this
    {
      toggleExpanded == toggle && overlayHidden == overlay && noScroll == scroll
      && bodyCollapsed == collapsed && stopHidden == stop
    }

    /** Script start, up to `restoreDrawerState()`: the expanded set is loaded
        from storage with the given `JSON.parse`. The markup's initial flags
        are not known; sections start visible and the drawer closed. */
    constructor (speech: Session, storage: map<string, string>, parse: string -> Option<seq<string>>)
      requires speech.Valid()
      ensures Valid() && DrawerConsistent()
      ensures this.speech == speech && this.storage == storage
      ensures expanded == LoadExpandedSet(if ExpandedKey in storage then Some(storage[ExpandedKey]) else None, parse)
      ensures expanded != {}
      ensures rendered == []
    {
      routes := [HomeRoute, LearnRoute];
      hidden := [false, false];
      stopHidden := false;
      this.speech := speech;
      shown := false;
      toggleExpanded := "false";
      overlayHidden := true;
      noScroll := false;
      collapsedAttr := "false";
      bodyCollapsed := false;
      this.storage := storage;
      expanded := LoadExpandedSet(if ExpandedKey in storage then Some(storage[ExpandedKey]) else None, parse);
      savedExpanded := {};
      rendered := [];
    }

    // -------------------------------------------------------------------
    // Router

    /** `navigate(hash)`. */
    method Navigate(hash: string)
      requires Valid()
      modifies this, speech
      ensures Valid()
      ensures var h := NormalizeRoute(hash);
              (forall j :: 0 <= j < |routes| ==> (!hidden[j] <==> routes[j] == h))
              && hidden[0] != hidden[1]
              && (stopHidden <==> h != LearnRoute)
              && (h != LearnRoute ==> speech.pending == [])
              && (h == LearnRoute ==> speech.pending == old(speech.pending))
      ensures speech.voice == old(speech.voice) && speech.ready == old(speech.ready)
      ensures shown == old(shown) && toggleExpanded == old(toggleExpanded)
      ensures overlayHidden == old(overlayHidden) && noScroll == old(noScroll)
      ensures collapsedAttr == old(collapsedAttr) && bodyCollapsed == old(bodyCollapsed)
      ensures expanded == old(expanded) && savedExpanded == old(savedExpanded)
      ensures storage == old(storage) && rendered == old(rendered)
    {
      var h := NormalizeRoute(hash);
      var flags := hidden;
      for i := 0 to |routes|
        invariant |flags| == |routes|
        invariant forall j :: 0 <= j < i ==> flags[j] == (routes[j] != h)
      {
        flags := flags[i := routes[i] != h];
      }
      hidden := flags;
      stopHidden := h != LearnRoute;
      if h != LearnRoute {
        speech.CancelAll();
      }
    }

    /** `cancelAllAudio()`, bound to the stop button. */
    method StopAudio()
      requires Valid()
      modifies speech
      ensures Valid() && speech.pending == []
      ensures speech.voice == old(speech.voice) && speech.ready == old(speech.ready)
    {
      speech.CancelAll();
    }

    // -------------------------------------------------------------------
    // Drawer and collapse

    /** `setDrawerCollapsed(collapsed)`. */
    method SetDrawerCollapsed(collapsed: bool)
      modifies this
      ensures collapsedAttr == BoolToString(collapsed) && bodyCollapsed == collapsed
      ensures storage == old(storage)[DrawerKey := BoolToString(collapsed)]
      ensures shown == old(shown) && toggleExpanded == old(toggleExpanded)
      ensures overlayHidden == old(overlayHidden) && noScroll == old(noScroll)
      ensures hidden == old(hidden) && expanded == old(expanded) && rendered == old(rendered)
      ensures stopHidden == old(stopHidden) && savedExpanded == old(savedExpanded)
    {
      collapsedAttr := BoolToString(collapsed);
      storage := storage[DrawerKey := BoolToString(collapsed)];
      bodyCollapsed := collapsed;
    }

    /** `restoreDrawerState()`: collapsed exactly when the stored value is "true". */
    method RestoreDrawerState()
      modifies this
      ensures bodyCollapsed <==> DrawerKey in storage && storage[DrawerKey] == "true"
      ensures collapsedAttr == BoolToString(bodyCollapsed)
      ensures storage == old(storage) && shown == old(shown) && toggleExpanded == old(toggleExpanded)
      ensures overlayHidden == old(overlayHidden) && noScroll == old(noScroll)
      ensures hidden == old(hidden) && expanded == old(expanded) && rendered == old(rendered)
      ensures stopHidden == old(stopHidden) && savedExpanded == old(savedExpanded)
    {
      var collapsed := DrawerKey in storage && storage[DrawerKey] == "true";
      collapsedAttr := BoolToString(collapsed);
      bodyCollapsed := collapsed;
    }

    /** The drawer toggle's click handler. */
    method ToggleDrawer()
      modifies this
      ensures shown == !old(shown)
      ensures DrawerConsistent()
      ensures collapsedAttr == old(collapsedAttr) && bodyCollapsed == old(bodyCollapsed)
      ensures storage == old(storage) && hidden == old(hidden) && expanded == old(expanded)
      ensures rendered == old(rendered) && stopHidden == old(stopHidden) && savedExpanded == old(savedExpanded)
    {
      shown := !shown;
      toggleExpanded := BoolToString(shown);
      overlayHidden := !shown;
      noScroll := shown;
    }

    /** The overlay's click handler: the drawer closes whatever its state. */
    method OverlayClick()
      modifies this
      ensures !shown && overlayHidden && !noScroll && toggleExpanded == "false"
      ensures DrawerConsistent()
      ensures collapsedAttr == old(collapsedAttr) && bodyCollapsed == old(bodyCollapsed)
      ensures storage == old(storage) && hidden == old(hidden) && expanded == old(expanded)
      ensures rendered == old(rendered) && stopHidden == old(stopHidden) && savedExpanded == old(savedExpanded)
    {
      shown := false;
      toggleExpanded := "false";
      overlayHidden := true;
      noScroll := false;
    }

    /** The collapse button's click handler: flip, and store the new flag. */
    method CollapseClick()
      modifies this
      ensures (collapsedAttr == "true") == !(old(collapsedAttr) == "true")
      ensures bodyCollapsed == (collapsedAttr == "true")
      ensures DrawerKey in storage && storage[DrawerKey] == collapsedAttr
      ensures forall k :: k in old(storage) && k != DrawerKey ==> k in storage && storage[k] == old(storage)[k]
      ensures storage == old(storage)[DrawerKey := collapsedAttr]
      ensures shown == old(shown) && overlayHidden == old(overlayHidden) && noScroll == old(noScroll)
      ensures toggleExpanded == old(toggleExpanded) && stopHidden == old(stopHidden)
      ensures hidden == old(hidden) && expanded == old(expanded) && rendered == old(rendered)
      ensures savedExpanded == old(savedExpanded)
    {
      var collapsed := collapsedAttr != "true";
      SetDrawerCollapsed(collapsed);
    }

    // -------------------------------------------------------------------
    // Navigation tree

    /** `makeNode(node)`: builds the item and adds every open container's
        alias to `expanded` along the way, in preorder. */
    method MakeNode(node: NavNode) returns (item: TreeItem)
      modifies this
      ensures item == RenderNode(node, old(expanded) + {Home})
      ensures expanded == old(expanded) + Opened(node, old(expanded) + {Home})
      ensures storage == old(storage) && savedExpanded == old(savedExpanded) && rendered == old(rendered)
      ensures hidden == old(hidden) && shown == old(shown) && collapsedAttr == old(collapsedAttr)
      ensures UiUnchanged(old(toggleExpanded), old(overlayHidden), old(noScroll), old(bodyCollapsed), old(stopHidden))
      decreases node, 1
    {
      ghost var open := expanded + {Home};
      var isOpen := node.alias in expanded || node.alias == Home;
      if IsContainer(node) && isOpen {
        expanded := expanded + {node.alias};
      }
      var group: Option<Group> := None;
      if HasChildren(node) {
        var groupHidden := !(node.alias in expanded || node.alias == Home);
        assert expanded + {Home} == open;
        var kids := MakeChildren(node);
        group := Some(Group(groupHidden, kids));
      } else {
        assert node.children == [];
      }
      item := TreeItem(node.alias, node.typ, LabelText(node), EmojiText(node),
                       if IsContainer(node) then Some(isOpen) else None,
                       node.route, node.path, group);
    }

    /** The `forEach` of `makeNode` over a node's children, in order. */
    method MakeChildren(node: NavNode) returns (kids: seq<TreeItem>)
      modifies this
      ensures kids == RenderForest(node.children, old(expanded) + {Home})
      ensures expanded == old(expanded) + OpenedForest(node.children, old(expanded) + {Home})
      ensures storage == old(storage) && savedExpanded == old(savedExpanded) && rendered == old(rendered)
      ensures hidden == old(hidden) && shown == old(shown) && collapsedAttr == old(collapsedAttr)
      ensures UiUnchanged(old(toggleExpanded), old(overlayHidden), old(noScroll), old(bodyCollapsed), old(stopHidden))
      decreases node, 0
    {
      ghost var open := expanded + {Home};
      ghost var e0 := expanded;
      var cs := node.children;
      kids := [];
      for i := 0 to |cs|
        invariant |kids| == i
        invariant forall j :: 0 <= j < i ==> kids[j] == RenderNode(cs[j], open)
        invariant expanded == e0 + OpenedForest(cs[..i], open)
        invariant storage == old(storage) && savedExpanded == old(savedExpanded) && rendered == old(rendered)
        invariant hidden == old(hidden) && shown == old(shown) && collapsedAttr == old(collapsedAttr)
        invariant UiUnchanged(old(toggleExpanded), old(overlayHidden), old(noScroll), old(bodyCollapsed), old(stopHidden))
      {
        OpenedForestWithin(cs[..i], open);
        assert expanded + {Home} == open;
        var kid := MakeNode(cs[i]);
        assert cs[..i + 1][..i] == cs[..i];
        kids := kids + [kid];
      }
      assert cs[..|cs|] == cs;
    }

    /** `renderTree()`: clear the tree, then render the root, if there is one. */
    method RenderTree(tree: seq<NavNode>)
      modifies this
      ensures RootOf(tree).None? ==> rendered == [] && expanded == old(expanded)
      ensures RootOf(tree).Some? ==>
                rendered == [RenderNode(RootOf(tree).value, old(expanded) + {Home})]
                && expanded == old(expanded) + Opened(RootOf(tree).value, old(expanded) + {Home})
      ensures old(expanded) <= expanded <= old(expanded) + {Home}
      ensures storage == old(storage) && savedExpanded == old(savedExpanded)
      ensures hidden == old(hidden) && shown == old(shown) && collapsedAttr == old(collapsedAttr)
      ensures UiUnchanged(old(toggleExpanded), old(overlayHidden), old(noScroll), old(bodyCollapsed), old(stopHidden))
    {
      rendered := [];
      var root := RootOf(tree);
      if root.Some? {
        var item := MakeNode(root.value);
        rendered := [item];
        RenderAddsOnlyHome(root.value, old(expanded));
      }
    }

    /** A tree button's click handler, given the button's current state; the
        updated button is returned. */
    method ClickNode(item: TreeItem) returns (next: TreeItem, effect: Effect)
      modifies this
      ensures item.ariaExpanded.Some? ==>
                var nowOpen := item.ariaExpanded != Some(true);
                next == item.(ariaExpanded := Some(nowOpen),
                              group := if item.group.Some? then Some(item.group.value.(hidden := !nowOpen)) else None)
                && (item.alias in expanded <==> nowOpen)
                && expanded == (if nowOpen then old(expanded) + {item.alias} else old(expanded) - {item.alias})
                && savedExpanded == expanded
                && effect == (if item.typ == "route" && Truthy(item.route) then GoTo(item.route.value) else Stay)
      ensures item.ariaExpanded.None? ==>
                next == item && expanded == old(expanded) && savedExpanded == old(savedExpanded)
                && effect == (if item.typ == "dataset" && Truthy(item.path) then OpenData(item.alias, item.path.value)
                              else if item.typ == "route" && Truthy(item.route) then GoTo(item.route.value)
                              else Stay)
      ensures storage == old(storage) && rendered == old(rendered) && hidden == old(hidden)
      ensures shown == old(shown) && collapsedAttr == old(collapsedAttr)
      ensures UiUnchanged(old(toggleExpanded), old(overlayHidden), old(noScroll), old(bodyCollapsed), old(stopHidden))
    {
      next := item;
      effect := Stay;
      if item.ariaExpanded.Some? {
        var nowOpen := !(item.ariaExpanded == Some(true));
        next := next.(ariaExpanded := Some(nowOpen));
        if nowOpen {
          expanded := expanded + {item.alias};
        } else {
          expanded := expanded - {item.alias};
        }
        savedExpanded := expanded;
        if item.group.Some? {
          next := next.(group := Some(item.group.value.(hidden := !nowOpen)));
        }
        if item.typ == "route" && Truthy(item.route) {
          effect := GoTo(item.route.value);
        }
      } else if item.typ == "dataset" {
        if Truthy(item.path) {
          effect := OpenData(item.alias, item.path.value);
        }
      } else if item.typ == "route" {
        if Truthy(item.route) {
          effect := GoTo(item.route.value);
        }
      }
    }

    /** `expandChainToAlias(alias)`: add every dot-prefix of the alias, then save. */
    method ExpandChainToAlias(alias: string)
      modifies this
      ensures forall x :: x in expanded <==> x in old(expanded) || IsChainPrefix(alias, x)
      ensures old(expanded) <= expanded
      ensures savedExpanded == expanded
      ensures storage == old(storage) && rendered == old(rendered) && hidden == old(hidden)
      ensures shown == old(shown) && collapsedAttr == old(collapsedAttr)
      ensures UiUnchanged(old(toggleExpanded), old(overlayHidden), old(noScroll), old(bodyCollapsed), old(stopHidden))
    {
      var parts := Split(alias);
      var acc: seq<string> := [];
      for i := 0 to |parts|
        invariant acc == parts[..i]
        invariant forall x :: x in expanded <==> x in old(expanded) || exists j :: 1 <= j <= i && x == Step(alias, j)
        invariant storage == old(storage) && rendered == old(rendered) && hidden == old(hidden)
        invariant shown == old(shown) && collapsedAttr == old(collapsedAttr)
        invariant UiUnchanged(old(toggleExpanded), old(overlayHidden), old(noScroll), old(bodyCollapsed), old(stopHidden))
      {
        acc := acc + [parts[i]];
        assert acc == parts[..i + 1];
        assert Join(acc) == Step(alias, i + 1);
        expanded := expanded + {Join(acc)};
      }
      savedExpanded := expanded;
      forall x | x in expanded && x !in old(expanded)
        ensures IsChainPrefix(alias, x)
      {
        var j :| 1 <= j <= |parts| && x == Step(alias, j);
        StepIsChainPrefix(alias, j);
      }
      forall x | IsChainPrefix(alias, x)
        ensures x in expanded
      {
        ChainPrefixIsStep(alias, x);
      }
    }

    /** The tail of `initNav()`: reopen the stored dataset when the tree has it. */
    method ReopenLast(tree: seq<NavNode>) returns (effect: Effect)
      modifies this
      ensures var last := if LastPathKey in storage then Some(storage[LastPathKey]) else None;
              var found := if Truthy(last) then FindAliasByPath(tree, last.value) else None;
              (Truthy(found) ==>
                 effect == OpenData(found.value, last.value)
                 && (forall x :: IsChainPrefix(found.value, x) ==> x in expanded)
                 && (forall x :: x in savedExpanded <==> x in old(expanded) || IsChainPrefix(found.value, x))
                 && savedExpanded <= expanded <= savedExpanded + {Home}
                 && rendered == (if RootOf(tree).Some? then [RenderNode(RootOf(tree).value, savedExpanded + {Home})] else []))
              && (!Truthy(found) ==>
                    effect == Stay && expanded == old(expanded) && rendered == old(rendered)
                    && savedExpanded == old(savedExpanded))
      ensures old(expanded) <= expanded
      ensures storage == old(storage) && hidden == old(hidden)
      ensures shown == old(shown) && collapsedAttr == old(collapsedAttr)
      ensures UiUnchanged(old(toggleExpanded), old(overlayHidden), old(noScroll), old(bodyCollapsed), old(stopHidden))
    {
      effect := Stay;
      var last := if LastPathKey in storage then Some(storage[LastPathKey]) else None;
      if Truthy(last) {
        var alias := FindAliasByPath(tree, last.value);
        if Truthy(alias) {
          ExpandChainToAlias(alias.value);
          ghost var chained := expanded;
          RenderTree(tree);
          assert chained <= expanded;
          effect := OpenData(alias.value, last.value);
        }
      }
    }
  }
}
