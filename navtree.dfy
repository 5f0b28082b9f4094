/** The navigation tree of app.js as values: the nodes of `navigation.json`,
    the tree items `renderTree` builds from them, the expanded-alias set and
    its defaults, root selection, `findAliasByPath`, the alias chain of
    `expandChainToAlias`, and the arrow-key movement of `handleTreeKeydown`. */
module NavTree {
  import opened JsText

  /** The alias that is open by default and stands in for an empty set. */
  const Home := "nav.home"

  /** One node of `navigation.json`. A missing `type` is "", missing
      `children` the empty sequence. */
  datatype NavNode = NavNode(alias: string, typ: string, caption: Str, emoji: Str,
                             path: Str, route: Str, children: seq<NavNode>)

  // ---------------------------------------------------------------------
  // The expanded set

  /** `loadExpandedSet()` given the stored string and `JSON.parse`, which
      yields the listed aliases or `None` when it throws or returns something
      that `new Set` cannot iterate. */
  function LoadExpandedSet(raw: Str, parse: string -> Option<seq<string>>): (e: set<string>)
    ensures e != {}
    ensures !Truthy(raw) ==> e == {Home}
    ensures Truthy(raw) && parse(raw.value).None? ==> e == {Home}
    ensures Truthy(raw) && parse(raw.value).Some? && |parse(raw.value).value| > 0
            ==> e == set i | 0 <= i < |parse(raw.value).value| :: parse(raw.value).value[i]
    ensures Truthy(raw) && parse(raw.value) == Some([]) ==> e == {Home}
  {
    if !Truthy(raw) then {Home}
    else match parse(raw.value)
      case None => {Home}
      case Some(xs) =>
        var s := set i | 0 <= i < |xs| :: xs[i];
        assert |xs| > 0 ==> xs[0] in s;
        if s == {} then
          {Home}
        else
          s
  }

  // ---------------------------------------------------------------------
  // makeNode

  /** `node.label || node.alias || ''` (the `label` field is `caption` here):
      a truthy caption wins, and the label is blank only when both are. */
  function LabelText(n: NavNode): (r: string)
    ensures Truthy(n.caption) ==> r == n.caption.value
    ensures !Truthy(n.caption) ==> r == n.alias
    ensures r == "" <==> !Truthy(n.caption) && n.alias == ""
  {
    Or(n.caption, n.alias)
  }

  /** `node.emoji || '•'`. */
  function EmojiText(n: NavNode): (r: string)
    ensures r != ""
    ensures Truthy(n.emoji) ==> r == n.emoji.value
    ensures !Truthy(n.emoji) ==> r == "•"
  {
    Or(n.emoji, "•")
  }

  predicate HasChildren(n: NavNode) {
    |n.children| > 0
  }

  /** A group, or a route with children. */
  predicate IsContainer(n: NavNode) {
    n.typ == "group" || (n.typ == "route" && HasChildren(n))
  }

  /** Whether a node shows open, given `open` = the expanded set plus "nav.home". */
  predicate IsOpen(n: NavNode, open: set<string>) {
    n.alias in open
  }

  /** The nested `ul` of a node with children: its `hidden` flag and items. */
  datatype Group = Group(hidden: bool, kids: seq<TreeItem>)

  /** The `li` `makeNode` returns: the button's data and `aria-expanded`
      (containers only), and the nested group (nodes with children only). */
  datatype TreeItem = TreeItem(alias: string, typ: string, caption: string, emoji: string,
                               ariaExpanded: Option<bool>, route: Str, path: Str,
                               group: Option<Group>)

  /** What `makeNode(n)` returns when the expanded set plus "nav.home" is `open`. */
  function RenderNode(n: NavNode, open: set<string>): (t: TreeItem)
    decreases n
  {
    TreeItem(n.alias, n.typ, LabelText(n), EmojiText(n),
             if IsContainer(n) then Some(IsOpen(n, open)) else None,
             n.route, n.path,
             if HasChildren(n) then Some(Group(!IsOpen(n, open), RenderForest(n.children, open))) else None)
  }

  function RenderForest(ns: seq<NavNode>, open: set<string>): (ts: seq<TreeItem>)
    decreases ns
  {
    seq(|ns|, i requires 0 <= i < |ns| => RenderNode(ns[i], open))
  }

  /** The rendered item keeps the node's data, shows the fallbacks, and
      is open exactly when its alias is expanded or "nav.home". */
  lemma RenderNodeShape(n: NavNode, e: set<string>)
    ensures var t := RenderNode(n, e + {Home});
            t.alias == n.alias && t.caption == LabelText(n) && t.emoji == EmojiText(n)
            && (t.ariaExpanded.Some? <==> IsContainer(n))
            && (IsContainer(n) ==> (t.ariaExpanded.value <==> n.alias in e || n.alias == Home))
            && (t.group.Some? <==> HasChildren(n))
            && (HasChildren(n) ==> (t.group.value.hidden <==> n.alias !in e && n.alias != Home)
                                   && |t.group.value.kids| == |n.children|)
  {
  }

  /** The aliases `makeNode` adds to `expanded` over a subtree: those of its open containers. */
  function Opened(n: NavNode, open: set<string>): (r: set<string>)
    decreases n
  {
    (if IsContainer(n) && IsOpen(n, open) then {n.alias} else {}) + OpenedForest(n.children, open)
  }

  function OpenedForest(ns: seq<NavNode>, open: set<string>): (r: set<string>)
    decreases ns
  {
    if ns == [] then {} else OpenedForest(ns[..|ns| - 1], open) + Opened(ns[|ns| - 1], open)
  }

  /** Only aliases already open are ever added. */
  lemma {:induction false} OpenedWithin(n: NavNode, open: set<string>)
    ensures Opened(n, open) <= open
    decreases n
  {
    OpenedForestWithin(n.children, open);
  }

  lemma {:induction false} OpenedForestWithin(ns: seq<NavNode>, open: set<string>)
    ensures OpenedForest(ns, open) <= open
    decreases ns
  {
    if ns != [] {
      OpenedForestWithin(ns[..|ns| - 1], open);
      OpenedWithin(ns[|ns| - 1], open);
    }
  }

  /** So rendering the tree adds nothing to `expanded` but possibly "nav.home",
      and an open container's alias is always among the additions. */
  lemma RenderAddsOnlyHome(n: NavNode, e: set<string>)
    ensures e <= e + Opened(n, e + {Home}) <= e + {Home}
    ensures IsContainer(n) && (n.alias in e || n.alias == Home) ==> n.alias in Opened(n, e + {Home})
  {
    OpenedWithin(n, e + {Home});
  }

  /** Root selection in `renderTree`: the first top-level node aliased
      "nav.home", else the first node, else none. */
  function RootOf(tree: seq<NavNode>): (r: Option<NavNode>)
    ensures r.None? <==> tree == []
    ensures (exists i :: 0 <= i < |tree| && tree[i].alias == Home) ==> r.Some? && r.value.alias == Home
    ensures r.Some? && r.value.alias == Home ==>
              exists i :: 0 <= i < |tree| && tree[i] == r.value && forall j :: 0 <= j < i ==> tree[j].alias != Home
    ensures (forall i :: 0 <= i < |tree| ==> tree[i].alias != Home) && tree != [] ==> r == Some(tree[0])
  {
    match FirstHome(tree)
    case Some(i) => Some(tree[i])
    case None => if tree == [] then None else Some(tree[0])
  }

  function FirstHome(tree: seq<NavNode>): (r: Option<nat>)
    ensures r.Some? ==> r.value < |tree| && tree[r.value].alias == Home
                        && forall j :: 0 <= j < r.value ==> tree[j].alias != Home
    ensures r.None? ==> forall j :: 0 <= j < |tree| ==> tree[j].alias != Home
  {
    if tree == [] then None
    else if tree[0].alias == Home then Some(0)
    else match FirstHome(tree[1..])
      case None => None
      case Some(i) => Some(i + 1)
  }

  // ---------------------------------------------------------------------
  // findAliasByPath

  /** A dataset node for the stored path. */
  predicate IsDatasetAt(n: NavNode, path: string) {
    n.typ == "dataset" && n.path == Some(path)
  }

  /** `findAliasByPath(nodes, path)`: the returned alias, `None` for `null`.
      A child's result that is "" is falsy and skipped. */
  function FindAliasByPath(ns: seq<NavNode>, path: string): (r: Option<string>)
    decreases ns
  {
    if ns == [] then None
    else if IsDatasetAt(ns[0], path) then Some(ns[0].alias)
    else
      var inChild := FindAliasByPath(ns[0].children, path);
      if Truthy(inChild) then inChild else FindAliasByPath(ns[1..], path)
  }

  /** The nodes of a forest, each parent before its children. */
  function Preorder(ns: seq<NavNode>): (r: seq<NavNode>)
    decreases ns
  {
    if ns == [] then [] else [ns[0]] + Preorder(ns[0].children) + Preorder(ns[1..])
  }

  /** The alias of the first dataset node for `path` in a flat list. */
  function FirstDatasetAlias(xs: seq<NavNode>, path: string): (r: Option<string>)
    ensures r.None? <==> forall i :: 0 <= i < |xs| ==> !IsDatasetAt(xs[i], path)
    ensures r.Some? ==> exists i :: 0 <= i < |xs| && IsDatasetAt(xs[i], path) && r.value == xs[i].alias
                                    && forall j :: 0 <= j < i ==> !IsDatasetAt(xs[j], path)
  {
    if xs == [] then None
    else if IsDatasetAt(xs[0], path) then Some(xs[0].alias)
    else
      var r := FirstDatasetAlias(xs[1..], path);
      assert r.Some? ==> exists i :: 1 <= i < |xs| && IsDatasetAt(xs[i], path) && r.value == xs[i].alias
                                     && forall j :: 0 <= j < i ==> !IsDatasetAt(xs[j], path) by {
        if r.Some? {
          var i :| 0 <= i < |xs[1..]| && IsDatasetAt(xs[1..][i], path) && r.value == xs[1..][i].alias
                   && forall j :: 0 <= j < i ==> !IsDatasetAt(xs[1..][j], path);
          assert forall j :: 0 <= j < i + 1 ==> !IsDatasetAt(xs[j], path) by {
            forall j | 0 <= j < i + 1 ensures !IsDatasetAt(xs[j], path) {
              if j > 0 { assert xs[j] == xs[1..][j - 1]; }
            }
          }
        }
      }
      r
  }

  lemma {:induction false} FirstDatasetAliasAppend(a: seq<NavNode>, b: seq<NavNode>, path: string)
    ensures FirstDatasetAlias(a + b, path)
            == if FirstDatasetAlias(a, path).Some? then FirstDatasetAlias(a, path) else FirstDatasetAlias(b, path)
  {
    if a != [] {
      assert (a + b)[0] == a[0] && (a + b)[1..] == a[1..] + b;
      FirstDatasetAliasAppend(a[1..], b, path);
    } else {
      assert a + b == b;
    }
  }

  /** Every node of the forest has a non-empty alias. */
  predicate AliasesNonEmpty(xs: seq<NavNode>) {
    forall i :: 0 <= i < |xs| ==> xs[i].alias != ""
  }

  /** When no alias is "", `findAliasByPath` returns the alias of the first
      dataset node for the path in preorder, and `null` when there is none. */
  lemma {:induction false} FindIsFirstInPreorder(ns: seq<NavNode>, path: string)
    requires AliasesNonEmpty(Preorder(ns))
    ensures FindAliasByPath(ns, path) == FirstDatasetAlias(Preorder(ns), path)
    decreases ns
  {
    if ns != [] {
      var n, kids, rest := ns[0], Preorder(ns[0].children), Preorder(ns[1..]);
      var all := Preorder(ns);
      assert all == [n] + kids + rest;
      assert all == [n] + (kids + rest);
      assert all[0] == n && all[1..] == kids + rest;
      if !IsDatasetAt(n, path) {
        assert AliasesNonEmpty(kids) by {
          forall i | 0 <= i < |kids| ensures kids[i].alias != "" { assert kids[i] == all[1 + i]; }
        }
        assert AliasesNonEmpty(rest) by {
          forall i | 0 <= i < |rest| ensures rest[i].alias != "" { assert rest[i] == all[1 + |kids| + i]; }
        }
        FindIsFirstInPreorder(ns[0].children, path);
        FindIsFirstInPreorder(ns[1..], path);
        FirstDatasetAliasAppend(kids, rest, path);
        var c := FirstDatasetAlias(kids, path);
        if c.Some? {
          var i :| 0 <= i < |kids| && c.value == kids[i].alias;
        }
      }
    }
  }

  /** Whatever `findAliasByPath` returns is the alias of a dataset node for the
      path somewhere in the tree: other node types are never returned. */
  lemma {:induction false} FindIsSound(ns: seq<NavNode>, path: string)
    ensures FindAliasByPath(ns, path).Some? ==>
              exists i :: 0 <= i < |Preorder(ns)| && IsDatasetAt(Preorder(ns)[i], path)
                          && Preorder(ns)[i].alias == FindAliasByPath(ns, path).value
    decreases ns
  {
    if ns != [] && !IsDatasetAt(ns[0], path) {
      var kids, rest := Preorder(ns[0].children), Preorder(ns[1..]);
      var all := Preorder(ns);
      assert all == [ns[0]] + kids + rest;
      FindIsSound(ns[0].children, path);
      FindIsSound(ns[1..], path);
      var r := FindAliasByPath(ns, path);
      if Truthy(FindAliasByPath(ns[0].children, path)) {
        var i :| 0 <= i < |kids| && IsDatasetAt(kids[i], path) && kids[i].alias == r.value;
        assert all[1 + i] == kids[i];
      } else if r.Some? {
        var i :| 0 <= i < |rest| && IsDatasetAt(rest[i], path) && rest[i].alias == r.value;
        assert all[1 + |kids| + i] == rest[i];
      }
    } else if ns != [] {
      assert Preorder(ns)[0] == ns[0];
    }
  }

  // ---------------------------------------------------------------------
  // expandChainToAlias

  /** `s.split('.')`. */
  function Split(s: string): (parts: seq<string>)
    ensures |parts| >= 1
  {
    if s == [] then [""]
    else
      var r := Split(s[1..]);
      if s[0] == '.' then [""] + r else [[s[0]] + r[0]] + r[1..]
  }

  /** `parts.join('.')` for a non-empty list. */
  function Join(parts: seq<string>): string
    requires |parts| >= 1
  {
    if |parts| == 1 then parts[0] else parts[0] + "." + Join(parts[1..])
  }

  lemma {:induction false} JoinConsHead(c: char, parts: seq<string>)
    requires |parts| >= 1
    ensures Join([[c] + parts[0]] + parts[1..]) == [c] + Join(parts)
  {
    var q := [[c] + parts[0]] + parts[1..];
    assert q[1..] == parts[1..];
  }

  /** Splitting at the dots and joining again gives the alias back. */
  lemma {:induction false} JoinSplit(s: string)
    ensures Join(Split(s)) == s
  {
    if s != [] {
      JoinSplit(s[1..]);
      var r := Split(s[1..]);
      if s[0] == '.' {
        assert ([""] + r)[1..] == r;
      } else {
        JoinConsHead(s[0], r);
      }
    }
  }

  /** A prefix of the alias that ends before a dot or at its end. */
  predicate IsChainPrefix(alias: string, x: string) {
    |x| <= |alias| && alias[..|x|] == x && (|x| == |alias| || alias[|x|] == '.')
  }

  /** The value `acc.join('.')` has after the i-th step. */
  function Step(alias: string, i: nat): string
    requires 1 <= i <= |Split(alias)|
  {
    Join(Split(alias)[..i])
  }

  /** A leading dot adds an empty first part: every later step gains that dot. */
  lemma StepAfterDot(t: string, i: nat)
    requires 1 <= i <= |Split(t)|
    ensures Split("." + t) == [""] + Split(t)
    ensures Step("." + t, i + 1) == "." + Step(t, i)
  {
    var s := "." + t;
    assert s[1..] == t;
    var parts := [""] + Split(t);
    assert parts[..i + 1][1..] == Split(t)[..i];
  }

  /** Any other leading character joins the first part, so every step starts with it. */
  lemma StepAfterChar(c: char, t: string, i: nat)
    requires c != '.' && 1 <= i <= |Split(t)|
    ensures |Split([c] + t)| == |Split(t)|
    ensures Step([c] + t, i) == [c] + Step(t, i)
  {
    var s := [c] + t;
    assert s[1..] == t;
    var r := Split(t);
    var rp := r[..i];
    assert Split(s)[..i] == [[c] + rp[0]] + rp[1..];
    JoinConsHead(c, rp);
  }

  /** Each step of the loop adds a chain prefix ... */
  lemma {:induction false} StepIsChainPrefix(s: string, i: nat)
    requires 1 <= i <= |Split(s)|
    ensures IsChainPrefix(s, Step(s, i))
  {
    if s != [] {
      var t := s[1..];
      assert s == [s[0]] + t;
      if s[0] == '.' {
        if i > 1 {
          StepIsChainPrefix(t, i - 1);
          StepAfterDot(t, i - 1);
        } else {
          assert Split(s)[..1] == [""];
        }
      } else {
        StepIsChainPrefix(t, i);
        StepAfterChar(s[0], t, i);
      }
    }
  }

  /** ... and every chain prefix is added by some step. */
  lemma {:induction false} ChainPrefixIsStep(s: string, x: string)
    requires IsChainPrefix(s, x)
    ensures exists i :: 1 <= i <= |Split(s)| && Step(s, i) == x
  {
    if s == [] {
      assert Step(s, 1) == "";
    } else {
      var t := s[1..];
      assert s == [s[0]] + t;
      if s[0] == '.' && x == [] {
        assert Split(s)[..1] == [""];
        assert Step(s, 1) == x;
      } else {
        assert x != [] && x[0] == s[0];
        assert x == [x[0]] + x[1..];
        assert IsChainPrefix(t, x[1..]) by { assert s[..|x|][1..] == t[..|x| - 1]; }
        ChainPrefixIsStep(t, x[1..]);
        var i :| 1 <= i <= |Split(t)| && Step(t, i) == x[1..];
        if s[0] == '.' {
          StepAfterDot(t, i);
          assert Step(s, i + 1) == x;
        } else {
          StepAfterChar(s[0], t, i);
          assert Step(s, i) == x;
        }
      }
    }
  }

  /** "a.b.c" has exactly the chain prefixes "a", "a.b" and "a.b.c". */
  lemma ChainOfABC(x: string)
    ensures IsChainPrefix("a.b.c", x) <==> x == "a" || x == "a.b" || x == "a.b.c"
  {
    var s := "a.b.c";
    if IsChainPrefix(s, x) {
      assert |x| == 1 || |x| == 3 || |x| == 5;
      if |x| == 1 { assert x == s[..1]; }
      else if |x| == 3 { assert x == s[..3]; }
      else { assert x == s[..5]; }
    }
  }

  // ---------------------------------------------------------------------
  // handleTreeKeydown

  /** What a key press on a tree button does: nothing, a click on that button,
      focus to another button of the flat list, or focus to the parent button. */
  datatype KeyAction = NoAction | ClickButton | FocusAt(index: nat) | FocusParent

  /** `handleTreeKeydown`, for the button at index `i` of the `count` buttons
      in document order; `ariaExpanded` is its attribute (None when absent). */
  function KeyMove(key: string, ariaExpanded: Option<bool>, i: nat, count: nat): (a: KeyAction)
    requires i < count
    ensures a.FocusAt? ==> a.index < count
    ensures key == "ArrowDown" ==> a == (if i + 1 < count then FocusAt(i + 1) else NoAction)
    ensures key == "ArrowUp" ==> a == (if i > 0 then FocusAt(i - 1) else NoAction)
    ensures key == "ArrowRight" ==> (a == ClickButton <==> ariaExpanded == Some(false))
    ensures key == "ArrowLeft" ==> (a == ClickButton <==> ariaExpanded == Some(true))
    ensures key == "Enter" || key == " " ==> a == ClickButton
  {
    if key == "ArrowRight" then
      if ariaExpanded == Some(false) then ClickButton else NoAction
    else if key == "ArrowLeft" then
      if ariaExpanded == Some(true) then ClickButton else FocusParent
    else if key == "ArrowDown" then
      if i + 1 < count then FocusAt(i + 1) else NoAction
    else if key == "ArrowUp" then
      if i > 0 then FocusAt(i - 1) else NoAction
    else if key == "Enter" || key == " " then ClickButton
    else NoAction
  }

  /** Down then up returns to the same button, and up then down too. */
  lemma DownUpRoundTrip(e1: Option<bool>, e2: Option<bool>, i: nat, count: nat)
    requires i < count
    ensures KeyMove("ArrowDown", e1, i, count) == FocusAt(i + 1) ==>
              KeyMove("ArrowUp", e2, i + 1, count) == FocusAt(i)
    ensures KeyMove("ArrowUp", e1, i, count).FocusAt? ==>
              KeyMove("ArrowDown", e2, i - 1, count) == FocusAt(i)
  {
  }

  /** The buttons of a rendered tree in document order: the list the up and
      down keys move over. Hidden groups are included. */
  function Buttons(ts: seq<TreeItem>): (r: seq<TreeItem>)
    decreases ts
  {
    if ts == [] then []
    else [ts[0]] + (if ts[0].group.Some? then Buttons(ts[0].group.value.kids) else []) + Buttons(ts[1..])
  }

  /** One button per node, in preorder. */
  lemma {:induction false} ButtonsArePreorder(ns: seq<NavNode>, open: set<string>)
    ensures Buttons(RenderForest(ns, open)) == RenderForest(Preorder(ns), open)
    decreases ns
  {
    if ns != [] {
      var ts := RenderForest(ns, open);
      var n := ns[0];
      assert ts[0] == RenderNode(n, open);
      assert ts[1..] == RenderForest(ns[1..], open);
      ButtonsArePreorder(n.children, open);
      ButtonsArePreorder(ns[1..], open);
      var kids := if ts[0].group.Some? then Buttons(ts[0].group.value.kids) else [];
      assert kids == RenderForest(Preorder(n.children), open) by {
        if !HasChildren(n) { assert n.children == []; }
      }
      RenderForestAppend([n], Preorder(n.children), open);
      RenderForestAppend([n] + Preorder(n.children), Preorder(ns[1..]), open);
    }
  }

  lemma RenderForestAppend(a: seq<NavNode>, b: seq<NavNode>, open: set<string>)
    ensures RenderForest(a + b, open) == RenderForest(a, open) + RenderForest(b, open)
  {
  }
}
