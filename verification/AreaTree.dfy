/** The area listing: a map from parent to children and a recursive build from the empty parent.
    Parent links are arbitrary; updating an area may close a cycle. */
module AreaTree {
  import opened Wrappers

  datatype Area = Area(id: string, name: string, parent: string, isRoot: bool, sort: int)

  datatype Node = Node(id: string, name: string, parent: string, isRoot: bool, sort: int, children: seq<Node>)

  // Primary keys: unique and never empty.
  predicate Keyed(areas: seq<Area>) {
    && (forall i | 0 <= i < |areas| :: areas[i].id != "")
    && (forall i, j | 0 <= i < j < |areas| :: areas[i].id != areas[j].id)
  }

  function Children(areas: seq<Area>, parent: string): seq<Area> {
    if areas == [] then []
    else Children(areas[..|areas| - 1], parent) + if areas[|areas| - 1].parent == parent then [areas[|areas| - 1]] else []
  }

  lemma {:induction false} ChildrenMembers(areas: seq<Area>, parent: string)
    ensures forall a :: a in Children(areas, parent) <==> a in areas && a.parent == parent
  {
    if areas != [] {
      ChildrenMembers(areas[..|areas| - 1], parent);
      assert areas == areas[..|areas| - 1] + [areas[|areas| - 1]];
    }
  }

  // --- Parent chains ---

  function Find(areas: seq<Area>, id: string): (r: Option<Area>)
    ensures r.Some? ==> r.value in areas && r.value.id == id
    ensures r.None? ==> forall a | a in areas :: a.id != id
  {
    if areas == [] then None else if areas[0].id == id then Some(areas[0]) else Find(areas[1..], id)
  }

  lemma FindKeyed(areas: seq<Area>, a: Area)
    requires Keyed(areas) && a in areas
    ensures Find(areas, a.id) == Some(a)
  {}

  // The id reached by going up `n` parent links.
  function Up(areas: seq<Area>, id: string, n: nat): Option<string>
    decreases n
  {
    if n == 0 then Some(id)
    else
      var a := Find(areas, id);
      if a.None? then None else Up(areas, a.value.parent, n - 1)
  }

  // The parent chain of `id` ends at the empty parent after `n` links.
  predicate ReachesIn(areas: seq<Area>, id: string, n: nat) {
    Up(areas, id, n) == Some("")
  }

  ghost predicate Reaches(areas: seq<Area>, id: string) {
    exists n: nat :: n > 0 && ReachesIn(areas, id, n)
  }

  lemma {:induction false} UpAdd(areas: seq<Area>, id: string, n: nat, m: nat)
    requires Up(areas, id, n).Some?
    ensures Up(areas, id, n + m) == Up(areas, Up(areas, id, n).value, m)
    decreases n
  {
    if n > 0 { UpAdd(areas, Find(areas, id).value.parent, n - 1, m); }
  }

  lemma {:induction false} UpBefore(areas: seq<Area>, id: string, n: nat, m: nat)
    requires Up(areas, id, n).Some? && m <= n
    ensures Up(areas, id, m).Some?
    decreases m
  {
    if m > 0 { UpBefore(areas, Find(areas, id).value.parent, n - 1, m - 1); }
  }

  lemma NothingAboveEmpty(areas: seq<Area>, n: nat)
    requires Keyed(areas) && n > 0
    ensures Up(areas, "", n) == None
  {}

  lemma DepthUnique(areas: seq<Area>, id: string, n: nat, m: nat)
    requires Keyed(areas) && ReachesIn(areas, id, n) && ReachesIn(areas, id, m)
    ensures n == m
  {
    if n < m { UpAdd(areas, id, n, m - n); NothingAboveEmpty(areas, m - n); }
    if m < n { UpAdd(areas, id, m, n - m); NothingAboveEmpty(areas, n - m); }
  }

  /** An area on a cycle never reaches the empty parent. */
  lemma {:induction false} CycleNeverReaches(areas: seq<Area>, id: string, n: nat, m: nat)
    requires Keyed(areas) && n > 0 && Up(areas, id, n) == Some(id)
    ensures !ReachesIn(areas, id, m)
    decreases m
  {
    if ReachesIn(areas, id, m) {
      if m >= n {
        UpAdd(areas, id, n, m - n);
        CycleNeverReaches(areas, id, n, m - n);
      } else {
        NothingAboveEmpty(areas, n - m);
        UpAdd(areas, id, m, n - m);
      }
    }
  }

  // --- Paths the recursion follows ---

  predicate Path(areas: seq<Area>, path: seq<string>) {
    && path != [] && path[0] == ""
    && forall i | 0 < i < |path| :: PathLink(areas, path[i], path[i - 1])
  }

  predicate PathLink(areas: seq<Area>, id: string, parent: string) {
    var a := Find(areas, id);
    a.Some? && a.value.parent == parent
  }

  lemma {:induction false} PathDepth(areas: seq<Area>, path: seq<string>, i: nat)
    requires Path(areas, path) && i < |path|
    ensures ReachesIn(areas, path[i], i)
  {
    if i > 0 {
      assert PathLink(areas, path[i], path[i - 1]);
      PathDepth(areas, path, i - 1);
    }
  }

  lemma PathDistinct(areas: seq<Area>, path: seq<string>, i: nat, j: nat)
    requires Keyed(areas) && Path(areas, path) && i < j < |path|
    ensures path[i] != path[j]
  {
    PathDepth(areas, path, i);
    PathDepth(areas, path, j);
    if path[i] == path[j] { DepthUnique(areas, path[i], i, j); }
  }

  lemma {:induction false} DistinctWithin(xs: seq<string>, pool: set<string>)
    requires forall i, j | 0 <= i < j < |xs| :: xs[i] != xs[j]
    requires forall i | 0 <= i < |xs| :: xs[i] in pool
    ensures |xs| <= |pool|
    decreases |xs|
  {
    if xs != [] {
      var last := xs[|xs| - 1];
      DistinctWithin(xs[..|xs| - 1], pool - {last});
      assert |pool - {last}| == |pool| - 1;
    }
  }

  function AllIds(areas: seq<Area>): set<string> {
    set a | a in areas :: a.id
  }

  lemma {:induction false} IdsBound(areas: seq<Area>)
    ensures |AllIds(areas)| <= |areas|
  {
    if areas != [] {
      IdsBound(areas[1..]);
      assert areas == [areas[0]] + areas[1..];
      assert AllIds(areas) == AllIds(areas[1..]) + {areas[0].id};
    }
  }

  // Distinct areas along every path bound the depth of the recursion.
  lemma PathBound(areas: seq<Area>, path: seq<string>)
    requires Keyed(areas) && Path(areas, path)
    ensures |path| <= |areas| + 1
  {
    var ids := path[1..];
    forall i, j | 0 <= i < j < |ids| ensures ids[i] != ids[j] { PathDistinct(areas, path, i + 1, j + 1); }
    forall i | 0 <= i < |ids| ensures ids[i] in AllIds(areas) { assert PathLink(areas, path[i + 1], path[i]); }
    DistinctWithin(ids, AllIds(areas));
    IdsBound(areas);
  }

  lemma PathExtends(areas: seq<Area>, path: seq<string>, a: Area)
    requires Keyed(areas) && Path(areas, path) && a in areas && a.parent == path[|path| - 1]
    ensures Path(areas, path + [a.id]) && |path| < |areas| + 1
  {
    var longer := path + [a.id];
    FindKeyed(areas, a);
    forall i | 0 < i < |longer| ensures PathLink(areas, longer[i], longer[i - 1]) {
      if i < |path| { assert PathLink(areas, path[i], path[i - 1]); }
    }
    PathBound(areas, longer);
  }

  // --- Building ---

  predicate AreChildren(areas: seq<Area>, parent: string, items: seq<Area>) {
    forall a | a in items :: a in areas && a.parent == parent
  }

  // What the recursive closure returns when called for the last id of `path`.
  function Build(areas: seq<Area>, path: seq<string>): seq<Node>
    requires Keyed(areas) && Path(areas, path)
    decreases |areas| + 1 - |path|, 1, 0
  {
    var items := Children(areas, path[|path| - 1]);
    ChildrenMembers(areas, path[|path| - 1]);
    PathBound(areas, path);
    BuildAll(areas, path, items)
  }

  function BuildAll(areas: seq<Area>, path: seq<string>, items: seq<Area>): seq<Node>
    requires Keyed(areas) && Path(areas, path) && |path| <= |areas| + 1 && AreChildren(areas, path[|path| - 1], items)
    decreases |areas| + 1 - |path|, 0, |items|
  {
    if items == [] then []
    else
      var a := items[|items| - 1];
      PathExtends(areas, path, a);
      BuildAll(areas, path, items[..|items| - 1]) +
      [NodeOf(a, Build(areas, path + [a.id]))]
  }

  function NodeOf(a: Area, children: seq<Node>): Node {
    Node(a.id, a.name, a.parent, a.isRoot, a.sort, children)
  }

  // How often an id occurs in a forest.
  function Occurs(nodes: seq<Node>, id: string): nat
    decreases nodes
  {
    if nodes == [] then 0
    else
      var last := nodes[|nodes| - 1];
      Occurs(nodes[..|nodes| - 1], id) + (if last.id == id then 1 else 0) + Occurs(last.children, id)
  }

  // --- Each area exactly once ---

  // `x` is the ancestor of `id` at depth `j`, or `id` itself, where `id` has depth `d`.
  predicate OnWay(areas: seq<Area>, id: string, d: nat, x: string, j: nat) {
    j <= d && Up(areas, id, d - j) == Some(x)
  }

  function Ancestor(areas: seq<Area>, id: string, n: nat): string {
    var up := Up(areas, id, n);
    if up.Some? then up.value else ""
  }

  function CountId(items: seq<Area>, x: string): nat {
    if items == [] then 0 else CountId(items[..|items| - 1], x) + if items[|items| - 1].id == x then 1 else 0
  }

  lemma {:induction false} CountChildren(areas: seq<Area>, parent: string, x: string)
    requires Keyed(areas)
    ensures CountId(Children(areas, parent), x) ==
      var a := Find(areas, x); if a.Some? && a.value.parent == parent then 1 else 0
  {
    if areas != [] {
      var init, last := areas[..|areas| - 1], areas[|areas| - 1];
      CountChildren(init, parent, x);
      assert areas == init + [last];
      var before := Children(init, parent);
      if last.parent == parent { assert (before + [last])[..|before|] == before; } else { assert before + [] == before; }
      FindSnoc(init, last, x);
    }
  }

  lemma {:induction false} FindSnoc(init: seq<Area>, last: Area, x: string)
    ensures Find(init + [last], x) == if Find(init, x).Some? then Find(init, x) else if last.id == x then Some(last) else None
  {
    if init != [] {
      assert (init + [last])[1..] == init[1..] + [last];
      FindSnoc(init[1..], last, x);
    } else {
      assert init + [last] == [last] && [last][1..] == [];
    }
  }

  // Reached areas: exactly one child on each level leads to them.
  lemma {:induction false} OccursInAll(areas: seq<Area>, path: seq<string>, items: seq<Area>, id: string, d: nat)
    requires Keyed(areas) && Path(areas, path) && |path| <= |areas| + 1 && AreChildren(areas, path[|path| - 1], items)
    requires d > 0 && ReachesIn(areas, id, d)
    ensures Occurs(BuildAll(areas, path, items), id) ==
      if d >= |path| then CountId(items, Ancestor(areas, id, d - |path|)) else 0
    decreases |areas| + 1 - |path|, 0, |items|
  {
    if d >= |path| { UpBefore(areas, id, d, d - |path|); }
    if items != [] {
      var a, init := items[|items| - 1], items[..|items| - 1];
      PathExtends(areas, path, a);
      OccursInAll(areas, path, init, id, d);
      OccursBelow(areas, path + [a.id], id, d);
      var before := BuildAll(areas, path, init);
      var node := NodeOf(a, Build(areas, path + [a.id]));
      assert (before + [node])[..|before|] == before;
      NodeCount(areas, path, a, id, d);
    }
  }

  // A node is the area itself, or its subtree holds it, exactly when it lies on the way.
  lemma NodeCount(areas: seq<Area>, path: seq<string>, a: Area, id: string, d: nat)
    requires Keyed(areas) && Path(areas, path + [a.id]) && d > 0 && ReachesIn(areas, id, d)
    ensures (if a.id == id then 1 else 0) + (if d > |path| && OnWay(areas, id, d, a.id, |path|) then 1 else 0)
      == if OnWay(areas, id, d, a.id, |path|) then 1 else 0
  {
    var longer := path + [a.id];
    PathDepth(areas, longer, |path|);
    assert longer[|path|] == a.id;
    if a.id == id { DepthUnique(areas, id, d, |path|); }
  }

  lemma {:induction false} OccursBelow(areas: seq<Area>, path: seq<string>, id: string, d: nat)
    requires Keyed(areas) && Path(areas, path) && d > 0 && ReachesIn(areas, id, d)
    ensures Occurs(Build(areas, path), id) == if d > |path| - 1 && OnWay(areas, id, d, path[|path| - 1], |path| - 1) then 1 else 0
    decreases |areas| + 1 - |path|, 1, 0
  {
    hide BuildAll, Occurs, Children, CountId, AreChildren, Find;
    var parent := path[|path| - 1];
    ChildrenMembers(areas, parent);
    PathBound(areas, path);
    OccursInAll(areas, path, Children(areas, parent), id, d);
    if d >= |path| {
      UpBefore(areas, id, d, d - |path|);
      var x := Up(areas, id, d - |path|).value;
      CountChildren(areas, parent, x);
      UpBefore(areas, id, d, d - |path| + 1);
      UpAdd(areas, id, d - |path|, 1);
    }
  }

  // Areas that reach nothing are built nowhere.
  lemma {:induction false} UnreachedInAll(areas: seq<Area>, path: seq<string>, items: seq<Area>, id: string)
    requires Keyed(areas) && Path(areas, path) && |path| <= |areas| + 1 && AreChildren(areas, path[|path| - 1], items)
    requires !Reaches(areas, id)
    ensures Occurs(BuildAll(areas, path, items), id) == 0
    decreases |areas| + 1 - |path|, 0, |items|
  {
    if items != [] {
      var a, init := items[|items| - 1], items[..|items| - 1];
      PathExtends(areas, path, a);
      UnreachedInAll(areas, path, init, id);
      var longer := path + [a.id];
      UnreachedBelow(areas, longer, id);
      PathDepth(areas, longer, |path|);
      assert longer[|path|] == a.id;
      var before := BuildAll(areas, path, init);
      var node := NodeOf(a, Build(areas, longer));
      assert (before + [node])[..|before|] == before;
    }
  }

  lemma {:induction false} UnreachedBelow(areas: seq<Area>, path: seq<string>, id: string)
    requires Keyed(areas) && Path(areas, path) && !Reaches(areas, id)
    ensures Occurs(Build(areas, path), id) == 0
    decreases |areas| + 1 - |path|, 1, 0
  {
    ChildrenMembers(areas, path[|path| - 1]);
    PathBound(areas, path);
    UnreachedInAll(areas, path, Children(areas, path[|path| - 1]), id);
  }

  /** The listing holds every area whose parent chain reaches the empty parent exactly once, and no
      other id, in particular none of an area on a cycle. */
  lemma EachReachedOnce(areas: seq<Area>, id: string)
    requires Keyed(areas)
    ensures Occurs(Build(areas, [""]), id) == if Reaches(areas, id) then 1 else 0
  {
    if Reaches(areas, id) {
      var d: nat :| d > 0 && ReachesIn(areas, id, d);
      OccursBelow(areas, [""], id, d);
    } else {
      UnreachedBelow(areas, [""], id);
    }
  }

  // --- The shape of the listing ---

  // The node shows the area, and below it the area's children.
  predicate Shows(areas: seq<Area>, node: Node, a: Area)
    decreases node
  {
    && node.id == a.id && node.name == a.name && node.parent == a.parent && node.isRoot == a.isRoot && node.sort == a.sort
    && Mirrors(areas, node.children, a.id)
  }

  // The nodes show the children of `parent`, in their order.
  predicate Mirrors(areas: seq<Area>, nodes: seq<Node>, parent: string)
    decreases nodes
  {
    var items := Children(areas, parent);
    |nodes| == |items| && forall i | 0 <= i < |items| :: Shows(areas, nodes[i], items[i])
  }

  lemma {:induction false} AllShown(areas: seq<Area>, path: seq<string>, items: seq<Area>)
    requires Keyed(areas) && Path(areas, path) && |path| <= |areas| + 1 && AreChildren(areas, path[|path| - 1], items)
    ensures var nodes := BuildAll(areas, path, items);
      |nodes| == |items| && forall i | 0 <= i < |items| :: Shows(areas, nodes[i], items[i])
    decreases |areas| + 1 - |path|, 0, |items|
  {
    if items != [] {
      var a, init := items[|items| - 1], items[..|items| - 1];
      PathExtends(areas, path, a);
      AllShown(areas, path, init);
      ListingMirrors(areas, path + [a.id]);
      assert Shows(areas, NodeOf(a, Build(areas, path + [a.id])), a);
    }
  }

  /** The listing shows below every area exactly its children, in their order, each with its own data. */
  lemma {:induction false} ListingMirrors(areas: seq<Area>, path: seq<string>)
    requires Keyed(areas) && Path(areas, path)
    ensures Mirrors(areas, Build(areas, path), path[|path| - 1])
    decreases |areas| + 1 - |path|, 1, 0
  {
    hide BuildAll, Children, Shows;
    ChildrenMembers(areas, path[|path| - 1]);
    PathBound(areas, path);
    AllShown(areas, path, Children(areas, path[|path| - 1]));
  }

  /** The children of an area stand in the order of the areas. */
  lemma {:induction false} ChildrenInOrder(before: seq<Area>, after: seq<Area>, parent: string)
    ensures Children(before + after, parent) == Children(before, parent) + Children(after, parent)
  {
    if after == [] {
      assert before + after == before;
    } else {
      assert (before + after)[..|before + after| - 1] == before + after[..|after| - 1];
      ChildrenInOrder(before, after[..|after| - 1], parent);
    }
  }

  // --- Moving an area ---

  // An update ignores a blank parent and the area itself as its parent, and checks nothing else.
  function Moved(areas: seq<Area>, id: string, parent: string): seq<Area> {
    seq(|areas|, i requires 0 <= i < |areas| =>
      if areas[i].id == id && !areas[i].isRoot && parent != "" && parent != id then areas[i].(parent := parent) else areas[i])
  }

  lemma {:induction false} MovedFind(areas: seq<Area>, id: string, parent: string, x: string)
    ensures Find(Moved(areas, id, parent), x) ==
      var a := Find(areas, x);
      if a.Some? && x == id && !a.value.isRoot && parent != "" && parent != id then Some(a.value.(parent := parent)) else a
  {
    if areas != [] {
      assert Moved(areas, id, parent)[1..] == Moved(areas[1..], id, parent);
      MovedFind(areas[1..], id, parent, x);
    }
  }

  lemma {:induction false} WayKept(areas: seq<Area>, id: string, parent: string, x: string, n: nat) returns (m: nat)
    requires Up(areas, x, n) == Some(id)
    ensures Up(Moved(areas, id, parent), x, m) == Some(id)
    decreases n
  {
    if x == id {
      m := 0;
    } else {
      MovedFind(areas, id, parent, x);
      m := WayKept(areas, id, parent, Find(areas, x).value.parent, n - 1);
      m := m + 1;
    }
  }

  lemma MoveClosesCycle(areas: seq<Area>, a: Area, parent: string, n: nat) returns (m: nat)
    requires Keyed(areas) && a in areas && !a.isRoot && parent != "" && parent != a.id && Up(areas, parent, n) == Some(a.id)
    ensures var after := Moved(areas, a.id, parent);
      m > 0 && Up(after, a.id, m) == Some(a.id) && Up(after, parent, m) == Some(parent)
  {
    var after := Moved(areas, a.id, parent);
    m := WayKept(areas, a.id, parent, parent, n);
    MovedFind(areas, a.id, parent, a.id);
    FindKeyed(areas, a);
    assert Up(after, a.id, m + 1) == Some(a.id);
    assert Up(after, a.id, 1) == Some(parent);
    UpAdd(after, parent, m, 1);
    m := m + 1;
  }

  lemma CycleUnlisted(areas: seq<Area>, id: string, m: nat)
    requires Keyed(areas) && m > 0 && Up(areas, id, m) == Some(id)
    ensures Occurs(Build(areas, [""]), id) == 0
  {
    forall k: nat ensures !ReachesIn(areas, id, k) { CycleNeverReaches(areas, id, m, k); }
    EachReachedOnce(areas, id);
  }

  /** Moving an area below one of its own descendants takes both out of the listing. */
  lemma MoveBelowItself(areas: seq<Area>, a: Area, parent: string, n: nat)
    requires Keyed(areas) && a in areas && !a.isRoot && parent != "" && parent != a.id && Up(areas, parent, n) == Some(a.id)
    ensures Keyed(Moved(areas, a.id, parent))
    ensures Occurs(Build(Moved(areas, a.id, parent), [""]), a.id) == 0 == Occurs(Build(Moved(areas, a.id, parent), [""]), parent)
  {
    hide Up, Build, Occurs, Find;
    var m := MoveClosesCycle(areas, a, parent, n);
    CycleUnlisted(Moved(areas, a.id, parent), a.id, m);
    CycleUnlisted(Moved(areas, a.id, parent), parent, m);
  }

  // The parent chain of `x` reaches the empty parent without passing `id`.
  ghost predicate ReachesAvoiding(areas: seq<Area>, x: string, id: string) {
    exists n: nat :: ReachesIn(areas, x, n) && Avoids(areas, x, id, n)
  }

  predicate Avoids(areas: seq<Area>, x: string, id: string, n: nat) {
    forall m: nat | m <= n :: Up(areas, x, m) != Some(id)
  }

  // A chain that avoids the moved area is the same before and after.
  lemma {:induction false} AvoidingKept(areas: seq<Area>, id: string, parent: string, x: string, n: nat)
    requires Avoids(areas, x, id, n) || Avoids(Moved(areas, id, parent), x, id, n)
    ensures Up(Moved(areas, id, parent), x, n) == Up(areas, x, n)
    ensures Avoids(areas, x, id, n) && Avoids(Moved(areas, id, parent), x, id, n)
    decreases n
  {
    var after := Moved(areas, id, parent);
    assert Up(areas, x, 0) == Up(after, x, 0) == Some(x);
    MovedFind(areas, id, parent, x);
    var a := Find(areas, x);
    if n > 0 && a.Some? {
      var up := a.value.parent;
      forall m: nat | m <= n - 1
        ensures Up(areas, up, m) == Up(areas, x, m + 1) && Up(after, up, m) == Up(after, x, m + 1)
      {}
      AvoidingKept(areas, id, parent, up, n - 1);
    }
    forall m: nat | m <= n ensures Up(areas, x, m) != Some(id) && Up(after, x, m) != Some(id) {
      if m > 0 && a.Some? { assert Up(areas, a.value.parent, m - 1) != Some(id) && Up(after, a.value.parent, m - 1) != Some(id); }
    }
  }

  // The moved area's chain goes on from its new parent.
  lemma MovedUp(areas: seq<Area>, a: Area, parent: string)
    requires Keyed(areas) && a in areas && !a.isRoot && parent != "" && parent != a.id
    ensures Keyed(Moved(areas, a.id, parent))
    ensures forall n: nat | n > 0 :: Up(Moved(areas, a.id, parent), a.id, n) == Up(Moved(areas, a.id, parent), parent, n - 1)
  {
    MovedFind(areas, a.id, parent, a.id);
    FindKeyed(areas, a);
  }

  lemma AvoidingReaches(areas: seq<Area>, a: Area, parent: string)
    requires Keyed(areas) && a in areas && !a.isRoot && parent != "" && parent != a.id && ReachesAvoiding(areas, parent, a.id)
    ensures Reaches(Moved(areas, a.id, parent), a.id)
  {
    hide Moved, Up, Keyed, Avoids;
    MovedUp(areas, a, parent);
    var n: nat :| ReachesIn(areas, parent, n) && Avoids(areas, parent, a.id, n);
    AvoidingKept(areas, a.id, parent, parent, n);
    assert ReachesIn(Moved(areas, a.id, parent), a.id, n + 1);
  }

  lemma ReachingAvoids(areas: seq<Area>, a: Area, parent: string)
    requires Keyed(areas) && a in areas && !a.isRoot && parent != "" && parent != a.id && Reaches(Moved(areas, a.id, parent), a.id)
    ensures ReachesAvoiding(areas, parent, a.id)
  {
    hide Moved, Up, Keyed;
    var after := Moved(areas, a.id, parent);
    MovedUp(areas, a, parent);
    var n: nat :| n > 0 && ReachesIn(after, a.id, n);
    forall m: nat | m <= n - 1 ensures Up(after, parent, m) != Some(a.id) {
      assert Up(after, a.id, m + 1) == Up(after, parent, m);
      if Up(after, parent, m) == Some(a.id) { CycleNeverReaches(after, a.id, m + 1, n); }
    }
    AvoidingKept(areas, a.id, parent, parent, n - 1);
    assert ReachesIn(areas, parent, n - 1);
  }

  /** A moved area is listed, and then once, if and only if the chain of its new parent reaches the
      empty parent without passing the area itself: not below a descendant, a missing parent or a cycle. */
  lemma MovedIsListedIff(areas: seq<Area>, a: Area, parent: string)
    requires Keyed(areas) && a in areas && !a.isRoot && parent != "" && parent != a.id
    ensures Keyed(Moved(areas, a.id, parent))
    ensures Occurs(Build(Moved(areas, a.id, parent), [""]), a.id) == if ReachesAvoiding(areas, parent, a.id) then 1 else 0
  {
    hide Up, Build, Occurs, Find, ReachesAvoiding, Reaches;
    MovedUp(areas, a, parent);
    if ReachesAvoiding(areas, parent, a.id) { AvoidingReaches(areas, a, parent); }
    if Reaches(Moved(areas, a.id, parent), a.id) { ReachingAvoids(areas, a, parent); }
    EachReachedOnce(Moved(areas, a.id, parent), a.id);
  }

  // --- The handler's own form ---

  function Listed(children: map<string, seq<Area>>, parent: string): seq<Area> {
    if parent in children then children[parent] else []
  }

  method FillChildren(areas: seq<Area>) returns (children: map<string, seq<Area>>)
    ensures forall parent :: Listed(children, parent) == Children(areas, parent)
  {
    children := map[];
    for i := 0 to |areas|
      invariant forall parent :: Listed(children, parent) == Children(areas[..i], parent)
    {
      assert areas[..i + 1][..i] == areas[..i];
      children := children[areas[i].parent := Listed(children, areas[i].parent) + [areas[i]]];
    }
    assert areas[..|areas|] == areas;
  }

  lemma BuildStep(areas: seq<Area>, path: seq<string>, items: seq<Area>, i: nat)
    requires Keyed(areas) && Path(areas, path) && i < |items| && AreChildren(areas, path[|path| - 1], items)
    ensures AreChildren(areas, path[|path| - 1], items[..i]) && AreChildren(areas, path[|path| - 1], items[..i + 1])
    ensures |path| < |areas| + 1 && Path(areas, path + [items[i].id])
    ensures BuildAll(areas, path, items[..i + 1]) ==
      BuildAll(areas, path, items[..i]) + [NodeOf(items[i], Build(areas, path + [items[i].id]))]
  {
    hide PathLink, Find, Build;
    PathExtends(areas, path, items[i]);
    assert items[..i + 1][..i] == items[..i];
  }

  method BuildNodes(children: map<string, seq<Area>>, parent: string, ghost areas: seq<Area>, ghost path: seq<string>)
    returns (out: seq<Node>)
    requires Keyed(areas) && Path(areas, path) && parent == path[|path| - 1]
    requires forall p :: Listed(children, p) == Children(areas, p)
    ensures out == Build(areas, path)
    decreases |areas| + 1 - |path|
  {
    hide Path, Keyed, AreChildren, Find;
    var items := Listed(children, parent);
    PathBound(areas, path);
    assert AreChildren(areas, parent, items) by { ChildrenOf(areas, parent); }
    out := [];
    assert items[..0] == [] && AreChildren(areas, parent, []) by { NoChildren(areas, parent); }
    for i := 0 to |items|
      invariant AreChildren(areas, parent, items[..i]) && out == BuildAll(areas, path, items[..i])
    {
      BuildStep(areas, path, items, i);
      var below := BuildNodes(children, items[i].id, areas, path + [items[i].id]);
      out := out + [Node(items[i].id, items[i].name, items[i].parent, items[i].isRoot, items[i].sort, below)];
    }
    assert items[..|items|] == items;
  }

  lemma ChildrenOf(areas: seq<Area>, parent: string)
    ensures AreChildren(areas, parent, Children(areas, parent))
  {}

  lemma NoChildren(areas: seq<Area>, parent: string)
    ensures AreChildren(areas, parent, [])
  {}

  method ListAreas(areas: seq<Area>) returns (items: seq<Node>)
    requires Keyed(areas)
    ensures items == Build(areas, [""]) && Mirrors(areas, items, "")
  {
    var children := FillChildren(areas);
    ListingMirrors(areas, [""]);
    items := BuildNodes(children, "", areas, [""]);
  }
}
