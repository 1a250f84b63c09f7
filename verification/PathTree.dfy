/** The file tree of a flat list of paths. */
module PathTree {
  import opened Options

  datatype FlatNode = FlatNode(path: string, isDirectory: bool)

  datatype TreeNode = TreeNode(name: string, fullPath: string, isDirectory: bool, children: seq<TreeNode>)

  // ---------------------------------------------------------------------------------------------
  // Paths

  /** Backslashes become slashes. */
  function Normalised(path: string): string {
    seq(|path|, k requires 0 <= k < |path| => if path[k] == '\\' then '/' else path[k])
  }

  function Split(path: string): (r: seq<string>)
    ensures |r| > 0
  {
    if path == "" then [""]
    else if path[0] == '/' then [""] + Split(path[1..])
    else [[path[0]] + Split(path[1..])[0]] + Split(path[1..])[1..]
  }

  function NonEmpty(parts: seq<string>): seq<string> {
    if parts == [] then []
    else if parts[0] == "" then NonEmpty(parts[1..])
    else [parts[0]] + NonEmpty(parts[1..])
  }

  function Segments(path: string): seq<string> { NonEmpty(Split(Normalised(path))) }

  function Join(parts: seq<string>): string {
    if parts == [] then "" else if |parts| == 1 then parts[0] else parts[0] + "/" + Join(parts[1..])
  }

  ghost predicate IsName(s: string) { s != "" && '/' !in s && '\\' !in s }

  ghost predicate AreNames(parts: seq<string>) { forall k | 0 <= k < |parts| :: IsName(parts[k]) }

  lemma {:induction false} SplitPieces(path: string)
    requires '\\' !in path
    ensures forall k | 0 <= k < |Split(path)| :: '/' !in Split(path)[k] && '\\' !in Split(path)[k]
  {
    if path != "" {
      SplitPieces(path[1..]);
    }
  }

  lemma {:induction false} NonEmptyPieces(parts: seq<string>)
    requires forall k | 0 <= k < |parts| :: '/' !in parts[k] && '\\' !in parts[k]
    ensures AreNames(NonEmpty(parts))
  {
    if parts != [] {
      NonEmptyPieces(parts[1..]);
    }
  }

  lemma SegmentsAreNames(path: string)
    ensures AreNames(Segments(path))
  {
    SplitPieces(Normalised(path));
    NonEmptyPieces(Split(Normalised(path)));
  }

  lemma {:induction false} SplitAtSlash(name: string, rest: string)
    requires '/' !in name
    ensures Split(name + "/" + rest) == [name] + Split(rest)
  {
    var path := name + "/" + rest;
    if name == "" {
      assert path[1..] == rest;
    } else {
      SplitAtSlash(name[1..], rest);
      assert path[1..] == name[1..] + "/" + rest;
      assert [name[0]] + name[1..] == name;
    }
  }

  lemma {:induction false} SplitName(name: string)
    requires '/' !in name
    ensures Split(name) == [name]
  {
    if name != "" {
      SplitName(name[1..]);
      assert [name[0]] + name[1..] == name;
    }
  }

  lemma {:induction false} SplitJoin(parts: seq<string>)
    requires AreNames(parts) && parts != []
    ensures Split(Join(parts)) == parts && NonEmpty(parts) == parts && '\\' !in Join(parts)
  {
    assert parts == [parts[0]] + parts[1..];
    if |parts| == 1 {
      SplitName(parts[0]);
      assert NonEmpty(parts[1..]) == [];
    } else {
      SplitJoin(parts[1..]);
      SplitAtSlash(parts[0], Join(parts[1..]));
    }
  }

  /** A full path is read back as its segments: different routes have different full paths. */
  lemma SegmentsOfJoin(parts: seq<string>)
    requires AreNames(parts)
    ensures Segments(Join(parts)) == parts
  {
    if parts != [] {
      SplitJoin(parts);
      assert Normalised(Join(parts)) == Join(parts);
    } else {
      assert Split(Normalised("")) == [""] && NonEmpty([""]) == [] + NonEmpty([""][1..]);
    }
  }

  lemma {:induction false} SplitApart(a: string, b: string)
    ensures Split(a + "/" + b) == Split(a) + Split(b)
  {
    if a == "" {
      assert ("" + "/" + b)[1..] == b;
    } else {
      SplitApart(a[1..], b);
      SplitMore(a + "/" + b, a[0], a[1..] + "/" + b, Split(a[1..]), Split(b));
    }
  }

  lemma SplitMore(path: string, c: char, rest: string, front: seq<string>, back: seq<string>)
    requires path == [c] + rest && Split(rest) == front + back && front != []
    ensures Split(path) == (if c == '/' then [""] + front else [[c] + front[0]] + front[1..]) + back
  {
    assert path[1..] == rest;
    assert (front + back)[0] == front[0] && (front + back)[1..] == front[1..] + back;
  }

  lemma {:induction false} NonEmptyApart(a: seq<string>, b: seq<string>)
    ensures NonEmpty(a + b) == NonEmpty(a) + NonEmpty(b)
  {
    if a == [] {
      assert a + b == b;
    } else {
      NonEmptyApart(a[1..], b);
      assert (a + b)[1..] == a[1..] + b;
      assert [a[0]] + NonEmpty(a[1..]) + NonEmpty(b) == [a[0]] + (NonEmpty(a[1..]) + NonEmpty(b));
    }
  }

  /** Either slash parts a path, a name is its own segment, and an empty path has none. */
  lemma SegmentsSay(a: string, b: string)
    ensures Segments("") == []
    ensures a != "" && '/' !in a && '\\' !in a ==> Segments(a) == [a]
    ensures Segments(a + "/" + b) == Segments(a) + Segments(b)
    ensures Segments(a + "\\" + b) == Segments(a) + Segments(b)
  {
    SegmentsOfJoin([]);
    if IsName(a) {
      SegmentsOfJoin([a]);
    }
    var path := Normalised(a) + "/" + Normalised(b);
    SplitApart(Normalised(a), Normalised(b));
    NonEmptyApart(Split(Normalised(a)), Split(Normalised(b)));
    assert Normalised(a + "/" + b) == path && Normalised(a + "\\" + b) == path;
  }

  // ---------------------------------------------------------------------------------------------
  // Building

  /** Index of the first sibling with this name. */
  function IndexOf(level: seq<TreeNode>, name: string): (j: nat)
    ensures j <= |level| && (j < |level| ==> level[j].name == name)
    ensures forall k | 0 <= k < j :: level[k].name != name
  {
    if level == [] || level[0].name == name then 0 else 1 + IndexOf(level[1..], name)
  }

  /** Adds what is missing of a path to the level reached by `route`. */
  function Insert(level: seq<TreeNode>, route: seq<string>, parts: seq<string>, isDirectory: bool): seq<TreeNode>
    decreases |parts|
  {
    if parts == [] then level
    else
      var j, here, last := IndexOf(level, parts[0]), route + [parts[0]], |parts| == 1;
      if j == |level| then
        level + [TreeNode(parts[0], Join(here), if last then isDirectory else true,
                          if last then [] else Insert([], here, parts[1..], isDirectory))]
      else if last then level
      else level[j := level[j].(children := Insert(level[j].children, here, parts[1..], isDirectory))]
  }

  function Built(nodes: seq<FlatNode>): seq<TreeNode> {
    if nodes == [] then []
    else
      var n := |nodes| - 1;
      Insert(Built(nodes[..n]), [], Segments(nodes[n].path), nodes[n].isDirectory)
  }

  /** Whether the node reached by these names is there, and if so whether it is a directory. */
  function Kind(level: seq<TreeNode>, names: seq<string>): Option<bool>
    decreases |names|
  {
    if names == [] || IndexOf(level, names[0]) == |level| then None
    else
      var node := level[IndexOf(level, names[0])];
      if |names| == 1 then Some(node.isDirectory) else Kind(node.children, names[1..])
  }

  /** What the first path that passes through these names makes of them. */
  function FirstKind(nodes: seq<FlatNode>, names: seq<string>): Option<bool> {
    if nodes == [] then None
    else
      var n := |nodes| - 1;
      var before, parts := FirstKind(nodes[..n], names), Segments(nodes[n].path);
      if before.Some? then before
      else if names != [] && names <= parts then Some(if names == parts then nodes[n].isDirectory else true)
      else None
  }

  lemma {:induction false} IndexIs(level: seq<TreeNode>, name: string, j: nat)
    requires j < |level| && level[j].name == name && forall k | 0 <= k < j :: level[k].name != name
    ensures IndexOf(level, name) == j
  {
  }

  lemma PrefixOfMore(names: seq<string>, parts: seq<string>)
    requires names != [] && parts != []
    ensures names <= parts <==> names[0] == parts[0] && names[1..] <= parts[1..]
    ensures names == parts <==> names[0] == parts[0] && names[1..] == parts[1..]
  {
    assert names == [names[0]] + names[1..] && parts == [parts[0]] + parts[1..];
  }

  /** Inserting adds exactly the missing prefixes of the path. */
  lemma {:induction false} InsertKind(level: seq<TreeNode>, route: seq<string>, parts: seq<string>, isDirectory: bool, names: seq<string>)
    ensures Kind(Insert(level, route, parts, isDirectory), names)
         == if Kind(level, names).Some? then Kind(level, names)
            else if names != [] && names <= parts then Some(if names == parts then isDirectory else true)
            else None
    decreases |parts|
  {
    if parts != [] && names != [] {
      var j, here := IndexOf(level, parts[0]), route + [parts[0]];
      var after := Insert(level, route, parts, isDirectory);
      PrefixOfMore(names, parts);
      if names[0] == parts[0] {
        IndexIs(after, parts[0], j);
        if |parts| > 1 {
          InsertKind(if j == |level| then [] else level[j].children, here, parts[1..], isDirectory, names[1..]);
        }
      } else {
        SameElsewhere(level, after, j, names);
      }
    }
  }

  lemma SameElsewhere(level: seq<TreeNode>, after: seq<TreeNode>, j: nat, names: seq<string>)
    requires names != [] && j <= |level| <= |after| && (|after| == |level| || (j == |level| && |after| == j + 1))
    requires forall k | 0 <= k < |level| && k != j :: after[k] == level[k]
    requires j < |after| ==> after[j].name != names[0] && (j < |level| ==> level[j].name != names[0])
    ensures Kind(after, names) == Kind(level, names)
  {
    var i := IndexOf(level, names[0]);
    if i < |level| {
      IndexIs(after, names[0], i);
    }
  }

  /** A route is in the tree if and only if it is a non-empty prefix of some path, and the first such path
      decides on its kind. */
  lemma {:induction false} BuiltKind(nodes: seq<FlatNode>, names: seq<string>)
    ensures Kind(Built(nodes), names) == FirstKind(nodes, names)
  {
    if nodes != [] {
      var n := |nodes| - 1;
      BuiltKind(nodes[..n], names);
      InsertKind(Built(nodes[..n]), [], Segments(nodes[n].path), nodes[n].isDirectory, names);
    }
  }

  lemma {:induction false} FirstKindFrom(nodes: seq<FlatNode>, names: seq<string>) returns (k: nat)
    requires FirstKind(nodes, names).Some?
    ensures names != [] && k < |nodes| && names <= Segments(nodes[k].path)
  {
    var n := |nodes| - 1;
    if FirstKind(nodes[..n], names).Some? {
      k := FirstKindFrom(nodes[..n], names);
    } else {
      k := n;
    }
  }

  lemma {:induction false} FirstKindComes(nodes: seq<FlatNode>, names: seq<string>, k: nat)
    requires names != [] && k < |nodes| && names <= Segments(nodes[k].path)
    ensures FirstKind(nodes, names).Some?
  {
    var n := |nodes| - 1;
    if k < n {
      FirstKindComes(nodes[..n], names, k);
    }
  }

  lemma FirstKindExists(nodes: seq<FlatNode>, names: seq<string>)
    ensures FirstKind(nodes, names).Some? <==> names != [] && exists k | 0 <= k < |nodes| :: names <= Segments(nodes[k].path)
  {
    if FirstKind(nodes, names).Some? {
      var k := FirstKindFrom(nodes, names);
    } else {
      forall k | 0 <= k < |nodes| && names <= Segments(nodes[k].path)
        ensures names == []
      {
        if names != [] {
          FirstKindComes(nodes, names, k);
        }
      }
    }
  }

  // ---------------------------------------------------------------------------------------------
  // Names and full paths

  ghost predicate UniqueNames(level: seq<TreeNode>) {
    forall i, j | 0 <= i < j < |level| :: level[i].name != level[j].name
  }

  /** Siblings have different names, and every full path is the names on the way joined. */
  ghost predicate WellNamed(level: seq<TreeNode>, route: seq<string>)
    decreases level
  {
    UniqueNames(level) &&
    forall k | 0 <= k < |level| ::
      level[k].fullPath == Join(route + [level[k].name]) && WellNamed(level[k].children, route + [level[k].name])
  }

  lemma {:induction false} InsertKeepsNames(level: seq<TreeNode>, route: seq<string>, parts: seq<string>, isDirectory: bool)
    requires WellNamed(level, route)
    ensures WellNamed(Insert(level, route, parts, isDirectory), route)
    decreases |parts|
  {
    if parts != [] {
      var j, here := IndexOf(level, parts[0]), route + [parts[0]];
      if |parts| > 1 {
        InsertKeepsNames(if j == |level| then [] else level[j].children, here, parts[1..], isDirectory);
      }
    }
  }

  lemma {:induction false} BuiltIsWellNamed(nodes: seq<FlatNode>)
    ensures WellNamed(Built(nodes), [])
  {
    if nodes != [] {
      var n := |nodes| - 1;
      BuiltIsWellNamed(nodes[..n]);
      InsertKeepsNames(Built(nodes[..n]), [], Segments(nodes[n].path), nodes[n].isDirectory);
    }
  }

  // ---------------------------------------------------------------------------------------------
  // Sorting

  /** localeCompare. */
  type Compare = (string, string) -> int

  ghost predicate IsOrder(compare: Compare) {
    && (forall a, b :: compare(a, b) <= 0 || compare(b, a) <= 0)
    && (forall a, b :: compare(a, b) < 0 ==> compare(b, a) > 0)
    && (forall a, b, c :: compare(a, b) <= 0 && compare(b, c) <= 0 ==> compare(a, c) <= 0)
  }

  /** Directories come first, then names decide. */
  predicate NotBehind(compare: Compare, a: TreeNode, b: TreeNode) {
    if a.isDirectory != b.isDirectory then a.isDirectory else compare(a.name, b.name) <= 0
  }

  function Place(compare: Compare, sorted: seq<TreeNode>, x: TreeNode): (r: seq<TreeNode>)
    ensures |r| == |sorted| + 1 && forall y :: y in r <==> y == x || y in sorted
    decreases |sorted|
  {
    var n := |sorted|;
    if n == 0 || NotBehind(compare, sorted[n - 1], x) then sorted + [x]
    else
      assert sorted == sorted[..n - 1] + [sorted[n - 1]];
      Place(compare, sorted[..n - 1], x) + [sorted[n - 1]]
  }

  /** A stable sort. */
  function Sort(compare: Compare, level: seq<TreeNode>): (r: seq<TreeNode>)
    ensures |r| == |level| && forall y :: y in r <==> y in level
  {
    if level == [] then []
    else
      var n := |level| - 1;
      assert level == level[..n] + [level[n]];
      Place(compare, Sort(compare, level[..n]), level[n])
  }

  /** Children are sorted before their level here, which comes to the same (LevelFirst). */
  function SortNodes(compare: Compare, level: seq<TreeNode>): seq<TreeNode>
    decreases level
  {
    Sort(compare, Inside(compare, level))
  }

  function Inside(compare: Compare, level: seq<TreeNode>): (r: seq<TreeNode>)
    ensures |r| == |level|
    ensures forall k | 0 <= k < |r| :: r[k] == level[k].(children := SortNodes(compare, level[k].children))
    decreases level, 0
  {
    seq(|level|, k requires 0 <= k < |level| => level[k].(children := SortNodes(compare, level[k].children)))
  }

  function Mapped(f: TreeNode -> TreeNode, level: seq<TreeNode>): (r: seq<TreeNode>)
    ensures |r| == |level| && forall k | 0 <= k < |r| :: r[k] == f(level[k])
  {
    seq(|level|, k requires 0 <= k < |level| => f(level[k]))
  }

  /** Names and kinds stay. */
  ghost predicate KeepsLabels(f: TreeNode -> TreeNode) {
    forall n :: f(n).name == n.name && f(n).isDirectory == n.isDirectory
  }

  lemma {:induction false} PlaceMapped(compare: Compare, f: TreeNode -> TreeNode, sorted: seq<TreeNode>, x: TreeNode)
    requires KeepsLabels(f)
    ensures Place(compare, Mapped(f, sorted), f(x)) == Mapped(f, Place(compare, sorted, x))
    decreases |sorted|
  {
    var n := |sorted|;
    if n > 0 && !NotBehind(compare, sorted[n - 1], x) {
      PlaceMapped(compare, f, sorted[..n - 1], x);
      assert Mapped(f, sorted)[..n - 1] == Mapped(f, sorted[..n - 1]);
    }
  }

  lemma {:induction false} SortMapped(compare: Compare, f: TreeNode -> TreeNode, level: seq<TreeNode>)
    requires KeepsLabels(f)
    ensures Sort(compare, Mapped(f, level)) == Mapped(f, Sort(compare, level))
    decreases |level|
  {
    if level != [] {
      var n := |level| - 1;
      SortMapped(compare, f, level[..n]);
      assert Mapped(f, level)[..n] == Mapped(f, level[..n]);
      PlaceMapped(compare, f, Sort(compare, level[..n]), level[n]);
    }
  }

  /** Sorting a level and then the children of its nodes comes to the same. */
  lemma LevelFirst(compare: Compare, level: seq<TreeNode>)
    ensures Inside(compare, Sort(compare, level)) == SortNodes(compare, level)
  {
    var f := (n: TreeNode) => n.(children := SortNodes(compare, n.children));
    SortMapped(compare, f, level);
    assert Mapped(f, level) == Inside(compare, level);
    assert Mapped(f, Sort(compare, level)) == Inside(compare, Sort(compare, level));
  }

  lemma {:induction false} PlaceKeepsUnique(compare: Compare, sorted: seq<TreeNode>, x: TreeNode)
    requires UniqueNames(sorted) && forall y :: y in sorted ==> y.name != x.name
    ensures UniqueNames(Place(compare, sorted, x))
    decreases |sorted|
  {
    var n := |sorted|;
    if n > 0 && !NotBehind(compare, sorted[n - 1], x) {
      PlaceKeepsUnique(compare, sorted[..n - 1], x);
      var front := Place(compare, sorted[..n - 1], x);
      forall i | 0 <= i < n
        ensures front[i].name != sorted[n - 1].name
      {
        assert front[i] in front;
      }
    }
  }

  lemma {:induction false} SortKeepsUnique(compare: Compare, level: seq<TreeNode>)
    requires UniqueNames(level)
    ensures UniqueNames(Sort(compare, level))
  {
    if level != [] {
      var n := |level| - 1;
      SortKeepsUnique(compare, level[..n]);
      PlaceKeepsUnique(compare, Sort(compare, level[..n]), level[n]);
    }
  }

  lemma FoundInBoth(a: seq<TreeNode>, b: seq<TreeNode>, name: string)
    requires UniqueNames(b) && (forall y :: y in a ==> y in b) && IndexOf(a, name) < |a|
    ensures IndexOf(b, name) < |b| && b[IndexOf(b, name)] == a[IndexOf(a, name)]
  {
    var i := IndexOf(a, name);
    assert a[i] in b;
    var k :| 0 <= k < |b| && b[k] == a[i];
    IndexIs(b, name, k);
  }

  /** The same nodes in another order: every route leads to the same node. */
  lemma OrderIsIrrelevant(a: seq<TreeNode>, b: seq<TreeNode>, names: seq<string>)
    requires UniqueNames(a) && UniqueNames(b) && forall y :: y in a <==> y in b
    ensures Kind(a, names) == Kind(b, names)
  {
    if names != [] && IndexOf(a, names[0]) < |a| {
      FoundInBoth(a, b, names[0]);
    } else if names != [] && IndexOf(b, names[0]) < |b| {
      FoundInBoth(b, a, names[0]);
    }
  }

  lemma {:induction false} SameNamesSameIndex(a: seq<TreeNode>, b: seq<TreeNode>, name: string)
    requires |a| == |b| && forall k | 0 <= k < |a| :: a[k].name == b[k].name
    ensures IndexOf(a, name) == IndexOf(b, name)
  {
    var i := IndexOf(a, name);
    if i < |a| {
      IndexIs(b, name, i);
    }
  }

  /** Sorting every level keeps every route and its kind. */
  lemma {:induction false} SortKeepsKind(compare: Compare, level: seq<TreeNode>, route: seq<string>, names: seq<string>)
    requires WellNamed(level, route)
    ensures Kind(SortNodes(compare, level), names) == Kind(level, names)
    decreases |names|
  {
    var inner := Inside(compare, level);
    SortKeepsUnique(compare, inner);
    OrderIsIrrelevant(Sort(compare, inner), inner, names);
    if names != [] {
      SameNamesSameIndex(inner, level, names[0]);
      var i := IndexOf(level, names[0]);
      if i < |level| && |names| > 1 {
        SortKeepsKind(compare, level[i].children, route + [level[i].name], names[1..]);
      }
    }
  }

  lemma {:induction false} SortKeepsNames(compare: Compare, level: seq<TreeNode>, route: seq<string>)
    requires WellNamed(level, route)
    ensures WellNamed(SortNodes(compare, level), route)
    decreases level
  {
    var inner := Inside(compare, level);
    var r := Sort(compare, inner);
    SortKeepsUnique(compare, inner);
    forall k | 0 <= k < |r|
      ensures r[k].fullPath == Join(route + [r[k].name]) && WellNamed(r[k].children, route + [r[k].name])
    {
      assert r[k] in inner;
      var i :| 0 <= i < |inner| && inner[i] == r[k];
      SortKeepsNames(compare, level[i].children, route + [level[i].name]);
    }
  }

  ghost predicate Ascending(compare: Compare, level: seq<TreeNode>) {
    forall i, j | 0 <= i < j < |level| :: NotBehind(compare, level[i], level[j])
  }

  /** Directories in front, and each kind by name. */
  ghost predicate InOrder(compare: Compare, level: seq<TreeNode>) {
    forall i, j | 0 <= i < j < |level| ::
      if level[i].isDirectory == level[j].isDirectory then compare(level[i].name, level[j].name) <= 0 else level[i].isDirectory
  }

  ghost predicate AllInOrder(compare: Compare, level: seq<TreeNode>)
    decreases level
  {
    InOrder(compare, level) && forall k | 0 <= k < |level| :: AllInOrder(compare, level[k].children)
  }

  lemma NotBehindIsOrder(compare: Compare, a: TreeNode, b: TreeNode, c: TreeNode)
    requires IsOrder(compare)
    ensures NotBehind(compare, a, b) || NotBehind(compare, b, a)
    ensures NotBehind(compare, a, b) && NotBehind(compare, b, c) ==> NotBehind(compare, a, c)
  {
    assert compare(a.name, b.name) <= 0 || compare(b.name, a.name) <= 0;
    assert compare(a.name, b.name) <= 0 && compare(b.name, c.name) <= 0 ==> compare(a.name, c.name) <= 0;
  }

  lemma {:induction false} PlaceKeepsOrder(compare: Compare, sorted: seq<TreeNode>, x: TreeNode)
    requires IsOrder(compare) && Ascending(compare, sorted)
    ensures Ascending(compare, Place(compare, sorted, x))
    decreases |sorted|
  {
    var n := |sorted|;
    if n == 0 {
    } else if NotBehind(compare, sorted[n - 1], x) {
      forall i | 0 <= i < n
        ensures NotBehind(compare, sorted[i], x)
      {
        NotBehindIsOrder(compare, sorted[i], sorted[n - 1], x);
      }
    } else {
      var last := sorted[n - 1];
      PlaceKeepsOrder(compare, sorted[..n - 1], x);
      NotBehindIsOrder(compare, last, x, x);
      var front := Place(compare, sorted[..n - 1], x);
      forall i | 0 <= i < n
        ensures NotBehind(compare, front[i], last)
      {
        assert front[i] in front;
      }
    }
  }

  lemma {:induction false} SortIsInOrder(compare: Compare, level: seq<TreeNode>)
    requires IsOrder(compare)
    ensures Ascending(compare, Sort(compare, level))
  {
    if level != [] {
      var n := |level| - 1;
      SortIsInOrder(compare, level[..n]);
      PlaceKeepsOrder(compare, Sort(compare, level[..n]), level[n]);
    }
  }

  ghost predicate ComesBefore(level: seq<TreeNode>, a: TreeNode, b: TreeNode) {
    exists i, j :: 0 <= i < j < |level| && level[i] == a && level[j] == b
  }

  lemma {:induction false} PlaceComesBehind(compare: Compare, sorted: seq<TreeNode>, x: TreeNode, k: nat)
    requires k < |sorted| && NotBehind(compare, sorted[k], x)
    ensures ComesBefore(Place(compare, sorted, x), sorted[k], x)
    decreases |sorted|
  {
    var n, r := |sorted|, Place(compare, sorted, x);
    if NotBehind(compare, sorted[n - 1], x) {
      assert r[k] == sorted[k] && r[n] == x;
    } else {
      PlaceComesBehind(compare, sorted[..n - 1], x, k);
      ComesBeforeInMore(Place(compare, sorted[..n - 1], x), [sorted[n - 1]], sorted[k], x);
    }
  }

  lemma ComesBeforeInMore(level: seq<TreeNode>, more: seq<TreeNode>, a: TreeNode, b: TreeNode)
    requires ComesBefore(level, a, b)
    ensures ComesBefore(level + more, a, b)
  {
    var i, j :| 0 <= i < j < |level| && level[i] == a && level[j] == b;
    assert (level + more)[i] == a && (level + more)[j] == b;
  }

  lemma {:induction false} PlaceKeepsBefore(compare: Compare, sorted: seq<TreeNode>, x: TreeNode, i: nat, j: nat)
    requires i < j < |sorted|
    ensures ComesBefore(Place(compare, sorted, x), sorted[i], sorted[j])
    decreases |sorted|
  {
    var n, r := |sorted|, Place(compare, sorted, x);
    if NotBehind(compare, sorted[n - 1], x) {
      assert r[i] == sorted[i] && r[j] == sorted[j];
    } else if j < n - 1 {
      PlaceKeepsBefore(compare, sorted[..n - 1], x, i, j);
      ComesBeforeInMore(Place(compare, sorted[..n - 1], x), [sorted[n - 1]], sorted[i], sorted[j]);
    } else {
      var front := Place(compare, sorted[..n - 1], x);
      assert sorted[i] == sorted[..n - 1][i] && sorted[i] in front;
      var k :| 0 <= k < |front| && front[k] == sorted[i];
      assert r[k] == sorted[i] && r[n] == sorted[j];
    }
  }

  /** The sort is stable: of two nodes the earlier one stays in front unless the order puts it behind. */
  lemma {:induction false} SortIsStable(compare: Compare, level: seq<TreeNode>, i: nat, j: nat)
    requires i < j < |level|
    requires if level[i].isDirectory == level[j].isDirectory then compare(level[i].name, level[j].name) <= 0
             else level[i].isDirectory
    ensures ComesBefore(Sort(compare, level), level[i], level[j])
    decreases |level|
  {
    var n := |level| - 1;
    var sorted := Sort(compare, level[..n]);
    if j < n {
      SortIsStable(compare, level[..n], i, j);
      var k, l :| 0 <= k < l < |sorted| && sorted[k] == level[i] && sorted[l] == level[j];
      PlaceKeepsBefore(compare, sorted, level[n], k, l);
    } else {
      assert level[i] == level[..n][i] && level[i] in sorted;
      var k :| 0 <= k < |sorted| && sorted[k] == level[i];
      PlaceComesBehind(compare, sorted, level[n], k);
    }
  }

  lemma {:induction false} SortNodesIsInOrder(compare: Compare, level: seq<TreeNode>)
    requires IsOrder(compare)
    ensures AllInOrder(compare, SortNodes(compare, level))
    decreases level
  {
    var inner := Inside(compare, level);
    var r := Sort(compare, inner);
    SortIsInOrder(compare, inner);
    forall k | 0 <= k < |r|
      ensures AllInOrder(compare, r[k].children)
    {
      assert r[k] in inner;
      var i :| 0 <= i < |inner| && inner[i] == r[k];
      SortNodesIsInOrder(compare, level[i].children);
    }
  }

  // ---------------------------------------------------------------------------------------------
  // The whole

  /** The routes of the tree are exactly the non-empty segment prefixes of the paths, each with the kind the
      first path through it gives; names are unique among siblings, full paths are the names joined, and
      every level is in order. */
  lemma TreeOfPaths(nodes: seq<FlatNode>, compare: Compare, names: seq<string>)
    requires IsOrder(compare)
    ensures Kind(SortNodes(compare, Built(nodes)), names) == FirstKind(nodes, names)
    ensures Kind(SortNodes(compare, Built(nodes)), names).Some?
       <==> names != [] && exists k | 0 <= k < |nodes| :: names <= Segments(nodes[k].path)
    ensures WellNamed(SortNodes(compare, Built(nodes)), [])
    ensures AllInOrder(compare, SortNodes(compare, Built(nodes)))
  {
    BuiltIsWellNamed(nodes);
    SortKeepsKind(compare, Built(nodes), [], names);
    SortKeepsNames(compare, Built(nodes), []);
    SortNodesIsInOrder(compare, Built(nodes));
    BuiltKind(nodes, names);
    FirstKindExists(nodes, names);
  }

  /** Every full path occurs once: two routes in the tree with the same full path are the same route. */
  lemma FullPathsAreDistinct(nodes: seq<FlatNode>, a: seq<string>, b: seq<string>)
    requires Kind(Built(nodes), a).Some? && Kind(Built(nodes), b).Some? && Join(a) == Join(b)
    ensures a == b
  {
    RouteIsNames(nodes, a);
    RouteIsNames(nodes, b);
    SegmentsOfJoin(a);
    SegmentsOfJoin(b);
  }

  lemma RouteIsNames(nodes: seq<FlatNode>, names: seq<string>)
    requires Kind(Built(nodes), names).Some?
    ensures AreNames(names)
  {
    BuiltKind(nodes, names);
    FirstKindExists(nodes, names);
    var k :| 0 <= k < |nodes| && names <= Segments(nodes[k].path);
    SegmentsAreNames(nodes[k].path);
  }
}
