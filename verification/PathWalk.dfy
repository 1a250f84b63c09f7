/** Building the file tree in place: arrays of children that entries refer to, walked and appended to. */
module PathWalk {
  import opened PathTree

  /** A node under construction; `children` is the number of its array of children. */
  datatype Entry = Entry(name: string, fullPath: string, isDirectory: bool, children: nat)

  /** All arrays of children, by number; number 0 is the top level. */
  type Store = seq<seq<Entry>>

  // ---------------------------------------------------------------------------------------------
  // The shape of the store

  /** Entries refer to arrays made after their own. */
  ghost predicate Ordered(s: Store) {
    forall c, k | 0 <= c < |s| && 0 <= k < |s[c]| :: c < s[c][k].children < |s|
  }

  /** No two entries share an array of children. */
  ghost predicate Owned(s: Store) {
    forall c, k, d, l | 0 <= c < |s| && 0 <= k < |s[c]| && 0 <= d < |s| && 0 <= l < |s[d]| && s[c][k].children == s[d][l].children ::
      c == d && k == l
  }

  ghost predicate Sound(s: Store) { Ordered(s) && Owned(s) }

  /** Array `m` belongs to the subtree of array `d`. */
  ghost predicate Reaches(s: Store, d: nat, m: nat)
    requires Ordered(s) && d < |s|
    decreases |s| - d
  {
    d == m || exists k :: 0 <= k < |s[d]| && Reaches(s, s[d][k].children, m)
  }

  /** The level that array `d` stands for. */
  ghost function Level(s: Store, d: nat): (r: seq<TreeNode>)
    requires Ordered(s) && d < |s|
    ensures |r| == |s[d]|
    decreases |s| - d
  {
    seq(|s[d]|, k requires 0 <= k < |s[d]| => NodeOf(s, d, k))
  }

  ghost function NodeOf(s: Store, d: nat, k: nat): TreeNode
    requires Ordered(s) && d < |s| && k < |s[d]|
    decreases |s| - d, 0
  {
    var e := s[d][k];
    TreeNode(e.name, e.fullPath, e.isDirectory, Level(s, e.children))
  }

  lemma {:induction false} ReachesForward(s: Store, d: nat, m: nat)
    requires Ordered(s) && d < |s| && Reaches(s, d, m)
    ensures d <= m < |s|
    decreases |s| - d
  {
    if d != m {
      var k :| 0 <= k < |s[d]| && Reaches(s, s[d][k].children, m);
      ReachesForward(s, s[d][k].children, m);
    }
  }

  /** Whatever reaches an array that is not itself reaches the one array whose entry refers to it. */
  lemma {:induction false} ReachesOwner(s: Store, d: nat, c: nat, k: nat)
    requires Sound(s) && d < |s| && c < |s| && k < |s[c]| && d != s[c][k].children && Reaches(s, d, s[c][k].children)
    ensures Reaches(s, d, c)
    decreases |s| - d
  {
    var m := s[c][k].children;
    var l :| 0 <= l < |s[d]| && Reaches(s, s[d][l].children, m);
    if s[d][l].children != m {
      ReachesOwner(s, s[d][l].children, c, k);
    }
  }

  lemma {:induction false} OwnerExists(s: Store, d: nat, m: nat) returns (c: nat, k: nat)
    requires Sound(s) && d < |s| && d != m && Reaches(s, d, m)
    ensures c < |s| && k < |s[c]| && s[c][k].children == m
    decreases |s| - d
  {
    var l :| 0 <= l < |s[d]| && Reaches(s, s[d][l].children, m);
    if s[d][l].children == m {
      c, k := d, l;
    } else {
      c, k := OwnerExists(s, s[d][l].children, m);
    }
  }

  /** The subtrees of two entries of an array are apart. */
  lemma {:induction false} SiblingsAreApart(s: Store, c: nat, j: nat, k: nat, m: nat)
    requires Sound(s) && c < |s| && j < |s[c]| && k < |s[c]| && j != k && Reaches(s, s[c][j].children, m)
    ensures !Reaches(s, s[c][k].children, m)
    decreases m
  {
    var a, b := s[c][j].children, s[c][k].children;
    if Reaches(s, b, m) {
      if m == a {
        ReachesOwner(s, b, c, j);
        ReachesForward(s, b, c);
        assert false;
      } else if m == b {
        ReachesOwner(s, a, c, k);
        ReachesForward(s, a, c);
        assert false;
      } else {
        var d, l := OwnerExists(s, a, m);
        ReachesOwner(s, a, d, l);
        ReachesOwner(s, b, d, l);
        SiblingsAreApart(s, c, j, k, d);
        assert false;
      }
    }
  }

  /** Only array `m` differs, and arrays were added. */
  ghost predicate ChangedAt(s: Store, u: Store, m: nat) {
    |s| <= |u| && forall x | 0 <= x < |s| && x != m :: u[x] == s[x]
  }

  lemma {:induction false} LevelStays(s: Store, u: Store, d: nat, m: nat)
    requires Ordered(s) && Ordered(u) && d < |s| && ChangedAt(s, u, m) && !Reaches(s, d, m)
    ensures Level(u, d) == Level(s, d)
    decreases |s| - d
  {
    forall k | 0 <= k < |s[d]|
      ensures NodeOf(u, d, k) == NodeOf(s, d, k)
    {
      LevelStays(s, u, s[d][k].children, m);
    }
  }

  // ---------------------------------------------------------------------------------------------
  // Walking a path

  function Find(entries: seq<Entry>, name: string): (j: nat)
    ensures j <= |entries| && (j < |entries| ==> entries[j].name == name)
    ensures forall k | 0 <= k < j :: entries[k].name != name
  {
    if entries == [] || entries[0].name == name then 0 else 1 + Find(entries[1..], name)
  }

  /** A new entry at the end of array `c`, with a new array of children. */
  function Pushed(s: Store, c: nat, name: string, fullPath: string, isDirectory: bool): (r: Store)
    requires c < |s|
    ensures |r| == |s| + 1
  {
    s[c := s[c] + [Entry(name, fullPath, isDirectory, |s|)]] + [[]]
  }

  /** One segment of a path: the entry for it is there, or is pushed. */
  function Visited(s: Store, c: nat, route: seq<string>, part: string, isDirectory: bool): (r: Store)
    requires c < |s|
    ensures |r| >= |s| && Find(s[c], part) < |r[c]|
  {
    if Find(s[c], part) < |s[c]| then s else Pushed(s, c, part, Join(route + [part]), isDirectory)
  }

  lemma PushedIsSound(s: Store, c: nat, name: string, fullPath: string, isDirectory: bool)
    requires Sound(s) && c < |s|
    ensures Sound(Pushed(s, c, name, fullPath, isDirectory))
  {
    var u: Store := Pushed(s, c, name, fullPath, isDirectory);
    forall d, k | 0 <= d < |u| && 0 <= k < |u[d]|
      ensures d < u[d][k].children < |u|
      ensures if d == c && k == |s[c]| then u[d][k].children == |s| else d < |s| && k < |s[d]| && u[d][k] == s[d][k]
    {
    }
  }

  lemma VisitedIsSound(s: Store, c: nat, route: seq<string>, part: string, isDirectory: bool)
    requires Sound(s) && c < |s|
    ensures Sound(Visited(s, c, route, part, isDirectory)) && ChangedAt(s, Visited(s, c, route, part, isDirectory), c)
  {
    PushedIsSound(s, c, part, Join(route + [part]), isDirectory);
  }

  /** The store after the rest of a path is walked from array `c` on. */
  ghost function Added(s: Store, c: nat, route: seq<string>, parts: seq<string>, isDirectory: bool): Store
    requires Sound(s) && c < |s|
    decreases |parts|
  {
    if parts == [] then s
    else
      var last, j := |parts| == 1, Find(s[c], parts[0]);
      var u := Visited(s, c, route, parts[0], if last then isDirectory else true);
      VisitedIsSound(s, c, route, parts[0], if last then isDirectory else true);
      if last then u else Added(u, u[c][j].children, route + [parts[0]], parts[1..], isDirectory)
  }

  // ---------------------------------------------------------------------------------------------
  // Walking is inserting

  lemma FindIsIndex(s: Store, c: nat, name: string)
    requires Ordered(s) && c < |s|
    ensures IndexOf(Level(s, c), name) == Find(s[c], name)
  {
    var j := Find(s[c], name);
    assert forall k | 0 <= k < |s[c]| :: Level(s, c)[k].name == s[c][k].name;
    if j < |s[c]| {
      IndexIs(Level(s, c), name, j);
    }
  }

  /** Pushing an entry adds an empty node behind the others. */
  lemma PushedLevel(s: Store, c: nat, name: string, fullPath: string, isDirectory: bool)
    requires Sound(s) && c < |s|
    ensures Sound(Pushed(s, c, name, fullPath, isDirectory))
    ensures Level(Pushed(s, c, name, fullPath, isDirectory), c) == Level(s, c) + [TreeNode(name, fullPath, isDirectory, [])]
    ensures Level(Pushed(s, c, name, fullPath, isDirectory), |s|) == []
  {
    var u := Pushed(s, c, name, fullPath, isDirectory);
    PushedIsSound(s, c, name, fullPath, isDirectory);
    forall k | 0 <= k < |s[c]|
      ensures NodeOf(u, c, k) == NodeOf(s, c, k)
    {
      if Reaches(s, s[c][k].children, c) {
        ReachesForward(s, s[c][k].children, c);
      }
      LevelStays(s, u, s[c][k].children, c);
    }
    assert u[c][|s[c]|] == Entry(name, fullPath, isDirectory, |s|);
  }

  /** A change in the subtree of entry `j` shows in that entry only. */
  lemma ChildLevel(s: Store, u: Store, c: nat, j: nat, m: nat)
    requires Sound(s) && Sound(u) && c < |s| && j < |s[c]|
    requires Reaches(s, s[c][j].children, m) && ChangedAt(s, u, m)
    ensures Level(u, c) == Level(s, c)[j := Level(s, c)[j].(children := Level(u, s[c][j].children))]
  {
    ReachesForward(s, s[c][j].children, m);
    assert u[c] == s[c];
    forall k | 0 <= k < |s[c]| && k != j
      ensures NodeOf(u, c, k) == NodeOf(s, c, k)
    {
      SiblingsAreApart(s, c, j, k, m);
      LevelStays(s, u, s[c][k].children, m);
    }
  }

  /** Walking a path changes one array at most, and does to the level what inserting the path does. */
  lemma {:induction false} AddedIsInsert(s: Store, c: nat, route: seq<string>, parts: seq<string>, isDirectory: bool) returns (m: nat)
    requires Sound(s) && c < |s|
    ensures var u := Added(s, c, route, parts, isDirectory);
            Sound(u) && Reaches(s, c, m) && ChangedAt(s, u, m) && Level(u, c) == Insert(Level(s, c), route, parts, isDirectory)
    decreases |parts|
  {
    m := c;
    if parts != [] {
      var last, j, here := |parts| == 1, Find(s[c], parts[0]), route + [parts[0]];
      FindIsIndex(s, c, parts[0]);
      if j == |s[c]| {
        AddedAtNew(s, c, route, parts, isDirectory);
      } else if !last {
        var a := s[c][j].children;
        m := AddedIsInsert(s, a, here, parts[1..], isDirectory);
        ChildLevel(s, Added(s, a, here, parts[1..], isDirectory), c, j, m);
      }
    }
  }

  /** The rest of a path whose next segment is new. */
  lemma {:induction false} AddedAtNew(s: Store, c: nat, route: seq<string>, parts: seq<string>, isDirectory: bool)
    requires Sound(s) && c < |s| && parts != [] && Find(s[c], parts[0]) == |s[c]|
    ensures var u := Added(s, c, route, parts, isDirectory);
            Sound(u) && ChangedAt(s, u, c) && Level(u, c) == Insert(Level(s, c), route, parts, isDirectory)
    decreases |parts|, 0
  {
    var last, here, n := |parts| == 1, route + [parts[0]], |s|;
    var kind := if last then isDirectory else true;
    var u := Pushed(s, c, parts[0], Join(here), kind);
    PushedLevel(s, c, parts[0], Join(here), kind);
    FindIsIndex(s, c, parts[0]);
    if !last {
      var m := AddedIsInsert(u, n, here, parts[1..], isDirectory);
      ReachesForward(u, n, m);
      ChildLevel(u, Added(u, n, here, parts[1..], isDirectory), c, |s[c]|, m);
    }
  }

  // ---------------------------------------------------------------------------------------------
  // The walk

  class Builder {
    var lists: Store

    ghost predicate Valid()
      reads this
    {
      |lists| > 0 && Sound(lists)
    }

    ghost function Root(): seq<TreeNode>
      reads this
      requires Valid()
    {
      Level(lists, 0)
    }

    constructor ()
      ensures Valid() && Root() == []
    {
      lists := [[]];
    }

    /** The entry for a segment: found, or made and pushed. */
    method Visit(current: nat, route: seq<string>, part: string, isDirectory: bool) returns (existing: Entry)
      requires Valid() && current < |lists|
      modifies this
      ensures Valid() && lists == Visited(old(lists), current, route, part, isDirectory)
      ensures existing == lists[current][Find(old(lists)[current], part)]
    {
      VisitedIsSound(lists, current, route, part, isDirectory);
      var j := Find(lists[current], part);
      if j == |lists[current]| {
        lists := Pushed(lists, current, part, Join(route + [part]), isDirectory);
      }
      existing := lists[current][j];
    }

    /** One segment of a path. */
    method Step(current: nat, parts: seq<string>, i: nat, isDirectory: bool) returns (next: nat)
      requires Valid() && current < |lists| && i < |parts|
      modifies this
      ensures Valid() && next < |lists|
      ensures Added(lists, next, parts[..i + 1], parts[i + 1..], isDirectory)
           == Added(old(lists), current, parts[..i], parts[i..], isDirectory)
    {
      var last := i == |parts| - 1;
      assert parts[i..][1..] == parts[i + 1..] && parts[..i] + [parts[i]] == parts[..i + 1];
      var existing := Visit(current, parts[..i], parts[i], if last then isDirectory else true);
      next := if last then current else existing.children;
    }

    /** Walks a path from the top. */
    method Walk(parts: seq<string>, isDirectory: bool)
      requires Valid()
      modifies this
      ensures Valid() && lists == Added(old(lists), 0, [], parts, isDirectory)
    {
      var current: nat := 0;
      assert parts[..0] == [] && parts[0..] == parts;
      for i := 0 to |parts|
        invariant Valid() && current < |lists|
        invariant Added(lists, current, parts[..i], parts[i..], isDirectory) == Added(old(lists), 0, [], parts, isDirectory)
      {
        current := Step(current, parts, i, isDirectory);
      }
      assert parts[|parts|..] == [];
    }

    /** Makes what is missing of a path. */
    method AddPath(parts: seq<string>, isDirectory: bool)
      requires Valid()
      modifies this
      ensures Valid() && Root() == Insert(old(Root()), [], parts, isDirectory)
    {
      var _ := AddedIsInsert(lists, 0, [], parts, isDirectory);
      Walk(parts, isDirectory);
    }

    /** Reads a level out, with every level below it sorted. */
    method Sorted(d: nat, compare: Compare) returns (level: seq<TreeNode>)
      requires Valid() && d < |lists|
      ensures level == SortNodes(compare, Level(lists, d))
      decreases |lists| - d
    {
      level := [];
      for k := 0 to |lists[d]|
        invariant level == Inside(compare, Level(lists, d))[..k]
      {
        var e := lists[d][k];
        var children := Sorted(e.children, compare);
        level := level + [TreeNode(e.name, e.fullPath, e.isDirectory, children)];
      }
      assert level == Inside(compare, Level(lists, d));
      level := Sort(compare, level);
    }
  }

  /** The whole tree: every path is walked, and every level sorted. */
  method BuildTree(nodes: seq<FlatNode>, compare: Compare) returns (tree: seq<TreeNode>)
    ensures tree == SortNodes(compare, Built(nodes))
  {
    var builder := new Builder();
    for i := 0 to |nodes|
      invariant builder.Valid() && builder.Root() == Built(nodes[..i])
    {
      assert nodes[..i + 1][..i] == nodes[..i];
      builder.AddPath(Segments(nodes[i].path), nodes[i].isDirectory);
    }
    assert nodes[..|nodes|] == nodes;
    tree := builder.Sorted(0, compare);
  }
}
