/**
 * The second half of `build_file_tree`: the created nodes are attached below
 * their parents in sorted key order, the siblings are sorted by
 * `sort_nodes`, and a sole directory root is expanded. The result is
 * described node by node (`TreeOk`): every node is the one created for its
 * key, and every child sits below the node of its parent key.
 */
module ZipTree {
  import opened Text
  import Seqs
  import opened Order
  import opened FileTree
  import opened ZipPreview

  /** The keys the second loop creates nodes for are prefixes of component lists. */
  lemma {:induction false} PrefixKeysMember(parts: seq<string>, i: nat, k: string) returns (m: nat)
    requires i <= |parts| && k in PrefixKeys(parts, i)
    ensures 1 <= m <= i && k == JoinedPrefix(parts, m)
    decreases i
  {
    if k == JoinedPrefix(parts, i) {
      m := i;
    } else {
      m := PrefixKeysMember(parts, i - 1, k);
    }
  }

  lemma {:induction false} PrefixKeysHas(parts: seq<string>, i: nat, m: nat)
    requires 1 <= m <= i <= |parts|
    ensures JoinedPrefix(parts, m) in PrefixKeys(parts, i)
    decreases i
  {
    if m < i {
      PrefixKeysHas(parts, i - 1, m);
    }
  }

  /** A key extended by `\` and a component has the key as a proper prefix. */
  lemma ProperPrefix(a: string, b: string)
    ensures a < a + "\\" + b
  {
    assert (a + "\\" + b)[..|a|] == a;
  }

  /** The parent of the prefix of `m` components is the prefix of `m - 1`, and sorts before it. */
  lemma ParentOfPrefix(parts: seq<string>, m: nat)
    requires Clean(parts) && 1 <= m <= |parts|
    ensures |Split(JoinedPrefix(parts, m), '\\')| == m
    ensures m >= 2 ==> ParentPath(JoinedPrefix(parts, m)) == JoinedPrefix(parts, m - 1)
    ensures m >= 2 ==> JoinedPrefix(parts, m - 1) < JoinedPrefix(parts, m)
  {
    SplitJoinedPrefix(parts, m);
    if m >= 2 {
      Seqs.PrefixOfPrefix(parts, m, m - 1);
      JoinedPrefixStep(parts, m - 1);
      ProperPrefix(JoinedPrefix(parts, m - 1), parts[m - 1]);
    }
  }

  /** The parent of a key one path contributes is a key and a directory prefix of the same path. */
  lemma KeyParentOf(path: string, k: string)
    requires k in KeysOf(path) && |Split(k, '\\')| >= 2
    ensures ParentPath(k) in KeysOf(path) && ParentPath(k) in DirsOf(path)
    ensures ParentPath(k) < k
  {
    var parts := Components(path);
    var m := PrefixKeysMember(parts, |parts|, k);
    CleanAll(parts);
    ParentOfPrefix(parts, m);
    PrefixKeysHas(parts, |parts|, m - 1);
    NonLastPrefixIsDir(path, m - 2);
  }

  /**
   * Every key with two or more components has its parent key among the keys;
   * the parent is a directory prefix and a proper prefix of the key, so it
   * sorts first.
   */
  lemma {:induction false} KeyParent(paths: seq<string>, k: string)
    requires k in Keys(paths) && |Split(k, '\\')| >= 2
    ensures ParentPath(k) in Keys(paths) && ParentPath(k) in Dirs(paths)
    ensures ParentPath(k) < k
    decreases |paths|
  {
    var init, last := paths[..|paths| - 1], paths[|paths| - 1];
    if k in Keys(init) {
      KeyParent(init, k);
    } else {
      KeyParentOf(last, k);
    }
  }

  /** A node as the second loop creates it, apart from the contents of its child list. */
  predicate Shaped(n: FileTreeNode, dirs: set<string>) {
    && n.key == n.path
    && n.name == LastComponent(n.path)
    && n.node_type == (if n.path in dirs then "directory" else "file")
    && (n.children.SomeChildren? <==> n.path in dirs)
    && !n.expanded
    && n.level == |Split(n.path, '\\')| - 1
  }

  /** `c` belongs directly below the node with key `p`. */
  predicate ChildOf(c: FileTreeNode, p: string) {
    |Split(c.path, '\\')| >= 2 && ParentPath(c.path) == p
  }

  /** Every node of the tree is shaped, and every child belongs below its node. */
  predicate TreeOk(n: FileTreeNode, dirs: set<string>)
    decreases n, 1
  {
    Shaped(n, dirs) &&
    match n.children
    case NoChildren => true
    case SomeChildren(cs) => (forall j :: 0 <= j < |cs| ==> ChildOf(cs[j], n.path)) && ForestOk(cs, dirs)
  }

  predicate ForestOk(f: seq<FileTreeNode>, dirs: set<string>)
    decreases f, 0
  {
    forall i :: 0 <= i < |f| ==> TreeOk(f[i], dirs)
  }

  /** The roots are the keys of one component. */
  predicate RootsOk(f: seq<FileTreeNode>) {
    forall i :: 0 <= i < |f| ==> |Split(f[i].path, '\\')| == 1
  }

  lemma NodeForOk(k: string, dirs: set<string>)
    ensures TreeOk(NodeFor(k, dirs), dirs)
    ensures Paths([NodeFor(k, dirs)]) == [k]
  {
    FlattenSingle(NodeFor(k, dirs));
    assert |Paths([])| == 0;
  }

  /** Placing a well-formed child below its parent keeps a tree well-formed. */
  lemma {:induction false} AddToNodeOk(n: FileTreeNode, p: string, c: FileTreeNode, dirs: set<string>)
    requires TreeOk(n, dirs) && TreeOk(c, dirs) && ChildOf(c, p)
    ensures TreeOk(AddToNode(n, p, c).0, dirs)
    decreases n, 1
  {
    AddToNodeKeeps(n, p, c);
    if n.path == p && n.children.SomeChildren? {
      var cs := n.children.nodes;
      assert forall j :: 0 <= j < |cs| + 1 ==> (cs + [c])[j] == if j < |cs| then cs[j] else c;
    } else if n.children.SomeChildren? {
      AddToForestOk(n.children.nodes, p, c, dirs);
      AddToForestKeeps(n.children.nodes, p, c);
    }
  }

  lemma ForestOkAppend(a: seq<FileTreeNode>, b: seq<FileTreeNode>, dirs: set<string>)
    requires ForestOk(a, dirs) && ForestOk(b, dirs)
    ensures ForestOk(a + b, dirs)
  {
    assert forall i :: 0 <= i < |a| + |b| ==> (a + b)[i] == if i < |a| then a[i] else b[i - |a|];
  }

  /** Placing a well-formed child below its parent keeps a forest well-formed. */
  lemma {:induction false} AddToForestOk(f: seq<FileTreeNode>, p: string, c: FileTreeNode, dirs: set<string>)
    requires ForestOk(f, dirs) && TreeOk(c, dirs) && ChildOf(c, p)
    ensures ForestOk(AddToForest(f, p, c).0, dirs)
    decreases f, 0
  {
    if f != [] {
      var (h, added) := AddToNode(f[0], p, c);
      AddToNodeOk(f[0], p, c, dirs);
      assert ForestOk([h], dirs);
      if added {
        ForestOkAppend([h], f[1..], dirs);
      } else {
        AddToForestOk(f[1..], p, c, dirs);
        ForestOkAppend([h], AddToForest(f[1..], p, c).0, dirs);
      }
    }
  }

  /** In a well-formed tree, a node whose key is a directory prefix has a child list. */
  lemma {:induction false} TreeDirectoryFound(n: FileTreeNode, p: string, dirs: set<string>)
    requires TreeOk(n, dirs) && p in Paths([n]) && p in dirs
    ensures HasDirectory([n], p)
    decreases n, 1
  {
    FlattenSingle(n);
    HasDirectoryNode(n, p);
    if p != n.path {
      ForestDirectoryFound(n.children.nodes, p, dirs);
    }
  }

  /** In a well-formed forest, a node whose key is a directory prefix has a child list. */
  lemma {:induction false} ForestDirectoryFound(f: seq<FileTreeNode>, p: string, dirs: set<string>)
    requires ForestOk(f, dirs) && p in Paths(f) && p in dirs
    ensures HasDirectory(f, p)
    decreases f, 0
  {
    FlattenCons(f);
    Seqs.Cons(f);
    HasDirectoryAppend([f[0]], f[1..], p);
    if p in Paths([f[0]]) {
      TreeDirectoryFound(f[0], p, dirs);
    } else {
      ForestDirectoryFound(f[1..], p, dirs);
    }
  }

  /** The keys of `all_nodes` in some order (`keys().cloned().collect()`). */
  method KeyList(m: map<string, FileTreeNode>) returns (ks: seq<string>)
    ensures multiset(ks) == multiset(m.Keys)
  {
    ks := [];
    var rest := m.Keys;
    while rest != {}
      invariant rest <= m.Keys
      invariant multiset(ks) + multiset(rest) == multiset(m.Keys)
      decreases |rest|
    {
      var k :| k in rest;
      assert multiset(rest) == multiset(rest - {k}) + multiset{k};
      ks := ks + [k];
      rest := rest - {k};
    }
  }

  /** The string order is total and transitive on any list of keys. */
  lemma StringOrder(s: seq<string>)
    ensures TotalOn(s, LexLe) && TransitiveOn(s, LexLe)
  {
    forall a, b | a in s && b in s ensures LexLe(a, b) || LexLe(b, a) {
      LexLeTotal(a, b);
    }
    forall a, b, c | a in s && b in s && c in s && LexLe(a, b) && LexLe(b, c) ensures LexLe(a, c) {
      LexLeTransitive(a, b, c);
    }
  }

  lemma NodesForRemove(keys: set<string>, k: string, dirs: set<string>)
    ensures NodesFor(keys, dirs) - {k} == NodesFor(keys - {k}, dirs)
  {
  }

  /** In a sorted list without repeats, a smaller element sits before position `i` and not after it. */
  lemma SortedEarlier(sorted: seq<string>, i: nat, p: string)
    requires i < |sorted| && p in sorted && SortedBy(sorted, LexLe) && Seqs.Distinct(sorted)
    requires LexLe(p, sorted[i]) && p != sorted[i]
    ensures p in sorted[..i] && p !in Seqs.Elems(sorted[i..])
  {
    var a :| 0 <= a < |sorted| && sorted[a] == p;
    if a > i {
      LexLeAntisymmetric(p, sorted[i]);
    }
    assert sorted[..i][a] == p;
  }

  /**
   * In the sorted key list, the parent of the key at `i` comes earlier: it is
   * already in the forest as a directory and no longer in `all_nodes`.
   */
  lemma ParentPlaced(paths: seq<string>, sorted: seq<string>, i: nat, roots: seq<FileTreeNode>)
    requires i < |sorted| && |Split(sorted[i], '\\')| >= 2
    requires multiset(sorted) == multiset(Keys(paths)) && SortedBy(sorted, LexLe) && Seqs.Distinct(sorted)
    requires ForestOk(roots, Dirs(paths)) && multiset(Paths(roots)) == multiset(sorted[..i])
    ensures ParentPath(sorted[i]) !in Seqs.Elems(sorted[i..])
    ensures HasDirectory(roots, ParentPath(sorted[i]))
  {
    var k := sorted[i];
    var p := ParentPath(k);
    assert k in multiset(Keys(paths));
    KeyParent(paths, k);
    LexLePrefix(p, k);
    assert p in multiset(sorted);
    SortedEarlier(sorted, i, p);
    assert p in multiset(Paths(roots));
    ForestDirectoryFound(roots, p, Dirs(paths));
  }

  /**
   * One turn of the attach loop for the key at position `i` of the sorted
   * list: the node is taken out of `all_nodes` and becomes a root (one
   * component) or is placed below its parent.
   */
  method PlaceNode(paths: seq<string>, sorted: seq<string>, i: nat,
                   roots0: seq<FileTreeNode>, allNodes0: map<string, FileTreeNode>)
    returns (roots: seq<FileTreeNode>, allNodes: map<string, FileTreeNode>)
    requires i < |sorted|
    requires multiset(sorted) == multiset(Keys(paths)) && SortedBy(sorted, LexLe) && Seqs.Distinct(sorted)
    requires allNodes0 == NodesFor(Seqs.Elems(sorted[i..]), Dirs(paths))
    requires ForestOk(roots0, Dirs(paths)) && RootsOk(roots0)
    requires multiset(Paths(roots0)) == multiset(sorted[..i])
    ensures allNodes == NodesFor(Seqs.Elems(sorted[i + 1..]), Dirs(paths))
    ensures ForestOk(roots, Dirs(paths)) && RootsOk(roots)
    ensures multiset(Paths(roots)) == multiset(sorted[..i + 1])
  {
    ghost var dirs := Dirs(paths);
    var path := sorted[i];
    Seqs.ElemsSuffix(sorted, i);
    Seqs.PrefixSnoc(sorted, i);
    NodesForRemove(Seqs.Elems(sorted[i..]), path, dirs);
    NodeForOk(path, dirs);
    roots, allNodes := roots0, allNodes0;
    if path in allNodes {
      var node := allNodes[path];
      allNodes := allNodes - {path};
      var parts := Split(path, '\\');
      if |parts| == 1 {
        PathsAppend(roots, [node]);
        roots := roots + [node];
      } else {
        var parentPath := Join(parts[..|parts| - 1], '\\');
        ParentPlaced(paths, sorted, i, roots);
        if parentPath in allNodes {
          allNodes := allNodes[path := node];
        } else {
          AddToForestFinds(roots, parentPath, node);
          AddToForestOk(roots, parentPath, node, dirs);
          AddToForestKeeps(roots, parentPath, node);
          AddToForestPaths(roots, parentPath, node);
          var found;
          roots, found := AttachToForest(roots, parentPath, node);
          if !found {
            roots := roots + [node];
          }
        }
      }
    }
  }

  /**
   * The attach loop over the sorted keys. It empties `all_nodes`, so the
   * retry loop that follows it in `build_file_tree` never runs.
   */
  method AttachNodes(paths: seq<string>, sorted: seq<string>, allNodes0: map<string, FileTreeNode>)
    returns (roots: seq<FileTreeNode>)
    requires multiset(sorted) == multiset(Keys(paths)) && SortedBy(sorted, LexLe) && Seqs.Distinct(sorted)
    requires allNodes0 == NodesFor(Seqs.Elems(sorted), Dirs(paths))
    ensures ForestOk(roots, Dirs(paths)) && RootsOk(roots)
    ensures multiset(Paths(roots)) == multiset(sorted)
  {
    var allNodes := allNodes0;
    Seqs.WholeSlices(sorted);
    roots := [];
    var i := 0;
    while i < |sorted|
      invariant 0 <= i <= |sorted|
      invariant allNodes == NodesFor(Seqs.Elems(sorted[i..]), Dirs(paths))
      invariant ForestOk(roots, Dirs(paths)) && RootsOk(roots)
      invariant multiset(Paths(roots)) == multiset(sorted[..i])
    {
      roots, allNodes := PlaceNode(paths, sorted, i, roots, allNodes);
      i := i + 1;
    }
    assert allNodes == map[];
    Seqs.WholeSlices(sorted);
  }

  /** The order of `sort_nodes`: directories before files, otherwise by name. */
  predicate NodeLe(a: FileTreeNode, b: FileTreeNode) {
    if a.node_type != b.node_type then a.node_type == "directory" else LexLe(a.name, b.name)
  }

  /** Every child list in the tree is sorted. */
  ghost predicate SortedTree(n: FileTreeNode)
    decreases n, 1
  {
    match n.children
    case NoChildren => true
    case SomeChildren(cs) => SortedForest(cs)
  }

  /** The roots are sorted and so is every child list below them. */
  ghost predicate SortedForest(f: seq<FileTreeNode>)
    decreases f, 0
  {
    SortedBy(f, NodeLe) && forall i :: 0 <= i < |f| ==> SortedTree(f[i])
  }

  /** On well-formed nodes, whose type is "directory" or "file", the order is total and transitive. */
  lemma NodeLeOrders(s: seq<FileTreeNode>, dirs: set<string>)
    requires ForestOk(s, dirs)
    ensures TotalOn(s, NodeLe) && TransitiveOn(s, NodeLe)
  {
    forall a, b | a in s && b in s ensures NodeLe(a, b) || NodeLe(b, a) {
      LexLeTotal(a.name, b.name);
    }
    forall a, b, c | a in s && b in s && c in s && NodeLe(a, b) && NodeLe(b, c) ensures NodeLe(a, c) {
      if a.node_type == b.node_type == c.node_type {
        LexLeTransitive(a.name, b.name, c.name);
      }
    }
  }

  lemma ForestOkPermutation(r: seq<FileTreeNode>, s: seq<FileTreeNode>, dirs: set<string>)
    requires multiset(r) == multiset(s) && ForestOk(s, dirs)
    ensures ForestOk(r, dirs)
  {
    forall i | 0 <= i < |r| ensures TreeOk(r[i], dirs) {
      InPermutation(r[i], r, s);
    }
  }

  /** Replacing a child list by a reordering of it keeps the tree well-formed and its nodes. */
  lemma ReorderedChildren(n: FileTreeNode, cs: seq<FileTreeNode>, dirs: set<string>)
    requires TreeOk(n, dirs) && n.children.SomeChildren? && ForestOk(cs, dirs)
    requires multiset(TopPaths(cs)) == multiset(TopPaths(n.children.nodes))
    requires multiset(Paths(cs)) == multiset(Paths(n.children.nodes))
    ensures TreeOk(n.(children := SomeChildren(cs)), dirs)
    ensures multiset(Paths([n.(children := SomeChildren(cs))])) == multiset(Paths([n]))
  {
    var old_cs := n.children.nodes;
    forall j | 0 <= j < |cs| ensures ChildOf(cs[j], n.path) {
      assert TopPaths(cs)[j] == cs[j].path;
      assert cs[j].path in multiset(TopPaths(old_cs));
      var m :| 0 <= m < |old_cs| && TopPaths(old_cs)[m] == cs[j].path;
      assert ChildOf(old_cs[m], n.path);
    }
    FlattenSingle(n);
    FlattenSingle(n.(children := SomeChildren(cs)));
  }

  /**
   * The state of the loop of `sort_nodes` after the roots before `i` had
   * their child lists sorted: only child lists have changed, and they are
   * sorted up to `i`.
   */
  ghost predicate SortState(r: seq<FileTreeNode>, sorted: seq<FileTreeNode>, i: nat, dirs: set<string>) {
    && i <= |r| == |sorted|
    && ForestOk(r, dirs)
    && (forall k :: 0 <= k < |r| ==> r[k] == sorted[k].(children := r[k].children))
    && (forall k :: i <= k < |r| ==> r[k] == sorted[k])
    && (forall k :: 0 <= k < i ==> SortedTree(r[k]))
  }

  lemma SortStateAt(r: seq<FileTreeNode>, sorted: seq<FileTreeNode>, i: nat, dirs: set<string>)
    requires SortState(r, sorted, i, dirs) && i < |r|
    ensures r[i] == sorted[i] && TreeOk(r[i], dirs)
  {
  }

  /** A node with no children, or an empty child list, is left as it is. */
  lemma SortAdvanceLeaf(r: seq<FileTreeNode>, sorted: seq<FileTreeNode>, i: nat, dirs: set<string>)
    requires SortState(r, sorted, i, dirs) && i < |r|
    requires r[i].children.NoChildren? || r[i].children.nodes == []
    ensures SortState(r, sorted, i + 1, dirs)
  {
    assert SortedTree(r[i]);
  }

  /** A node whose child list was sorted replaces the root at `i`. */
  lemma SortAdvance(r: seq<FileTreeNode>, sorted: seq<FileTreeNode>, i: nat, node: FileTreeNode, dirs: set<string>)
    requires SortState(r, sorted, i, dirs) && i < |r|
    requires node == r[i].(children := node.children) && TreeOk(node, dirs) && SortedTree(node)
    ensures SortState(r[i := node], sorted, i + 1, dirs)
  {
  }

  /** Once every child list is sorted, the whole forest is, with the same roots. */
  lemma SortDone(r: seq<FileTreeNode>, sorted: seq<FileTreeNode>, dirs: set<string>)
    requires SortState(r, sorted, |r|, dirs) && SortedBy(sorted, NodeLe)
    ensures SortedForest(r) && TopPaths(r) == TopPaths(sorted)
  {
  }

  /**
   * `sort_nodes`: sorts the siblings, directories first and then by name,
   * then every non-empty child list below them.
   */
  method SortNodes(nodes: seq<FileTreeNode>, ghost dirs: set<string>) returns (r: seq<FileTreeNode>)
    requires ForestOk(nodes, dirs)
    ensures ForestOk(r, dirs) && SortedForest(r)
    ensures multiset(Paths(r)) == multiset(Paths(nodes))
    ensures multiset(TopPaths(r)) == multiset(TopPaths(nodes))
    decreases SomeChildren(nodes)
  {
    NodeLeOrders(nodes, dirs);
    var sorted := SortBy(nodes, NodeLe);
    ForestOkPermutation(sorted, nodes, dirs);
    PathsPermutation(sorted, nodes);
    Seqs.MapPermutation(sorted, nodes, PathOf);
    r := sorted;
    var i := 0;
    while i < |r|
      invariant SortState(r, sorted, i, dirs)
      invariant multiset(Paths(r)) == multiset(Paths(sorted))
    {
      SortStateAt(r, sorted, i, dirs);
      if r[i].children.SomeChildren? && r[i].children.nodes != [] {
        InPermutation(r[i], sorted, nodes);
        var cs := SortNodes(r[i].children.nodes, dirs);
        var node := r[i].(children := SomeChildren(cs));
        ReorderedChildren(r[i], cs, dirs);
        PathsReplace(r, i, node);
        SortAdvance(r, sorted, i, node, dirs);
        r := r[i := node];
      } else {
        SortAdvanceLeaf(r, sorted, i, dirs);
      }
      i := i + 1;
    }
    SortDone(r, sorted, dirs);
  }

  function Collapse(n: FileTreeNode): FileTreeNode {
    n.(expanded := false)
  }

  /** The forest with every root folded. */
  function Collapsed(f: seq<FileTreeNode>): (r: seq<FileTreeNode>)
    ensures |r| == |f| && forall i :: 0 <= i < |f| ==> r[i] == f[i].(expanded := false)
  {
    Seqs.Map(f, Collapse)
  }

  /** Re-ordering the roots keeps them keys of one component. */
  lemma RootsOkPermutation(r: seq<FileTreeNode>, s: seq<FileTreeNode>)
    requires RootsOk(s) && multiset(TopPaths(r)) == multiset(TopPaths(s))
    ensures RootsOk(r)
  {
    forall i | 0 <= i < |r| ensures |Split(r[i].path, '\\')| == 1 {
      assert TopPaths(r)[i] == r[i].path;
      assert r[i].path in multiset(TopPaths(s));
      var m :| 0 <= m < |s| && TopPaths(s)[m] == r[i].path;
    }
  }

  /** A well-formed forest is folded throughout. */
  lemma Unexpanded(t: seq<FileTreeNode>, dirs: set<string>)
    requires ForestOk(t, dirs)
    ensures Collapsed(t) == t
    ensures forall i :: 0 <= i < |t| ==> !t[i].expanded
  {
  }

  /** A list holding each key once has exactly the keys as elements. */
  lemma ElemsOfKeys(sorted: seq<string>, keys: set<string>)
    requires multiset(sorted) == multiset(keys)
    ensures Seqs.Elems(sorted) == keys && Seqs.Distinct(sorted)
  {
    Seqs.DistinctOfSet(sorted, keys);
    forall x ensures x in sorted <==> x in keys {
      assert x in sorted <==> x in multiset(sorted);
    }
  }

  /** The last step of `build_file_tree`: a sole root with a child list is shown expanded. */
  method ExpandSoleRoot(t: seq<FileTreeNode>, ghost dirs: set<string>) returns (r: seq<FileTreeNode>)
    requires ForestOk(t, dirs) && SortedForest(t) && RootsOk(t)
    ensures Collapsed(r) == t && SortedForest(r) && RootsOk(r)
    ensures multiset(Paths(r)) == multiset(Paths(t))
    ensures forall i :: 0 <= i < |r| ==> (r[i].expanded <==> |r| == 1 && r[i].children.SomeChildren?)
  {
    r := t;
    if |r| == 1 && r[0].children.SomeChildren? {
      var x := r[0].(expanded := true);
      FlattenSingle(t[0]);
      FlattenSingle(x);
      assert t == [t[0]];
      r := [x];
    } else {
      Unexpanded(t, dirs);
    }
  }

  /**
   * `build_file_tree`. The result holds exactly one node per key, each node
   * is the one created for its key (`TreeOk`, up to the expanded flag), the
   * roots are the keys of one component and every other node sits below the
   * node of its parent key; every sibling list is sorted, and only a sole
   * root with a child list is expanded.
   */
  method BuildFileTree(paths: seq<string>) returns (roots: seq<FileTreeNode>)
    ensures ForestOk(Collapsed(roots), Dirs(paths)) && RootsOk(roots)
    ensures multiset(Paths(roots)) == multiset(Keys(paths))
    ensures SortedForest(roots)
    ensures forall i :: 0 <= i < |roots| ==> (roots[i].expanded <==> |roots| == 1 && roots[i].children.SomeChildren?)
  {
    var dirMap := DirectoryPrefixes(paths);
    var allNodes := CreateNodes(paths, dirMap);
    var keys := KeyList(allNodes);
    StringOrder(keys);
    var sorted := SortBy(keys, LexLe);
    ElemsOfKeys(sorted, Keys(paths));
    roots := AttachNodes(paths, sorted, allNodes);
    var sortedRoots := SortNodes(roots, dirMap);
    RootsOkPermutation(sortedRoots, roots);
    roots := ExpandSoleRoot(sortedRoots, dirMap);
  }
}
