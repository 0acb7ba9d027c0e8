/**
 * The preview tree of an archive's entries (`FileTreeNode`) and
 * `add_child_to_node`, which attaches a node below the first directory of a
 * given path, searching the tree in pre-order.
 */
module FileTree {
  import Seqs

  /**
   * `Option<Vec<FileTreeNode>>`: files have no child list, directories have
   * one (possibly empty).
   */
  datatype Children = NoChildren | SomeChildren(nodes: seq<FileTreeNode>)

  datatype FileTreeNode = FileTreeNode(
    key: string,
    name: string,
    path: string,
    node_type: string,
    children: Children,
    expanded: bool,
    level: nat)

  /** The nodes of one tree in pre-order: the node, then its subtrees left to right. */
  function FlattenNode(n: FileTreeNode): (r: seq<FileTreeNode>)
    ensures |r| >= 1 && r[0] == n
    decreases n, 1
  {
    [n] + (match n.children case SomeChildren(cs) => Flatten(cs) case NoChildren => [])
  }

  /** The nodes of a forest in pre-order. */
  function Flatten(f: seq<FileTreeNode>): (r: seq<FileTreeNode>)
    ensures |r| >= |f|
    decreases f, 0
  {
    if f == [] then [] else FlattenNode(f[0]) + Flatten(f[1..])
  }

  lemma {:induction false} FlattenAppend(a: seq<FileTreeNode>, b: seq<FileTreeNode>)
    ensures Flatten(a + b) == Flatten(a) + Flatten(b)
  {
    if a == [] {
      assert a + b == b;
    } else {
      assert (a + b)[0] == a[0] && (a + b)[1..] == a[1..] + b;
      FlattenAppend(a[1..], b);
    }
  }

  /** The paths of a forest's nodes, in pre-order. */
  function Paths(f: seq<FileTreeNode>): (r: seq<string>)
    ensures |r| == |Flatten(f)|
    ensures forall k :: 0 <= k < |r| ==> r[k] == Flatten(f)[k].path
  {
    var fl := Flatten(f);
    seq(|fl|, k requires 0 <= k < |fl| => fl[k].path)
  }

  lemma PathsAppend(a: seq<FileTreeNode>, b: seq<FileTreeNode>)
    ensures Paths(a + b) == Paths(a) + Paths(b)
  {
    FlattenAppend(a, b);
    var pa, pb, pab := Paths(a), Paths(b), Paths(a + b);
    forall k | 0 <= k < |pab| ensures pab[k] == (pa + pb)[k] {
      if k < |pa| {
        assert Flatten(a + b)[k] == Flatten(a)[k];
      } else {
        assert Flatten(a + b)[k] == Flatten(b)[k - |pa|];
      }
    }
  }

  /** Some node of the forest has path `p` and a child list. */
  predicate HasDirectory(f: seq<FileTreeNode>, p: string) {
    exists k :: 0 <= k < |Flatten(f)| && Flatten(f)[k].path == p && Flatten(f)[k].children.SomeChildren?
  }

  /**
   * `add_child_to_node` on one node: if the node has path `parentPath` and a
   * child list, `child` is appended to it; otherwise the search continues in
   * the node's children. The flag says whether the child was placed; when it
   * was not, the node is returned unchanged.
   */
  function AddToNode(n: FileTreeNode, parentPath: string, child: FileTreeNode): (r: (FileTreeNode, bool))
    ensures !r.1 ==> r.0 == n
    decreases n, 1
  {
    if n.path == parentPath && n.children.SomeChildren? then
      (n.(children := SomeChildren(n.children.nodes + [child])), true)
    else
      match n.children
      case NoChildren => (n, false)
      case SomeChildren(cs) =>
        var (cs', added) := AddToForest(cs, parentPath, child);
        (n.(children := SomeChildren(cs')), added)
  }

  /** The first tree of `f` that accepts the child takes it; the trees after it are not searched. */
  function AddToForest(f: seq<FileTreeNode>, parentPath: string, child: FileTreeNode): (r: (seq<FileTreeNode>, bool))
    ensures !r.1 ==> r.0 == f
    ensures |r.0| == |f|
    decreases f, 0
  {
    if f == [] then ([], false)
    else
      var (h, added) := AddToNode(f[0], parentPath, child);
      if added then ([h] + f[1..], true)
      else
        var (t, added') := AddToForest(f[1..], parentPath, child);
        assert added' ==> |t| == |f[1..]|;
        ([f[0]] + t, added')
  }

  /** Searching a forest that starts with a tree that refuses the child is searching the rest. */
  lemma AddToForestSkip(f: seq<FileTreeNode>, parentPath: string, child: FileTreeNode)
    requires f != [] && !AddToNode(f[0], parentPath, child).1
    ensures AddToForest(f, parentPath, child).0 == [f[0]] + AddToForest(f[1..], parentPath, child).0
    ensures AddToForest(f, parentPath, child).1 == AddToForest(f[1..], parentPath, child).1
  {
  }

  /** Past a tree that refuses the child, the search moves on to the next tree. */
  lemma ForestSkipAt(cs: seq<FileTreeNode>, i: nat, parentPath: string, child: FileTreeNode)
    requires i < |cs| && !AddToNode(cs[i], parentPath, child).1
    ensures cs[..i] + AddToForest(cs[i..], parentPath, child).0 == cs[..i + 1] + AddToForest(cs[i + 1..], parentPath, child).0
    ensures AddToForest(cs[i..], parentPath, child).1 == AddToForest(cs[i + 1..], parentPath, child).1
  {
    var rest := AddToForest(cs[i + 1..], parentPath, child).0;
    Seqs.SuffixCons(cs, i);
    AddToForestSkip(cs[i..], parentPath, child);
    Seqs.Assoc(cs[..i], [cs[i]], rest);
    Seqs.PrefixSnoc(cs, i);
  }

  /** The first tree that accepts the child is replaced by its updated version. */
  lemma ForestHitAt(cs: seq<FileTreeNode>, i: nat, parentPath: string, child: FileTreeNode)
    requires i < |cs| && AddToNode(cs[i], parentPath, child).1
    ensures cs[..i] + AddToForest(cs[i..], parentPath, child).0 == cs[i := AddToNode(cs[i], parentPath, child).0]
    ensures AddToForest(cs[i..], parentPath, child).1
  {
    Seqs.SuffixCons(cs, i);
    Seqs.Splice(cs, i, AddToNode(cs[i], parentPath, child).0);
  }

  /**
   * `add_child_to_node` as the source writes it: a recursive search over the
   * node's children with an early return on the first success.
   */
  method AddChildToNode(node: FileTreeNode, parentPath: string, child: FileTreeNode) returns (r: FileTreeNode, added: bool)
    ensures r == AddToNode(node, parentPath, child).0
    ensures added == AddToNode(node, parentPath, child).1
    decreases node
  {
    if node.path == parentPath && node.children.SomeChildren? {
      return node.(children := SomeChildren(node.children.nodes + [child])), true;
    }
    r, added := node, false;
    if node.children.SomeChildren? {
      var cs := node.children.nodes;
      var i := 0;
      Seqs.WholeSlices(cs);
      while i < |cs|
        invariant 0 <= i <= |cs|
        invariant AddToForest(cs, parentPath, child).0 == cs[..i] + AddToForest(cs[i..], parentPath, child).0
        invariant AddToForest(cs, parentPath, child).1 == AddToForest(cs[i..], parentPath, child).1
      {
        var c, ok := AddChildToNode(cs[i], parentPath, child);
        if ok {
          ForestHitAt(cs, i, parentPath, child);
          return node.(children := SomeChildren(cs[i := c])), true;
        }
        ForestSkipAt(cs, i, parentPath, child);
        i := i + 1;
      }
      Seqs.WholeSlices(cs);
    }
  }

  /** The pre-order of a single tree is the node followed by the pre-order of its children. */
  lemma FlattenSingle(n: FileTreeNode)
    ensures Flatten([n]) == FlattenNode(n)
    ensures Paths([n]) == [n.path] + (match n.children case SomeChildren(cs) => Paths(cs) case NoChildren => [])
  {
    assert [n][1..] == [];
    var fl := Flatten([n]);
    var rest := match n.children case SomeChildren(cs) => Paths(cs) case NoChildren => [];
    assert Paths([n]) == [n.path] + rest by {
      forall k | 0 <= k < |fl| ensures Paths([n])[k] == ([n.path] + rest)[k] {
        if k > 0 {
          assert fl[k] == (match n.children case SomeChildren(cs) => Flatten(cs) case NoChildren => [])[k - 1];
        }
      }
    }
  }

  /** A forest is its first tree followed by the other trees. */
  lemma FlattenCons(f: seq<FileTreeNode>)
    requires f != []
    ensures Flatten(f) == Flatten([f[0]]) + Flatten(f[1..])
    ensures Paths(f) == Paths([f[0]]) + Paths(f[1..])
  {
    assert f == [f[0]] + f[1..];
    FlattenAppend([f[0]], f[1..]);
    PathsAppend([f[0]], f[1..]);
  }

  lemma HasDirectoryAppendLeft(a: seq<FileTreeNode>, b: seq<FileTreeNode>, p: string)
    requires HasDirectory(a, p)
    ensures HasDirectory(a + b, p)
  {
    FlattenAppend(a, b);
    var fa := Flatten(a);
    var k :| 0 <= k < |fa| && fa[k].path == p && fa[k].children.SomeChildren?;
    assert Flatten(a + b)[k] == fa[k];
  }

  lemma HasDirectoryAppendRight(a: seq<FileTreeNode>, b: seq<FileTreeNode>, p: string)
    requires HasDirectory(b, p)
    ensures HasDirectory(a + b, p)
  {
    FlattenAppend(a, b);
    var fa, fb := Flatten(a), Flatten(b);
    var k :| 0 <= k < |fb| && fb[k].path == p && fb[k].children.SomeChildren?;
    assert Flatten(a + b)[|fa| + k] == fb[k];
  }

  lemma HasDirectoryAppendSplit(a: seq<FileTreeNode>, b: seq<FileTreeNode>, p: string)
    requires HasDirectory(a + b, p)
    ensures HasDirectory(a, p) || HasDirectory(b, p)
  {
    FlattenAppend(a, b);
    var fa, fb := Flatten(a), Flatten(b);
    var k :| 0 <= k < |Flatten(a + b)| && Flatten(a + b)[k].path == p && Flatten(a + b)[k].children.SomeChildren?;
    if k < |fa| {
      assert fa[k] == Flatten(a + b)[k];
    } else {
      assert fb[k - |fa|] == Flatten(a + b)[k];
    }
  }

  /** A forest has a directory with the path exactly when one of its two parts does. */
  lemma HasDirectoryAppend(a: seq<FileTreeNode>, b: seq<FileTreeNode>, p: string)
    ensures HasDirectory(a + b, p) <==> HasDirectory(a, p) || HasDirectory(b, p)
  {
    if HasDirectory(a, p) {
      HasDirectoryAppendLeft(a, b, p);
    }
    if HasDirectory(b, p) {
      HasDirectoryAppendRight(a, b, p);
    }
    if HasDirectory(a + b, p) {
      HasDirectoryAppendSplit(a, b, p);
    }
  }

  lemma HasDirectoryNode(n: FileTreeNode, p: string)
    ensures HasDirectory([n], p)
        <==> n.children.SomeChildren? && (n.path == p || HasDirectory(n.children.nodes, p))
  {
    FlattenSingle(n);
    var fl := Flatten([n]);
    if n.children.SomeChildren? {
      var fc := Flatten(n.children.nodes);
      assert fl == [n] + fc;
      if HasDirectory(n.children.nodes, p) {
        var k :| 0 <= k < |fc| && fc[k].path == p && fc[k].children.SomeChildren?;
        assert fl[k + 1] == fc[k];
      }
      if HasDirectory([n], p) && n.path != p {
        var k :| 0 <= k < |fl| && fl[k].path == p && fl[k].children.SomeChildren?;
        assert fc[k - 1] == fl[k];
      }
    } else {
      assert fl == [n];
    }
  }

  /** The child is placed exactly when some node of the tree has the parent path and a child list. */
  lemma {:induction false} AddToNodeFinds(n: FileTreeNode, parentPath: string, child: FileTreeNode)
    ensures AddToNode(n, parentPath, child).1 <==> HasDirectory([n], parentPath)
    decreases n, 1
  {
    HasDirectoryNode(n, parentPath);
    if n.children.SomeChildren? {
      AddToForestFinds(n.children.nodes, parentPath, child);
    }
  }

  /** The child is placed in a forest exactly when some node of it has the parent path and a child list. */
  lemma {:induction false} AddToForestFinds(f: seq<FileTreeNode>, parentPath: string, child: FileTreeNode)
    ensures AddToForest(f, parentPath, child).1 <==> HasDirectory(f, parentPath)
    decreases f, 0
  {
    if f != [] {
      AddToNodeFinds(f[0], parentPath, child);
      AddToForestFinds(f[1..], parentPath, child);
      assert f == [f[0]] + f[1..];
      HasDirectoryAppend([f[0]], f[1..], parentPath);
    }
  }

  /** Placing the child adds exactly the child's subtree to the nodes of the tree. */
  lemma {:induction false} AddToNodePaths(n: FileTreeNode, parentPath: string, child: FileTreeNode)
    requires AddToNode(n, parentPath, child).1
    ensures multiset(Paths([AddToNode(n, parentPath, child).0]))
         == multiset(Paths([n])) + multiset(Paths([child]))
    decreases n, 1
  {
    var r := AddToNode(n, parentPath, child).0;
    FlattenSingle(n);
    FlattenSingle(r);
    var cs := n.children.nodes;
    if n.path == parentPath && n.children.SomeChildren? {
      PathsAppend(cs, [child]);
      assert Paths([r]) == [n.path] + (Paths(cs) + Paths([child]));
    } else {
      AddToForestPaths(cs, parentPath, child);
    }
  }

  /** Placing the child in a forest adds exactly the child's subtree to its nodes. */
  lemma {:induction false} AddToForestPaths(f: seq<FileTreeNode>, parentPath: string, child: FileTreeNode)
    requires AddToForest(f, parentPath, child).1
    ensures multiset(Paths(AddToForest(f, parentPath, child).0))
         == multiset(Paths(f)) + multiset(Paths([child]))
    decreases f, 0
  {
    var r := AddToForest(f, parentPath, child).0;
    FlattenCons(f);
    FlattenCons(r);
    if AddToNode(f[0], parentPath, child).1 {
      AddToNodePaths(f[0], parentPath, child);
      assert r[1..] == f[1..];
    } else {
      AddToForestPaths(f[1..], parentPath, child);
      assert r[0] == f[0];
    }
  }

  /**
   * The attach step of `build_file_tree`: offer the child to each root in
   * turn and stop at the first that takes it.
   */
  method AttachToForest(roots: seq<FileTreeNode>, parentPath: string, child: FileTreeNode)
    returns (r: seq<FileTreeNode>, found: bool)
    ensures r == AddToForest(roots, parentPath, child).0
    ensures found == AddToForest(roots, parentPath, child).1
  {
    r, found := roots, false;
    var i := 0;
    Seqs.WholeSlices(roots);
    while i < |roots|
      invariant 0 <= i <= |roots|
      invariant AddToForest(roots, parentPath, child).0 == roots[..i] + AddToForest(roots[i..], parentPath, child).0
      invariant AddToForest(roots, parentPath, child).1 == AddToForest(roots[i..], parentPath, child).1
    {
      var c, ok := AddChildToNode(roots[i], parentPath, child);
      if ok {
        ForestHitAt(roots, i, parentPath, child);
        r, found := roots[i := c], true;
        return;
      }
      ForestSkipAt(roots, i, parentPath, child);
      i := i + 1;
    }
    Seqs.WholeSlices(roots);
  }

  /** Placing a child changes at most the child list of a node, and keeps it a directory or a file. */
  lemma AddToNodeKeeps(n: FileTreeNode, parentPath: string, child: FileTreeNode)
    ensures AddToNode(n, parentPath, child).0 == n.(children := AddToNode(n, parentPath, child).0.children)
    ensures AddToNode(n, parentPath, child).0.children.SomeChildren? == n.children.SomeChildren?
  {
  }

  /** Placing a child in a forest changes at most the child lists of its roots. */
  lemma AddToForestKeeps(f: seq<FileTreeNode>, parentPath: string, child: FileTreeNode)
    ensures forall i :: 0 <= i < |f| ==>
      AddToForest(f, parentPath, child).0[i] == f[i].(children := AddToForest(f, parentPath, child).0[i].children)
      && AddToForest(f, parentPath, child).0[i].children.SomeChildren? == f[i].children.SomeChildren?
  {
    if f != [] {
      AddToNodeKeeps(f[0], parentPath, child);
      AddToForestKeeps(f[1..], parentPath, child);
    }
  }

  /** Reordering the trees of a forest reorders its nodes. */
  lemma {:induction false} PathsPermutation(r: seq<FileTreeNode>, s: seq<FileTreeNode>)
    requires multiset(r) == multiset(s)
    ensures multiset(Paths(r)) == multiset(Paths(s))
    decreases |r|
  {
    if r == [] {
      assert |s| == |multiset(s)| == 0;
    } else {
      var i := Seqs.PermutationSplit(r, s);
      PathsPermutation(r[1..], s[..i] + s[i + 1..]);
      FlattenCons(r);
      PathsAppend(s[..i], [s[i]] + s[i + 1..]);
      PathsAppend([s[i]], s[i + 1..]);
      PathsAppend(s[..i], s[i + 1..]);
    }
  }

  /** Replacing one tree by a tree with the same nodes (in any order) keeps the forest's nodes. */
  lemma PathsReplace(f: seq<FileTreeNode>, i: nat, t: FileTreeNode)
    requires i < |f| && multiset(Paths([t])) == multiset(Paths([f[i]]))
    ensures multiset(Paths(f[i := t])) == multiset(Paths(f))
  {
    Seqs.Splice(f, i, t);
    Seqs.Around(f, i);
    PathsAppend(f[..i], [t] + f[i + 1..]);
    PathsAppend([t], f[i + 1..]);
    PathsAppend(f[..i], [f[i]] + f[i + 1..]);
    PathsAppend([f[i]], f[i + 1..]);
  }

  function PathOf(n: FileTreeNode): string {
    n.path
  }

  /** The paths of the roots of a forest. */
  function TopPaths(f: seq<FileTreeNode>): (r: seq<string>)
    ensures |r| == |f| && forall i :: 0 <= i < |f| ==> r[i] == f[i].path
  {
    Seqs.Map(f, PathOf)
  }
}
