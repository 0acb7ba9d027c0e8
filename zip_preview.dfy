/**
 * `build_file_tree`: the preview tree of an archive listing. Each input path
 * is cut at `\`; every non-empty prefix of a non-blank path becomes one node,
 * a directory when some input continues below it and a file otherwise. The
 * nodes are linked below their parents, siblings are sorted directories
 * first and then by name, and a sole directory root is shown expanded.
 */
module ZipPreview {
  import opened Text
  import Seqs
  import opened Order
  import opened FileTree

  /** A component kept by `filter(|p| !p.is_empty())`. */
  predicate IsPart(p: string) {
    p != ""
  }

  /** The non-empty `\`-separated components of a path. */
  function Components(path: string): (parts: seq<string>)
    ensures forall k :: 0 <= k < |parts| ==> parts[k] != "" && '\\' !in parts[k]
  {
    var sp := Split(path, '\\');
    var parts := Seqs.Filter(sp, IsPart);
    Seqs.FilterMembers(sp, IsPart);
    SplitPieces(path, '\\');
    assert forall k :: 0 <= k < |parts| ==> '\\' !in parts[k] by {
      forall k | 0 <= k < |parts| ensures '\\' !in parts[k] {
        var j :| 0 <= j < |sp| && sp[j] == parts[k];
      }
    }
    parts
  }

  /** The `\`-joined non-empty components among the first `j` pieces. */
  function PrefixPath(sp: seq<string>, j: nat): string
    requires j <= |sp|
  {
    Join(Seqs.Filter(sp[..j], IsPart), '\\')
  }

  /** The directory prefixes recorded while walking the first `j` pieces of one path. */
  function PrefixDirs(sp: seq<string>, j: nat): set<string>
    requires j <= |sp|
  {
    if j == 0 then {}
    else PrefixDirs(sp, j - 1) + (if sp[j - 1] != "" then {PrefixPath(sp, j)} else {})
  }

  /**
   * The directory prefixes of one path: the prefix ending at every non-empty
   * piece except the last piece. A path ending in `\` makes its whole
   * (non-empty) prefix a directory.
   */
  function DirsOf(path: string): set<string> {
    var sp := Split(path, '\\');
    PrefixDirs(sp, |sp| - 1)
  }

  /** The directory prefixes of all paths (`dir_map`). */
  function Dirs(paths: seq<string>): set<string> {
    if paths == [] then {} else Dirs(paths[..|paths| - 1]) + DirsOf(paths[|paths| - 1])
  }

  /** The first `n` components joined with `\`. */
  function JoinedPrefix(parts: seq<string>, n: nat): string
    requires n <= |parts|
  {
    Join(parts[..n], '\\')
  }

  /** The joined prefixes of the first `i` components. */
  function PrefixKeys(parts: seq<string>, i: nat): set<string>
    requires i <= |parts|
  {
    if i == 0 then {} else PrefixKeys(parts, i - 1) + {JoinedPrefix(parts, i)}
  }

  /** The node keys one path contributes: none for a blank path, else each prefix of its components. */
  function KeysOf(path: string): set<string> {
    if Trim(path) == "" then {} else PrefixKeys(Components(path), |Components(path)|)
  }

  /** The keys of `all_nodes`. */
  function Keys(paths: seq<string>): set<string> {
    if paths == [] then {} else Keys(paths[..|paths| - 1]) + KeysOf(paths[|paths| - 1])
  }

  /** The last component of a key. */
  function LastComponent(k: string): string {
    var parts := Split(k, '\\');
    parts[|parts| - 1]
  }

  /** The key of the parent of a key with at least two components. */
  function ParentPath(k: string): string {
    var parts := Split(k, '\\');
    Join(parts[..|parts| - 1], '\\')
  }

  /** The node created for key `k`: its type and child list are decided by `dirs` alone. */
  function NodeFor(k: string, dirs: set<string>): FileTreeNode {
    FileTreeNode(
      k,
      LastComponent(k),
      k,
      if k in dirs then "directory" else "file",
      if k in dirs then SomeChildren([]) else NoChildren,
      false,
      |Split(k, '\\')| - 1)
  }

  /** Every component is non-empty and free of `\\` (stated recursively so that loops carry no quantifier). */
  predicate Clean(parts: seq<string>)
    decreases |parts|
  {
    parts == [] || (parts[0] != "" && '\\' !in parts[0] && Clean(parts[1..]))
  }

  lemma {:induction false} CleanAll(parts: seq<string>)
    ensures Clean(parts) <==> forall k :: 0 <= k < |parts| ==> parts[k] != "" && '\\' !in parts[k]
    decreases |parts|
  {
    if parts != [] {
      CleanAll(parts[1..]);
      assert forall k :: 1 <= k < |parts| ==> parts[k] == parts[1..][k - 1];
    }
  }

  /** The joined prefixes of the first `1 .. n - 1` components are all in `dirs`. */
  predicate PrefixesIn(parts: seq<string>, n: nat, dirs: set<string>)
    requires n <= |parts|
    decreases n
  {
    n <= 1 || (JoinedPrefix(parts, n - 1) in dirs && PrefixesIn(parts, n - 1, dirs))
  }

  lemma {:induction false} PrefixesInAll(parts: seq<string>, n: nat, dirs: set<string>)
    requires n <= |parts|
    ensures PrefixesIn(parts, n, dirs) <==> forall m :: 1 <= m < n ==> JoinedPrefix(parts, m) in dirs
    decreases n
  {
    if n > 1 {
      PrefixesInAll(parts, n - 1, dirs);
    }
  }

  /** Walking one more piece adds that piece to the running prefix when it is non-empty. */
  lemma PrefixPathStep(sp: seq<string>, j: nat)
    requires j < |sp|
    ensures PrefixPath(sp, j + 1)
         == if sp[j] == "" then PrefixPath(sp, j)
            else if PrefixPath(sp, j) == "" then sp[j]
            else PrefixPath(sp, j) + "\\" + sp[j]
  {
    Seqs.PrefixSnoc(sp, j);
    Seqs.FilterAppend(sp[..j], [sp[j]], IsPart);
    var f := Seqs.Filter(sp[..j], IsPart);
    Seqs.FilterMembers(sp[..j], IsPart);
    JoinEmpty(f, '\\');
    if sp[j] != "" {
      assert Seqs.Filter([sp[j]], IsPart) == [sp[j]];
      JoinSnoc(f, sp[j], '\\');
    } else {
      assert Seqs.Filter([sp[j]], IsPart) == [];
      assert f + [] == f;
    }
  }

  /**
   * `dir_map` filling (first loop of `build_file_tree`): for each path, walk
   * every piece but the last, skip empty pieces, extend the running prefix and
   * record it.
   */
  /** The inner walk of the first loop: record the running prefix at every non-empty piece but the last. */
  method RecordPrefixes(dirMap0: set<string>, parts: seq<string>) returns (dirMap: set<string>)
    requires |parts| >= 1
    ensures dirMap == dirMap0 + PrefixDirs(parts, |parts| - 1)
  {
    dirMap := dirMap0;
    var currentPath := "";
    var j := 0;
    while j < |parts| - 1
      invariant 0 <= j <= |parts| - 1
      invariant currentPath == PrefixPath(parts, j)
      invariant dirMap == dirMap0 + PrefixDirs(parts, j)
    {
      var part := parts[j];
      PrefixPathStep(parts, j);
      if part != "" {
        currentPath := if currentPath == "" then part else currentPath + "\\" + part;
        dirMap := dirMap + {currentPath};
      }
      j := j + 1;
    }
  }

  /**
   * `dir_map` filling (first loop of `build_file_tree`): for each path, walk
   * every piece but the last, skip empty pieces, extend the running prefix and
   * record it.
   */
  method DirectoryPrefixes(paths: seq<string>) returns (dirMap: set<string>)
    ensures dirMap == Dirs(paths)
  {
    dirMap := {};
    var pi := 0;
    while pi < |paths|
      invariant 0 <= pi <= |paths|
      invariant dirMap == Dirs(paths[..pi])
    {
      dirMap := RecordPrefixes(dirMap, Split(paths[pi], '\\'));
      assert paths[..pi + 1][..pi] == paths[..pi];
      pi := pi + 1;
    }
    assert paths[..pi] == paths;
  }

  /** Every prefix that ends at a non-empty piece among the first `m` is recorded. */
  lemma {:induction false} PrefixDirsCover(sp: seq<string>, m: nat)
    requires m <= |sp|
    ensures forall n :: 1 <= n <= |Seqs.Filter(sp[..m], IsPart)| ==>
      JoinedPrefix(Seqs.Filter(sp[..m], IsPart), n) in PrefixDirs(sp, m)
  {
    if m > 0 {
      PrefixDirsCover(sp, m - 1);
      var f0, f := Seqs.Filter(sp[..m - 1], IsPart), Seqs.Filter(sp[..m], IsPart);
      assert sp[..m] == sp[..m - 1] + [sp[m - 1]];
      Seqs.FilterAppend(sp[..m - 1], [sp[m - 1]], IsPart);
      forall n | 1 <= n <= |f| ensures JoinedPrefix(f, n) in PrefixDirs(sp, m) {
        if n <= |f0| {
          assert f[..n] == f0[..n];
          assert JoinedPrefix(f, n) == JoinedPrefix(f0, n);
        } else {
          assert f[..n] == f;
        }
      }
    }
  }

  /** Every prefix of a path's components except the whole is a directory prefix of that path. */
  lemma NonLastPrefixIsDir(path: string, i: nat)
    requires i + 1 < |Components(path)|
    ensures JoinedPrefix(Components(path), i + 1) in DirsOf(path)
  {
    var sp := Split(path, '\\');
    var n := |sp|;
    var f0 := Seqs.Filter(sp[..n - 1], IsPart);
    assert sp == sp[..n - 1] + [sp[n - 1]];
    Seqs.FilterAppend(sp[..n - 1], [sp[n - 1]], IsPart);
    assert Components(path)[..i + 1] == f0[..i + 1];
    assert JoinedPrefix(Components(path), i + 1) == JoinedPrefix(f0, i + 1);
    PrefixDirsCover(sp, n - 1);
  }

  lemma {:induction false} DirsOfIn(paths: seq<string>, pi: nat)
    requires pi < |paths|
    ensures DirsOf(paths[pi]) <= Dirs(paths)
    decreases |paths|
  {
    if pi < |paths| - 1 {
      DirsOfIn(paths[..|paths| - 1], pi);
    }
  }

  /** A joined prefix of separator-free components splits back into that prefix. */
  lemma SplitJoinedPrefix(parts: seq<string>, n: nat)
    requires 1 <= n <= |parts| && Clean(parts)
    ensures Split(JoinedPrefix(parts, n), '\\') == parts[..n]
  {
    CleanAll(parts);
    SplitJoin(parts[..n], '\\');
  }

  /** Extending the running prefix by one component. */
  lemma JoinedPrefixStep(parts: seq<string>, index: nat)
    requires index < |parts| && Clean(parts)
    ensures JoinedPrefix(parts, index) == "" <==> index == 0
    ensures JoinedPrefix(parts, index + 1)
         == if index == 0 then parts[index] else JoinedPrefix(parts, index) + "\\" + parts[index]
  {
    CleanAll(parts);
    JoinSnoc(parts[..index], parts[index], '\\');
    JoinEmpty(parts[..index], '\\');
    Seqs.PrefixSnoc(parts, index);
  }

  /** The node the second loop creates for the prefix ending at component `index` is `NodeFor` that prefix. */
  lemma CreatedNode(parts: seq<string>, index: nat, dirMap: set<string>)
    requires index < |parts|
    requires Clean(parts) && PrefixesIn(parts, |parts|, dirMap)
    ensures var current := JoinedPrefix(parts, index + 1);
      LastComponent(current) == parts[index] && |Split(current, '\\')| - 1 == index
    ensures var current := JoinedPrefix(parts, index + 1);
      index < |parts| - 1 ==> current in dirMap
  {
    SplitJoinedPrefix(parts, index + 1);
    PrefixesInAll(parts, |parts|, dirMap);
  }

  /** The directory prefixes of every input contain the non-last prefixes of its components. */
  lemma NonLastPrefixesAreDirs(paths: seq<string>, pi: nat, dirMap: set<string>)
    requires pi < |paths| && Dirs(paths) <= dirMap
    ensures var parts := Components(paths[pi]);
      Clean(parts) && PrefixesIn(parts, |parts|, dirMap)
  {
    var parts := Components(paths[pi]);
    DirsOfIn(paths, pi);
    forall n | 1 <= n < |parts| ensures JoinedPrefix(parts, n) in dirMap {
      NonLastPrefixIsDir(paths[pi], n - 1);
    }
    CleanAll(parts);
    PrefixesInAll(parts, |parts|, dirMap);
  }

  /** The node map holding `NodeFor` of each key. */
  function NodesFor(keys: set<string>, dirs: set<string>): (m: map<string, FileTreeNode>)
    ensures m.Keys == keys
  {
    map k | k in keys :: NodeFor(k, dirs)
  }

  lemma NodesForInsert(keys: set<string>, c: string, dirs: set<string>)
    ensures NodesFor(keys, dirs)[c := NodeFor(c, dirs)] == NodesFor(keys + {c}, dirs)
  {
  }

  /** `current_path` grows by one component: the component alone at first, then after a `\\`. */
  method ExtendPrefix(parts: seq<string>, index: nat, currentPath: string) returns (next: string)
    requires index < |parts| && Clean(parts)
    requires currentPath == JoinedPrefix(parts, index)
    ensures next == JoinedPrefix(parts, index + 1)
  {
    var part := parts[index];
    JoinedPrefixStep(parts, index);
    next := if currentPath == "" then part else currentPath + "\\" + part;
  }

  lemma PrefixKeysStep(keys0: set<string>, parts: seq<string>, index: nat)
    requires index < |parts|
    ensures keys0 + PrefixKeys(parts, index + 1) == keys0 + PrefixKeys(parts, index) + {JoinedPrefix(parts, index + 1)}
  {
  }

  /**
   * One step of the inner loop: the node for the prefix ending at component
   * `index` is created unless a node with that key exists already.
   */
  method AddPrefixNode(allNodes0: map<string, FileTreeNode>, parts: seq<string>, index: nat,
                       currentPath: string, dirMap: set<string>)
    returns (allNodes: map<string, FileTreeNode>)
    requires index < |parts|
    requires Clean(parts) && PrefixesIn(parts, |parts|, dirMap)
    requires currentPath == JoinedPrefix(parts, index + 1)
    requires allNodes0 == NodesFor(allNodes0.Keys, dirMap)
    ensures allNodes == NodesFor(allNodes0.Keys + {currentPath}, dirMap)
  {
    allNodes := allNodes0;
    var isLast := index == |parts| - 1;
    var isFile := isLast && currentPath !in dirMap;
    if currentPath !in allNodes {
      var node := FileTreeNode(currentPath, parts[index], currentPath, if isFile then "file" else "directory",
                               if isFile then NoChildren else SomeChildren([]), false, index);
      CreatedNode(parts, index, dirMap);
      NodesForInsert(allNodes0.Keys, currentPath, dirMap);
      allNodes := allNodes[currentPath := node];
    } else {
      assert allNodes0.Keys + {currentPath} == allNodes0.Keys;
    }
  }

  /**
   * The inner loop of node creation: each prefix of `parts` gets a node, a
   * file only when it is the whole path and not a directory prefix, unless a
   * node with that key exists already.
   */
  method AddPrefixNodes(allNodes0: map<string, FileTreeNode>, parts: seq<string>, dirMap: set<string>)
    returns (allNodes: map<string, FileTreeNode>)
    requires Clean(parts) && PrefixesIn(parts, |parts|, dirMap)
    requires allNodes0 == NodesFor(allNodes0.Keys, dirMap)
    ensures allNodes == NodesFor(allNodes0.Keys + PrefixKeys(parts, |parts|), dirMap)
  {
    allNodes := allNodes0;
    var currentPath := "";
    var index := 0;
    while index < |parts|
      invariant 0 <= index <= |parts|
      invariant currentPath == JoinedPrefix(parts, index)
      invariant allNodes == NodesFor(allNodes0.Keys + PrefixKeys(parts, index), dirMap)
    {
      currentPath := ExtendPrefix(parts, index, currentPath);
      PrefixKeysStep(allNodes0.Keys, parts, index);
      allNodes := AddPrefixNode(allNodes, parts, index, currentPath, dirMap);
      index := index + 1;
    }
  }

  lemma KeysStep(paths: seq<string>, pi: nat)
    requires pi < |paths|
    ensures Keys(paths[..pi + 1]) == Keys(paths[..pi]) + KeysOf(paths[pi])
  {
    assert paths[..pi + 1][..pi] == paths[..pi];
  }

  /**
   * Node creation (second loop of `build_file_tree`): blank paths and paths
   * without components are skipped; every prefix gets a node unless one
   * exists already.
   */
  method CreateNodes(paths: seq<string>, dirMap: set<string>) returns (allNodes: map<string, FileTreeNode>)
    requires Dirs(paths) <= dirMap
    ensures allNodes == NodesFor(Keys(paths), dirMap)
  {
    allNodes := map[];
    var pi := 0;
    while pi < |paths|
      invariant 0 <= pi <= |paths|
      invariant allNodes == NodesFor(Keys(paths[..pi]), dirMap)
    {
      var path := paths[pi];
      KeysStep(paths, pi);
      if Trim(path) == "" {
        pi := pi + 1;
        continue;
      }
      var parts := Components(path);
      if |parts| == 0 {
        pi := pi + 1;
        continue;
      }
      NonLastPrefixesAreDirs(paths, pi, dirMap);
      allNodes := AddPrefixNodes(allNodes, parts, dirMap);
      pi := pi + 1;
    }
    assert paths[..pi] == paths;
  }

}
