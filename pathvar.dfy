/**
 * The PATH environment variable as a `;`-separated list of directories, and
 * the two registry operations that edit it: adding a directory unless some
 * segment already names it (after trimming both), and removing every segment
 * that names it. The registry itself is an oracle: the value that was read, or
 * the reason nothing could be read.
 */
module PathVar {
  import opened Base
  import opened Text
  import Seqs
  import opened WinPaths

  /** The `;`-separated segments of a PATH value. */
  function Segments(path: string): (segs: seq<string>)
    ensures |segs| >= 1
  {
    Split(path, ';')
  }

  /** Some segment, trimmed, equals the trimmed directory. */
  predicate Lists(path: string, dir: string) {
    exists k :: 0 <= k < |Segments(path)| && Trim(Segments(path)[k]) == Trim(dir)
  }

  /** The segments that do not name `dir`, verbatim and in order. */
  function Kept(path: string, dir: string): seq<string> {
    Seqs.Filter(Segments(path), (p: string) => Trim(p) != Trim(dir))
  }

  /** The value written back by `remove_from_path`: the kept segments joined with `;`. */
  function WithoutDir(path: string, dir: string): string {
    Join(Kept(path, dir), ';')
  }

  /**
   * The value `add_to_path` writes, or None when the directory is already
   * listed. A new value keeps the old one as a prefix and, for a directory
   * without `;`, reads back as the old segments followed by the directory.
   */
  function AddedValue(current: string, dir: string): (r: Option<string>)
    ensures r.None? <==> Lists(current, dir)
    ensures r.Some? ==> current + ";" <= r.value
    ensures r.Some? && ';' !in dir ==> Segments(r.value) == Segments(current) + [dir] && Lists(r.value, dir)
  {
    if Lists(current, dir) then None
    else
      var v := current + ";" + dir;
      assert ';' !in dir ==> Segments(v) == Segments(current) + [dir] && Lists(v, dir) by {
        if ';' !in dir {
          SegmentsOfAppend(current, dir);
          assert Segments(v)[|Segments(current)|] == dir;
        }
      }
      Some(v)
  }

  /** A registry write of the PATH value. */
  datatype PathWrite = PathWrite(hive: Hive, key: string, name: string, value: string)

  /** The answer of the registry: the key could not be opened or created, the value could not be read, or its text. */
  datatype PathRead = KeyUnavailable | ValueUnreadable | Value(text: string)

  /** The outcome of one PATH edit: success or error, and the writes attempted, in order. */
  datatype PathEdit = PathEdit(result: Result<()>, writes: seq<PathWrite>)

  function WriteFor(currentUserOnly: bool, value: string): PathWrite {
    var key := EnvironmentKey(currentUserOnly);
    PathWrite(key.0, key.1, PathValueName(currentUserOnly), value)
  }

  /**
   * `add_to_path`: opening the key or reading the value failing is an error;
   * otherwise the directory is appended unless already listed. `writeOk` is
   * whether the registry accepted the write.
   */
  function AddToPath(dir: string, currentUserOnly: bool, read: PathRead, writeOk: bool): (e: PathEdit)
    ensures !read.Value? ==> e.result.Err? && e.writes == []
    ensures read.Value? && Lists(read.text, dir) ==> e == PathEdit(Ok(()), [])
    ensures read.Value? && !Lists(read.text, dir) ==>
      e.writes == [WriteFor(currentUserOnly, read.text + ";" + dir)] && (e.result.Ok? <==> writeOk)
  {
    match read
    case KeyUnavailable => PathEdit(Err("cannot open the environment key"), [])
    case ValueUnreadable => PathEdit(Err("cannot read the PATH value"), [])
    case Value(current) =>
      match AddedValue(current, dir)
      case None => PathEdit(Ok(()), [])
      case Some(v) => PathEdit(if writeOk then Ok(()) else Err("cannot write the PATH value"), [WriteFor(currentUserOnly, v)])
  }

  /**
   * `remove_from_path`: opening the key failing is an error; a value that
   * cannot be read is skipped without a write; otherwise the filtered value is
   * written back, even when it is unchanged.
   */
  function RemoveFromPath(dir: string, currentUserOnly: bool, read: PathRead, writeOk: bool): (e: PathEdit)
    ensures read.KeyUnavailable? ==> e.result.Err? && e.writes == []
    ensures read.ValueUnreadable? ==> e == PathEdit(Ok(()), [])
    ensures read.Value? ==> (e.writes == [WriteFor(currentUserOnly, WithoutDir(read.text, dir))]
                             && (e.result.Ok? <==> writeOk))
  {
    match read
    case KeyUnavailable => PathEdit(Err("cannot open the environment key"), [])
    case ValueUnreadable => PathEdit(Ok(()), [])
    case Value(current) =>
      PathEdit(if writeOk then Ok(()) else Err("cannot write the PATH value"), [WriteFor(currentUserOnly, WithoutDir(current, dir))])
  }

  /** Appending a directory without `;` adds exactly one segment, the directory itself. */
  lemma SegmentsOfAppend(current: string, dir: string)
    requires ';' !in dir
    ensures Segments(current + ";" + dir) == Segments(current) + [dir]
  {
    SplitAppend(current, dir, ';');
    SplitNoSep(dir, ';');
  }

  /**
   * Adding is idempotent: after a write the directory is listed, and a second
   * call asks for no write. A directory that itself contains `;` reads back
   * as several segments, which is why it is excluded here.
   */
  lemma AddIdempotent(current: string, dir: string)
    requires ';' !in dir
    ensures var v := if AddedValue(current, dir).Some? then AddedValue(current, dir).value else current;
      Lists(v, dir) && AddedValue(v, dir).None?
  {
    if !Lists(current, dir) {
      var v := current + ";" + dir;
      SegmentsOfAppend(current, dir);
      var k := |Segments(current)|;
      assert Segments(v)[k] == dir;
    }
  }

  /**
   * After removal no kept segment names the directory; all kept segments are
   * original segments, in order, and every segment not naming it is kept,
   * each occurrence.
   */
  lemma RemoveDropsTarget(path: string, dir: string)
    ensures forall k :: 0 <= k < |Kept(path, dir)| ==> Trim(Kept(path, dir)[k]) != Trim(dir)
    ensures Seqs.IsSubsequence(Kept(path, dir), Segments(path))
    ensures forall x :: multiset(Kept(path, dir))[x] == if Trim(x) != Trim(dir) then multiset(Segments(path))[x] else 0
  {
    Seqs.FilterMultiset(Segments(path), (p: string) => Trim(p) != Trim(dir));
    Seqs.FilterMembers(Segments(path), (p: string) => Trim(p) != Trim(dir));
    Seqs.FilterIsSubsequence(Segments(path), (p: string) => Trim(p) != Trim(dir));
  }

  /** The written value reads back as exactly the kept segments. */
  lemma RemoveReadsBack(path: string, dir: string)
    ensures Kept(path, dir) != [] ==> Segments(WithoutDir(path, dir)) == Kept(path, dir)
    ensures Kept(path, dir) == [] ==> WithoutDir(path, dir) == ""
  {
    var kept := Kept(path, dir);
    if kept != [] {
      Seqs.FilterMembers(Segments(path), (p: string) => Trim(p) != Trim(dir));
      SplitPieces(path, ';');
      forall k | 0 <= k < |kept| ensures ';' !in kept[k] {
        var j :| 0 <= j < |Segments(path)| && Segments(path)[j] == kept[k];
      }
      SplitJoin(kept, ';');
    }
  }

  /** Unless every segment named it (or the directory trims to ""), the directory is no longer listed after removal. */
  lemma RemoveUnlists(path: string, dir: string)
    requires Kept(path, dir) != [] || Trim(dir) != ""
    ensures !Lists(WithoutDir(path, dir), dir)
  {
    RemoveDropsTarget(path, dir);
    RemoveReadsBack(path, dir);
    if Kept(path, dir) == [] {
      assert Segments("") == [""];
      assert Trim("") == "";
    }
  }

  /** If no segment names the directory, removal writes back the value unchanged. */
  lemma RemoveUnlistedIsIdentity(path: string, dir: string)
    requires !Lists(path, dir)
    ensures WithoutDir(path, dir) == path
  {
    var segs := Segments(path);
    forall k | 0 <= k < |segs| ensures Trim(segs[k]) != Trim(dir) {
    }
    Seqs.FilterKeepsAll(segs, (p: string) => Trim(p) != Trim(dir));
    JoinSplit(path, ';');
  }

  /** Removing a directory right after adding it restores the previous value. */
  lemma RemoveUndoesAdd(current: string, dir: string)
    requires ';' !in dir
    requires AddedValue(current, dir).Some?
    ensures WithoutDir(AddedValue(current, dir).value, dir) == current
  {
    SegmentsOfAppend(current, dir);
    var keep := (p: string) => Trim(p) != Trim(dir);
    Seqs.FilterAppend(Segments(current), [dir], keep);
    assert Seqs.Filter([dir], keep) == [];
    assert Kept(current + ";" + dir, dir) == Kept(current, dir);
    RemoveUnlistedIsIdentity(current, dir);
  }
}
