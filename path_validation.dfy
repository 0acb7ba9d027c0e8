/**
 * The install-directory checks of `operations/validation.rs`:
 * `validate_path`, which accepts only drive-rooted paths, collapses runs of
 * backslashes, drops trailing backslashes and then asks the file system
 * whether the result is a directory; and `check_path_empty`. The file
 * system's answers are oracle parameters.
 */
module PathValidation {
  import opened Base
  import opened Text
  import Seqs

  const BadFormat: string := "Invalid drive letter or path format"
  const NotDirectory: string := "Path exists but is not a directory"
  const NoDirectory: string := "Directory does not exist: "
  const NotEmpty: string := "Directory is not empty"

  /** `is_valid_path_format`: an ASCII letter, `:` and `\` as the first three characters. */
  predicate IsValidPathFormat(path: string) {
    |path| >= 3 && IsAsciiAlpha(path[0]) && path[1] == ':' && path[2] == '\\'
  }

  predicate NoDoubleBackslash(s: string) {
    forall i :: 0 <= i < |s| - 1 ==> !(s[i] == '\\' && s[i + 1] == '\\')
  }

  predicate NotBackslash(c: char) {
    c != '\\'
  }

  /** The `fold` of `validate_path`: a backslash is pushed only when the text so far does not end with one. */
  function Collapse(path: string): (acc: string)
    ensures |acc| <= |path|
    ensures path != [] ==> acc != [] && acc[|acc| - 1] == path[|path| - 1]
  {
    if path == [] then []
    else
      var acc := Collapse(path[..|path| - 1]);
      var c := path[|path| - 1];
      if c == '\\' && acc != [] && acc[|acc| - 1] == '\\' then acc else acc + [c]
  }

  /** The normalised path: collapsed, then without trailing backslashes (`trim_end_matches('\\')`). */
  function Normalise(path: string): string {
    TrimEndChar(Collapse(path), '\\')
  }

  /** What the file system reports for the normalised path (`tokio::fs::metadata`). */
  datatype Metadata = Directory | File | Missing(reason: string)

  /** `validate_path`. */
  function ValidatePath(path: string, metadata: string -> Metadata): Result<string> {
    if !IsValidPathFormat(path) then Err(BadFormat)
    else
      var normalised := Normalise(path);
      match metadata(normalised)
      case Directory => Ok(normalised)
      case File => Err(NotDirectory)
      case Missing(reason) => Err(NoDirectory + reason)
  }

  /**
   * A path of the wrong format is rejected whatever the file system holds;
   * an accepted path is answered normalised, and the file system reports a
   * directory there.
   */
  lemma ValidatePathSpec(path: string, metadata: string -> Metadata, other: string -> Metadata)
    ensures !IsValidPathFormat(path) ==> ValidatePath(path, metadata) == Err(BadFormat) == ValidatePath(path, other)
    ensures ValidatePath(path, metadata).Ok? <==> IsValidPathFormat(path) && metadata(Normalise(path)) == Directory
    ensures ValidatePath(path, metadata).Ok? ==> ValidatePath(path, metadata).value == Normalise(path)
  {
  }

  /** The fold leaves no two backslashes in a row. */
  lemma {:induction false} CollapseNoDouble(path: string)
    ensures NoDoubleBackslash(Collapse(path))
  {
    if path != [] {
      CollapseNoDouble(path[..|path| - 1]);
    }
  }

  /** The fold keeps every other character, in order. */
  lemma {:induction false} CollapseKeepsOthers(path: string)
    ensures Seqs.Filter(Collapse(path), NotBackslash) == Seqs.Filter(path, NotBackslash)
  {
    if path != [] {
      var init := path[..|path| - 1];
      var c := path[|path| - 1];
      CollapseKeepsOthers(init);
      assert path == init + [c];
      Seqs.FilterAppend(init, [c], NotBackslash);
      if !(c == '\\' && Collapse(init) != [] && Collapse(init)[|Collapse(init)| - 1] == '\\') {
        Seqs.FilterAppend(Collapse(init), [c], NotBackslash);
      }
    }
  }

  /** The fold changes nothing in a text with no two backslashes in a row. */
  lemma {:induction false} CollapseFixed(s: string)
    requires NoDoubleBackslash(s)
    ensures Collapse(s) == s
  {
    if s != [] {
      var init := s[..|s| - 1];
      assert NoDoubleBackslash(init) by {
        forall i | 0 <= i < |init| - 1 ensures !(init[i] == '\\' && init[i + 1] == '\\') {
          assert init[i] == s[i] && init[i + 1] == s[i + 1];
        }
      }
      CollapseFixed(init);
      assert s == init + [s[|s| - 1]];
    }
  }

  /** Filtering away backslashes from backslashes only leaves nothing. */
  lemma {:induction false} FilterBackslashes(s: string)
    requires forall i :: 0 <= i < |s| ==> s[i] == '\\'
    ensures Seqs.Filter(s, NotBackslash) == []
  {
    if s != [] {
      FilterBackslashes(s[1..]);
    }
  }

  /**
   * The normalised path has no two backslashes in a row and does not end
   * with one, and it holds every other character of the input, in order.
   */
  lemma NormaliseSpec(path: string)
    ensures var n := Normalise(path);
      && NoDoubleBackslash(n)
      && (n == [] || n[|n| - 1] != '\\')
      && Seqs.Filter(n, NotBackslash) == Seqs.Filter(path, NotBackslash)
  {
    var c := Collapse(path);
    var n := Normalise(path);
    CollapseNoDouble(path);
    CollapseKeepsOthers(path);
    assert c == n + c[|n|..];
    FilterBackslashes(c[|n|..]);
    Seqs.FilterAppend(n, c[|n|..], NotBackslash);
    assert n + [] == n;
  }

  /** Normalising twice is normalising once. */
  lemma NormaliseIdempotent(path: string)
    ensures Normalise(Normalise(path)) == Normalise(path)
  {
    var n := Normalise(path);
    NormaliseSpec(path);
    CollapseFixed(n);
  }

  /**
   * What `read_dir` gives for a path: the directory cannot be opened, or
   * the answers of successive `next_entry` calls, each an entry name or an
   * error.
   */
  datatype DirRead = Unopenable | Stream(answers: seq<Result<string>>)

  /** The names the directory listing would show. */
  function Listed(dir: DirRead): set<string> {
    match dir
    case Unopenable => {}
    case Stream(answers) => set k | 0 <= k < |answers| && answers[k].Ok? :: answers[k].value
  }

  /**
   * `check_path_empty`: a directory that cannot be opened passes; otherwise
   * only the first `next_entry` is read, and an entry is the error that the
   * directory is not empty, while a failing read is passed on by `?`.
   */
  function CheckPathEmpty(dir: DirRead): Result<()> {
    match dir
    case Unopenable => Ok(())
    case Stream(answers) =>
      if answers == [] then Ok(())
      else
        match answers[0]
        case Err(e) => Err(e)
        case Ok(_) => Err(NotEmpty)
  }

  /**
   * A path passes only when the listing shows no entry; a listing whose
   * first read shows an entry fails as not empty, and a failing first read
   * fails with its own error. No answer after the first is consulted.
   */
  lemma CheckPathEmptySpec(dir: DirRead, other: seq<Result<string>>)
    ensures CheckPathEmpty(dir).Ok? ==> Listed(dir) == {}
    ensures CheckPathEmpty(dir).Ok? <==> dir.Unopenable? || dir.answers == []
    ensures dir.Stream? && dir.answers != [] && dir.answers[0].Ok? ==> CheckPathEmpty(dir) == Err(NotEmpty)
    ensures dir.Stream? && dir.answers != [] && dir.answers[0].Err? ==> CheckPathEmpty(dir) == Err(dir.answers[0].error)
    ensures dir.Stream? && dir.answers != [] ==> CheckPathEmpty(Stream(dir.answers[..1] + other)) == CheckPathEmpty(dir)
  {
    if dir.Stream? && dir.answers != [] {
      assert (dir.answers[..1] + other)[0] == dir.answers[0];
    }
  }
}
