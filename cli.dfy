/**
 * The command-line entry points: `core/cli.rs`, which drops every
 * `--silent` flag and turns `preview <archive>` and `uninstall_app
 * <timestamp>` into front-end events, and `operations/cli.rs`, which does
 * the same for `install` and `uninstall` and relays the sub-commands of a
 * second instance. Each decision is a function from the arguments to the
 * event that is emitted, if any; the channel receive loops are left out.
 */
module Cli {
  import opened Base
  import opened Text
  import Seqs

  /** The archive extensions the application opens (`SUPPORTED_EXTENSIONS` of `menu.rs`). */
  const SupportedExtensions: seq<string> := ["zip", "7z", "rar", "tar", "gz", "bz2", "xz", "cab"]

  const Silent: string := "--silent"

  /** An emitted event's payload. */
  datatype Payload = PathAndTime(path: string, timestamp: int) | Time(t: int) | PathOnly(path: string)

  /** `app.emit(event, payload)`. */
  datatype Emission = Emission(event: string, payload: Payload)

  /** A component that names something: not empty (doubled or trailing separators) and not `.`. */
  predicate IsNamed(component: string) {
    component != "" && component != "."
  }

  /**
   * The components of a Windows path as `Path::components` yields them:
   * the text between `\` and `/` separators, without empty and `.` pieces.
   */
  function Components(path: string): seq<string> {
    Seqs.Filter(Split(ReplaceChar(path, '/', '\\'), '\\'), IsNamed)
  }

  /** `Path::file_name`: the last component, unless there is none or it is `..`. */
  function FileName(path: string): Option<string> {
    var cs := Components(path);
    if cs == [] || cs[|cs| - 1] == ".." then None else Some(cs[|cs| - 1])
  }

  /** The position of the last occurrence of `c` in `s`. */
  function LastIndexOf(s: string, c: char): (r: Option<nat>)
    ensures r.Some? ==> r.value < |s| && s[r.value] == c && c !in s[r.value + 1..]
    ensures r.None? ==> c !in s
  {
    if s == [] then None
    else if s[|s| - 1] == c then Some(|s| - 1)
    else
      var r := LastIndexOf(s[..|s| - 1], c);
      assert s == s[..|s| - 1] + [s[|s| - 1]];
      if r.Some? then
        assert s[r.value + 1..] == s[..|s| - 1][r.value + 1..] + [s[|s| - 1]];
        r
      else r
  }

  /**
   * The extension of a file name (`Path::extension` after `file_name`): the
   * text after the last `.`, unless there is no `.`, the only one is the
   * first character, or the name is `..`.
   */
  function Extension(name: string): Option<string> {
    if name == ".." then None
    else
      match LastIndexOf(name, '.')
      case None => None
      case Some(i) => if i == 0 then None else Some(name[i + 1..])
  }

  /** The extension of a path's file name. */
  function PathExtension(path: string): Option<string> {
    match FileName(path)
    case None => None
    case Some(name) => Extension(name)
  }

  /** The path's extension, lowercased, is one the application opens. */
  predicate IsSupported(path: string) {
    var ext := PathExtension(path);
    ext.Some? && ToLowerAscii(ext.value) in SupportedExtensions
  }

  /**
   * A name other than `..` has the extension `e` exactly when it is a
   * non-empty stem, a dot and `e`, and `e` holds no further dot.
   */
  lemma ExtensionSpec(name: string, stem: string, e: string)
    requires name == stem + "." + e
    ensures Extension(name) == Some(e) <==> stem != "" && '.' !in e && name != ".."
  {
    var i := |stem|;
    assert name[i] == '.';
    assert name[i + 1..] == e;
    var r := LastIndexOf(name, '.');
    if stem != "" && '.' !in e && name != ".." {
      assert r.Some?;
      assert r.value == i;
    }
    if Extension(name) == Some(e) {
      assert r.Some? && r.value > 0 && name[r.value + 1..] == e;
      assert r.value == i by {
        assert |name| == i + 1 + |e|;
      }
      assert '.' !in name[r.value + 1..];
    }
  }

  /** A name with no dot after its first character has no extension. */
  lemma NoExtension(name: string)
    requires name == "" || '.' !in name[1..]
    ensures Extension(name).None?
  {
  }

  /**
   * A name with no separator that is neither empty, `.` nor `..`, placed
   * after a directory and a backslash, is the path's file name.
   */
  lemma FileNameOfJoin(dir: string, name: string)
    requires '/' !in name && '\\' !in name && IsNamed(name) && name != ".."
    ensures FileName(dir + "\\" + name) == Some(name)
  {
    var d := ReplaceChar(dir, '/', '\\');
    ReplaceCharAppend(dir + "\\", name, '/', '\\');
    ReplaceCharAppend(dir, "\\", '/', '\\');
    ReplaceCharAbsent(name, '/', '\\');
    assert ReplaceChar("\\", '/', '\\') == "\\";
    SplitAppend(d, name, '\\');
    SplitNoSep(name, '\\');
    Seqs.FilterAppend(Split(d, '\\'), [name], IsNamed);
  }

  /** `core/cli.rs`: the arguments without any `--silent` flag. */
  predicate NotSilent(arg: string) {
    arg != Silent
  }

  function WithoutSilent(argv: seq<string>): seq<string> {
    Seqs.Filter(argv, NotSilent)
  }

  /** `match_cases` of `core/cli.rs`, at time `now`. */
  function MatchCases(args: seq<string>, now: int): Option<Emission>
    requires |args| >= 3
  {
    if args[1] == "preview" then
      if IsSupported(args[2]) then Some(Emission("preview", PathAndTime(args[2], now))) else None
    else if args[1] == "uninstall_app" then
      match ParseI64(args[2])
      case Some(t) => Some(Emission("uninstall_app", Time(t)))
      case None => None
    else None
  }

  /** The event `cli` of `core/cli.rs` emits for the process arguments `argv` at time `now`. */
  function CoreCli(argv: seq<string>, now: int): Option<Emission> {
    var args := WithoutSilent(argv);
    if |args| == 3 || |args| == 4 then MatchCases(args, now) else None
  }

  /**
   * With `args` the arguments without `--silent`: `preview` is emitted, with
   * the path and the time, exactly for two or three arguments after the
   * program name whose sub-command is `preview` and whose path has a
   * supported extension; `uninstall_app` exactly when the sub-command is
   * `uninstall_app` and the argument is an `i64`; nothing otherwise.
   */
  lemma CoreCliSpec(argv: seq<string>, now: int)
    ensures var args := WithoutSilent(argv);
      && (CoreCli(argv, now).Some? ==> |args| == 3 || |args| == 4)
      && (CoreCli(argv, now) == Some(Emission("preview", PathAndTime(if |args| >= 3 then args[2] else "", now)))
          <==> (|args| == 3 || |args| == 4) && args[1] == "preview" && IsSupported(args[2]))
      && ((|args| == 3 || |args| == 4) && args[1] == "uninstall_app" ==>
            CoreCli(argv, now) == (if ParseI64(args[2]).Some? then Some(Emission("uninstall_app", Time(ParseI64(args[2]).value))) else None))
      && ((|args| >= 3 && args[1] != "preview" && args[1] != "uninstall_app") ==> CoreCli(argv, now).None?)
  {
  }

  /** No `--silent` flag survives the filter, and every other argument does, in order. */
  lemma WithoutSilentSpec(argv: seq<string>)
    ensures Silent !in WithoutSilent(argv)
    ensures forall k :: 0 <= k < |argv| && argv[k] != Silent ==> argv[k] in WithoutSilent(argv)
  {
    Seqs.FilterMembers(argv, NotSilent);
  }

  /** A `--silent` flag anywhere in the arguments changes nothing. */
  lemma SilentAnywhere(before: seq<string>, after: seq<string>, now: int)
    ensures CoreCli(before + [Silent] + after, now) == CoreCli(before + after, now)
  {
    Seqs.FilterAppend(before + [Silent], after, NotSilent);
    Seqs.FilterAppend(before, [Silent], NotSilent);
    Seqs.FilterAppend(before, after, NotSilent);
    assert Seqs.Filter([Silent], NotSilent) == [];
    assert Seqs.Filter(before, NotSilent) + [] == Seqs.Filter(before, NotSilent);
  }

  /** The event `cli` of `operations/cli.rs` emits for the process arguments `argv`. */
  function InitialCli(argv: seq<string>): Option<Emission> {
    if |argv| != 3 then None
    else if argv[1] == "install" then
      if IsSupported(argv[2]) then Some(Emission("install", PathOnly(argv[2]))) else None
    else if argv[1] == "uninstall" then
      match ParseI64(argv[2])
      case Some(t) => Some(Emission("uninstall", Time(t)))
      case None => None
    else None
  }

  /** The sub-commands a second instance sends over the channel. */
  datatype SubCommand = Install(zip_path: string) | InstallWithTimestamp(zip_path: string, timestamp: int) | Uninstall(timestamp: int)

  /** The event the receive loop of `operations/cli.rs` emits for a relayed sub-command. */
  function Relay(cmd: SubCommand): Emission {
    match cmd
    case Install(zip_path) => Emission("install", PathOnly(zip_path))
    case Uninstall(timestamp) => Emission("uninstall", Time(timestamp))
    case InstallWithTimestamp(zip_path, timestamp) => Emission("installWithTimestamp", PathAndTime(zip_path, timestamp))
  }

  /**
   * Only exactly two arguments after the program name are dispatched;
   * `install` emits exactly for a supported archive path and `uninstall`
   * exactly for an `i64` argument, in both cases the event a relayed
   * sub-command with the same argument gives.
   */
  lemma InitialCliSpec(argv: seq<string>)
    ensures InitialCli(argv).Some? ==> |argv| == 3
    ensures |argv| == 3 && argv[1] == "install" ==>
      (InitialCli(argv).Some? <==> IsSupported(argv[2])) &&
      (InitialCli(argv).Some? ==> InitialCli(argv).value == Relay(Install(argv[2])))
    ensures |argv| == 3 && argv[1] == "uninstall" ==>
      (InitialCli(argv).Some? <==> ParseI64(argv[2]).Some?) &&
      (InitialCli(argv).Some? ==> InitialCli(argv).value == Relay(Uninstall(ParseI64(argv[2]).value)))
    ensures |argv| == 3 && argv[1] != "install" && argv[1] != "uninstall" ==> InitialCli(argv).None?
  {
  }

  /** Every `i64` printed as the `uninstall` argument reaches the front end unchanged. */
  lemma UninstallRoundTrip(program: string, t: int)
    requires I64Min <= t <= I64Max
    ensures InitialCli([program, "uninstall", IntToString(t)]) == Some(Relay(Uninstall(t)))
  {
    ParseI64Print(t);
  }

  /** Distinct sub-commands are relayed as distinct events. */
  lemma RelayInjective(a: SubCommand, b: SubCommand)
    ensures Relay(a) == Relay(b) ==> a == b
  {
  }
}
