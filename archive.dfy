/**
 * The two pure parts of the 7-Zip wrapper: `sanitize_path`, which turns an
 * archive entry name into a safe relative Windows path, and
 * `parse_7z_list_output`, which reads the entry names out of the
 * fixed-column table printed by `7z l`.
 */
module Archive {
  import opened Text
  import Seqs

  // ---------------------------------------------------------------------
  // sanitize_path
  // ---------------------------------------------------------------------

  /** A component `sanitize_path` keeps: not empty, not `.` or `..`, and no drive colon. */
  predicate SafeComponent(part: string) {
    part != "" && part != "." && part != ".." && ':' !in part
  }

  /** The components of an entry name, with `/` read as `\`. */
  function Components(path: string): seq<string> {
    Split(ReplaceChar(path, '/', '\\'), '\\')
  }

  /** `sanitize_path`: the safe components, in order, joined by `\`. */
  function SanitizePath(path: string): string {
    Join(Seqs.Filter(Components(path), SafeComponent), '\\')
  }

  /** The components `sanitize_path` keeps contain neither separator. */
  lemma KeptComponents(path: string, kept: seq<string>)
    requires kept == Seqs.Filter(Components(path), SafeComponent)
    ensures forall k :: 0 <= k < |kept| ==> SafeComponent(kept[k]) && '\\' !in kept[k] && '/' !in kept[k]
  {
    var s := ReplaceChar(path, '/', '\\');
    ReplaceCharRemoves(path, '/', '\\');
    SplitAbsent(s, '\\', '/');
    SplitPieces(s, '\\');
    Seqs.FilterMembers(Components(path), SafeComponent);
  }

  /**
   * The result contains no `/`; it is empty exactly when no component is
   * kept, and otherwise its `\`-separated components are exactly the kept
   * ones, each safe, in their original order.
   */
  lemma SanitizePathSpec(path: string)
    ensures '/' !in SanitizePath(path)
    ensures var kept := Seqs.Filter(Components(path), SafeComponent);
      && Seqs.IsSubsequence(kept, Components(path))
      && (SanitizePath(path) == "" <==> kept == [])
      && (kept != [] ==> Split(SanitizePath(path), '\\') == kept)
    ensures SanitizePath(path) != "" ==>
      forall k :: 0 <= k < |Split(SanitizePath(path), '\\')| ==> SafeComponent(Split(SanitizePath(path), '\\')[k])
  {
    var kept := Seqs.Filter(Components(path), SafeComponent);
    KeptComponents(path, kept);
    JoinAbsent(kept, '\\', '/');
    Seqs.FilterIsSubsequence(Components(path), SafeComponent);
    JoinEmpty(kept, '\\');
    if kept != [] {
      SplitJoin(kept, '\\');
    }
  }

  /** Sanitising a sanitised path changes nothing. */
  lemma SanitizePathIdempotent(path: string)
    ensures SanitizePath(SanitizePath(path)) == SanitizePath(path)
  {
    var r := SanitizePath(path);
    var kept := Seqs.Filter(Components(path), SafeComponent);
    SanitizePathSpec(path);
    ReplaceCharAbsent(r, '/', '\\');
    if kept == [] {
      assert Components(r) == [""];
      assert Seqs.Filter([""], SafeComponent) == [];
    } else {
      assert Components(r) == kept;
      KeptComponents(path, kept);
      Seqs.FilterKeepsAll(kept, SafeComponent);
    }
  }

  // ---------------------------------------------------------------------
  // parse_7z_list_output
  // ---------------------------------------------------------------------

  /** The column where the file name starts in a `7z l` table row. */
  const NameColumn: nat := 53

  /** The marker of the dashed lines that open and close the table body. */
  const Dashes := "------------------------"

  /** `str::contains` for a string pattern. */
  predicate Contains(s: string, pat: string) {
    pat <= s || (s != [] && Contains(s[1..], pat))
  }

  predicate IsSeparator(line: string) {
    Contains(line, Dashes)
  }

  /** Drops one `\r` at the end. */
  function StripCr(line: string): (r: string)
    ensures r == line || line == r + "\r"
  {
    if line != [] && line[|line| - 1] == '\r' then line[..|line| - 1] else line
  }

  /**
   * `str::lines`: the pieces between `\n`s, a `\r` before each `\n` dropped,
   * and no final empty line after a final `\n`.
   */
  function Lines(s: string): (r: seq<string>)
    ensures forall k :: 0 <= k < |r| ==> '\n' !in r[k]
  {
    var pieces := Split(s, '\n');
    SplitPieces(s, '\n');
    var n := if pieces[|pieces| - 1] == "" then |pieces| - 1 else |pieces|;
    seq(n, k requires 0 <= k < n => if k < |pieces| - 1 then StripCr(pieces[k]) else pieces[k])
  }

  /** The name a table row contributes: its text from the name column, trimmed, with `\` added for a directory. */
  function Entry(line: string): string
    requires |line| >= NameColumn
  {
    var name := Trim(line[NameColumn..]);
    if |line| >= 25 && line[20] == 'D' && !(name != [] && name[|name| - 1] == '\\') then name + "\\" else name
  }

  /** Whether the lines before `i` leave the parser inside the table body: each dashed line toggles it. */
  function InSection(lines: seq<string>, i: nat): bool
    requires i <= |lines|
  {
    if i == 0 then false else InSection(lines, i - 1) != IsSeparator(lines[i - 1])
  }

  /** Whether line `i` contributes an entry. */
  predicate Emits(lines: seq<string>, i: nat)
    requires i < |lines|
  {
    !IsSeparator(lines[i]) && InSection(lines, i)
    && |lines[i]| >= NameColumn && Trim(lines[i][NameColumn..]) != ""
  }

  function EmitsAt(lines: seq<string>): nat -> bool {
    (i: nat) => i < |lines| && Emits(lines, i)
  }

  function EntryAt(lines: seq<string>): nat -> string {
    (i: nat) => if i < |lines| && |lines[i]| >= NameColumn then Entry(lines[i]) else ""
  }

  /** The entries of the contributing lines among the first `n`, in line order. */
  function Listed(lines: seq<string>, n: nat): seq<string>
    requires n <= |lines|
  {
    Seqs.Map(Seqs.Filter(Seqs.Range(0, n), EmitsAt(lines)), EntryAt(lines))
  }

  /** The section flag is the parity of the dashed lines seen so far. */
  function Separators(lines: seq<string>): nat {
    if lines == [] then 0 else Separators(lines[..|lines| - 1]) + (if IsSeparator(lines[|lines| - 1]) then 1 else 0)
  }

  lemma {:induction false} InSectionParity(lines: seq<string>, i: nat)
    requires i <= |lines|
    ensures InSection(lines, i) <==> Separators(lines[..i]) % 2 == 1
  {
    if i > 0 {
      InSectionParity(lines, i - 1);
      Seqs.PrefixOfPrefix(lines, i, i - 1);
    }
  }

  /** An entry is never empty, and a directory row's entry ends with `\`. */
  lemma EntrySpec(line: string)
    requires |line| >= NameColumn && Trim(line[NameColumn..]) != ""
    ensures Entry(line) != ""
    ensures line[20] == 'D' ==> Entry(line)[|Entry(line)| - 1] == '\\'
    ensures line[20] != 'D' ==> Entry(line) == Trim(line[NameColumn..])
    ensures line[20] == 'D' ==> Entry(line) == Trim(line[NameColumn..]) || Entry(line) == Trim(line[NameColumn..]) + "\\"
  {
  }

  lemma RangeSnoc(n: nat)
    ensures Seqs.Range(0, n + 1) == Seqs.Range(0, n) + [n]
  {
  }

  /** One more line adds its entry at the end when it contributes one. */
  lemma ListedStep(lines: seq<string>, i: nat)
    requires i < |lines|
    ensures Listed(lines, i + 1) == Listed(lines, i) + (if Emits(lines, i) then [Entry(lines[i])] else [])
  {
    var p, f := EmitsAt(lines), EntryAt(lines);
    RangeSnoc(i);
    Seqs.FilterAppend(Seqs.Range(0, i), [i], p);
    Seqs.MapAppend(Seqs.Filter(Seqs.Range(0, i), p), Seqs.Filter([i], p), f);
  }

  /** Each listed name comes from a contributing line. */
  lemma ListedFrom(lines: seq<string>, k: nat) returns (i: nat)
    requires k < |Listed(lines, |lines|)|
    ensures i < |lines| && Emits(lines, i) && Listed(lines, |lines|)[k] == Entry(lines[i])
    ensures i == Seqs.Filter(Seqs.Range(0, |lines|), EmitsAt(lines))[k]
  {
    var idx := Seqs.Filter(Seqs.Range(0, |lines|), EmitsAt(lines));
    Seqs.FilterKept(Seqs.Range(0, |lines|), EmitsAt(lines));
    i := idx[k];
    assert EmitsAt(lines)(i);
  }

  /** Each contributing line's entry is listed. */
  lemma ListedHas(lines: seq<string>, i: nat)
    requires i < |lines| && Emits(lines, i)
    ensures Entry(lines[i]) in Listed(lines, |lines|)
  {
    var rng := Seqs.Range(0, |lines|);
    var idx := Seqs.Filter(rng, EmitsAt(lines));
    assert rng[i] == i && EmitsAt(lines)(rng[i]);
    Seqs.FilterKeepsSatisfying(rng, EmitsAt(lines));
    var k :| 0 <= k < |idx| && idx[k] == i;
    assert Listed(lines, |lines|)[k] == EntryAt(lines)(i);
  }

  /** Names are listed in the order of their lines. */
  lemma ListedInOrder(lines: seq<string>, k: nat, l: nat) returns (i: nat, j: nat)
    requires k < l < |Listed(lines, |lines|)|
    ensures i < j < |lines| && Emits(lines, i) && Emits(lines, j)
    ensures Listed(lines, |lines|)[k] == Entry(lines[i]) && Listed(lines, |lines|)[l] == Entry(lines[j])
  {
    var rng := Seqs.Range(0, |lines|);
    var idx := Seqs.Filter(rng, EmitsAt(lines));
    Seqs.FilterIsSubsequence(rng, EmitsAt(lines));
    var ii :| Seqs.SubseqAt(idx, rng, ii);
    i := ListedFrom(lines, k);
    j := ListedFrom(lines, l);
    assert idx[k] == rng[ii[k]] && idx[l] == rng[ii[l]];
  }

  /**
   * A listed name is the entry of a contributing line, and every
   * contributing line's entry is listed; none is empty.
   */
  lemma ListedSpec(lines: seq<string>)
    ensures forall e :: e in Listed(lines, |lines|) <==>
      exists i :: 0 <= i < |lines| && Emits(lines, i) && e == Entry(lines[i])
    ensures "" !in Listed(lines, |lines|)
  {
    var r := Listed(lines, |lines|);
    forall e | e in r ensures exists i :: 0 <= i < |lines| && Emits(lines, i) && e == Entry(lines[i]) {
      var k :| 0 <= k < |r| && r[k] == e;
      var i := ListedFrom(lines, k);
    }
    forall i | 0 <= i < |lines| && Emits(lines, i) ensures Entry(lines[i]) in r {
      ListedHas(lines, i);
    }
    forall k | 0 <= k < |r| ensures r[k] != "" {
      var i := ListedFrom(lines, k);
      EntrySpec(lines[i]);
    }
  }

  /** A dashed line never contributes an entry, whether it opens or closes the body. */
  lemma SeparatorsNotListed(lines: seq<string>, i: nat)
    requires i < |lines| && IsSeparator(lines[i])
    ensures !Emits(lines, i)
    ensures InSection(lines, i + 1) != InSection(lines, i)
  {
  }

  /** One row of the table: contributes its entry when inside the body and the name is not blank. */
  method ParseLine(line: string, section: bool) returns (entry: seq<string>)
    ensures entry == if section && |line| >= NameColumn && Trim(line[NameColumn..]) != "" then [Entry(line)] else []
  {
    entry := [];
    if section && |line| >= NameColumn {
      var filename := Trim(line[NameColumn..]);
      if filename != "" {
        var finalFilename := filename;
        if |line| >= 25 {
          var attr := line[20..25];
          if attr[0] == 'D' && !(finalFilename != [] && finalFilename[|finalFilename| - 1] == '\\') {
            finalFilename := finalFilename + "\\";
          }
        }
        entry := [finalFilename];
      }
    }
  }

  /** `parse_7z_list_output`: walks the lines, toggling the section at each dashed line. */
  method Parse7zListOutput(output: string) returns (result: seq<string>)
    ensures result == Listed(Lines(output), |Lines(output)|)
  {
    var lines := Lines(output);
    result := [];
    var section := false;
    var i := 0;
    while i < |lines|
      invariant i <= |lines|
      invariant section == InSection(lines, i)
      invariant result == Listed(lines, i)
    {
      ListedStep(lines, i);
      var line := lines[i];
      if IsSeparator(line) {
        section := !section;
      } else {
        var entry := ParseLine(line, section);
        result := result + entry;
      }
      i := i + 1;
    }
  }
}
