/**
 * `get_details` of `operations/get_details.rs`: extracts the chosen
 * executable from the archive, asks PowerShell for its version resource and
 * answers the display name, the version, the copyright and the icon. The
 * archive is given by its entry names; the PowerShell run and the icon
 * extraction are parameters.
 */
module ExeDetails {
  import opened Base
  import opened Text

  /** A value of the JSON object PowerShell prints; only strings matter here. */
  datatype Json = JString(s: string) | JOther

  /** The fields of the printed object; a missing field reads as `JOther` (JSON null). */
  type Fields = string -> Json

  /** `get_valid_str`: a string field, trimmed, unless it is blank. */
  function GetValidStr(value: Json): (r: Option<string>)
    ensures r.None? <==> !value.JString? || AllWhitespace(value.s)
    ensures r.Some? ==> r.value == Trim(value.s) && r.value != ""
  {
    TrimEmptyIffBlank(if value.JString? then value.s else "");
    if value.JString? && Trim(value.s) != "" then Some(Trim(value.s)) else None
  }

  /** `Option::or_else`. */
  function OrElse(first: Option<string>, second: Option<string>): Option<string> {
    if first.Some? then first else second
  }

  /** The original file name without its trailing `.exe` suffixes (`trim_end_matches(".exe")`). */
  function WithoutExe(name: Option<string>): Option<string> {
    if name.Some? then Some(TrimEndMatches(name.value, ".exe")) else None
  }

  /** The display name: product name, file description, original file name without `.exe`, file name, or "". */
  function ProductName(fields: Fields): string {
    UnwrapOr(
      OrElse(GetValidStr(fields("product_name")),
        OrElse(GetValidStr(fields("file_description")),
          OrElse(WithoutExe(GetValidStr(fields("original_filename"))),
            GetValidStr(fields("filename"))))),
      "")
  }

  /** The version: product version, file version, or "". */
  function Version(fields: Fields): string {
    UnwrapOr(OrElse(GetValidStr(fields("product_version")), GetValidStr(fields("file_version"))), "")
  }

  /** The copyright, trimmed, or "". */
  function Copyright(fields: Fields): string {
    UnwrapOr(GetValidStr(fields("copyright")), "")
  }

  /** A field holds a usable value. */
  predicate Valid(fields: Fields, name: string) {
    GetValidStr(fields(name)).Some?
  }

  /**
   * The name is the first usable field in the order product name, file
   * description, original file name (with `.exe` trimmed, even when that
   * leaves nothing), file name; it is "" when none is usable.
   */
  lemma ProductNamePrecedence(fields: Fields)
    ensures var name := ProductName(fields);
      && (Valid(fields, "product_name") ==> name == Trim(fields("product_name").s))
      && (!Valid(fields, "product_name") && Valid(fields, "file_description") ==>
            name == Trim(fields("file_description").s))
      && (!Valid(fields, "product_name") && !Valid(fields, "file_description") && Valid(fields, "original_filename") ==>
            name == TrimEndMatches(Trim(fields("original_filename").s), ".exe"))
      && ((!Valid(fields, "product_name") && !Valid(fields, "file_description")
           && !Valid(fields, "original_filename") && Valid(fields, "filename"))
          ==> name == Trim(fields("filename").s))
      && ((!Valid(fields, "product_name") && !Valid(fields, "file_description")
           && !Valid(fields, "original_filename") && !Valid(fields, "filename"))
          ==> name == "")
  {
  }

  /** The version is the usable product version, else the usable file version, else ""; likewise the copyright. */
  lemma VersionPrecedence(fields: Fields)
    ensures Valid(fields, "product_version") ==> Version(fields) == Trim(fields("product_version").s)
    ensures !Valid(fields, "product_version") && Valid(fields, "file_version") ==>
      Version(fields) == Trim(fields("file_version").s)
    ensures !Valid(fields, "product_version") && !Valid(fields, "file_version") ==> Version(fields) == ""
    ensures Copyright(fields) == (if Valid(fields, "copyright") then Trim(fields("copyright").s) else "")
  {
  }

  /** What the PowerShell run gives: a failure with its error output, unparsable output, or the fields. */
  datatype Output = Failed(stderr: string) | Unparsable(error: string) | Parsed(fields: Fields)

  const IconPrefix: string := "data:image/png;base64,"

  function MissingExecutable(executablePath: string): string {
    "Failed to find executable '" + executablePath + "' in archive"
  }

  /** The answer: name, version, copyright and the icon as a data URL, in this order. */
  function Answer(fields: Fields, iconBase64: string): seq<string> {
    [ProductName(fields), Version(fields), Copyright(fields), IconPrefix + iconBase64]
  }

  /**
   * `get_details`: `entries` are the archive's entry names, `output` the
   * PowerShell result and `iconBase64` the encoded icon. Answers the
   * details, with the progress events 1 to 4 reported on the way.
   */
  method GetDetails(executablePath: string, entries: seq<string>, output: Output, iconBase64: string)
    returns (r: Result<seq<string>>, progress: seq<int>)
    ensures executablePath !in entries ==> r == Err(MissingExecutable(executablePath)) && progress == []
    ensures executablePath in entries ==> progress == [1, 2, 3, 4]
    ensures executablePath in entries ==> match output
      case Failed(stderr) => r == Err(stderr)
      case Unparsable(error) => r == Err(error)
      case Parsed(fields) => r == Ok(Answer(fields, iconBase64))
  {
    progress := [];
    if executablePath !in entries {
      return Err(MissingExecutable(executablePath)), progress;
    }
    progress := progress + [1];
    progress := progress + [2];
    progress := progress + [3];
    progress := progress + [4];
    match output {
      case Failed(stderr) => r := Err(stderr);
      case Unparsable(error) => r := Err(error);
      case Parsed(fields) => r := Ok(Answer(fields, iconBase64));
    }
  }
}
