/**
 * Installation of a portable app from a zip archive, in both versions of the
 * back-end: `operations/installation.rs` and the older top-level
 * `installation.rs`. Both pick the app directory, detect whether the archive
 * holds a single root folder, extract every file entry below the app
 * directory (dropping that root folder), compute the executable's full path
 * and then create the requested shortcuts and uninstall registry entries.
 * The newer version also reports progress and appends the app to the app
 * list. The archive is given by its entry names; the settings (system drive,
 * user name), the desktop folder and the running executable's path are
 * parameters.
 */
module Installation {
  import opened Base
  import opened Text
  import Seqs
  import WinPaths
  import LinkList
  import Records
  import opened Effects

  /** The progress event of the newer version. */
  const Event: string := "installation"

  /** The error when the desktop folder is unknown. */
  const NoDesktop: string := "Failed to get desktop directory"

  // ---------------------------------------------------------------------
  // Single-root detection
  // ---------------------------------------------------------------------

  /** `name.split('/').next()`: the text before the first `/`. */
  function FirstComponent(name: string): (c: string)
    ensures c <= name && '/' !in c
    ensures |c| < |name| ==> name[|c|] == '/'
  {
    if name == [] || name[0] == '/' then ""
    else
      Seqs.Cons(name);
      [name[0]] + FirstComponent(name[1..])
  }

  /** The first component is the first piece of the split at `/`. */
  lemma {:induction false} FirstComponentIsSplitHead(name: string)
    ensures FirstComponent(name) == Split(name, '/')[0]
  {
    if name != [] && name[0] != '/' {
      FirstComponentIsSplitHead(name[1..]);
    }
  }

  /** `root_entries`: the distinct non-empty first components of the entry names. */
  function Roots(names: seq<string>): set<string> {
    if names == [] then {}
    else
      var root := FirstComponent(names[|names| - 1]);
      Roots(names[..|names| - 1]) + (if root != "" then {root} else {})
  }

  /** A root is a non-empty first component of some entry, and every such component is a root. */
  lemma {:induction false} RootsMembers(names: seq<string>)
    ensures forall r :: r in Roots(names) <==>
      (r != "" && exists i :: 0 <= i < |names| && FirstComponent(names[i]) == r)
  {
    if names != [] {
      var n := |names| - 1;
      var prefix := names[..n];
      RootsMembers(prefix);
      forall r ensures r in Roots(names) <==>
        (r != "" && exists i :: 0 <= i < |names| && FirstComponent(names[i]) == r)
      {
        if r in Roots(prefix) {
          var i :| 0 <= i < |prefix| && FirstComponent(prefix[i]) == r;
          assert names[i] == prefix[i];
        }
        if r != "" && exists i :: 0 <= i < |names| && FirstComponent(names[i]) == r {
          var i :| 0 <= i < |names| && FirstComponent(names[i]) == r;
          if i < n {
            assert prefix[i] == names[i];
          }
        }
      }
    }
  }

  /** The last non-empty first component, if any. */
  function LastRoot(names: seq<string>): Option<string> {
    if names == [] then None
    else
      var root := FirstComponent(names[|names| - 1]);
      if root != "" then Some(root) else LastRoot(names[..|names| - 1])
  }

  lemma {:induction false} LastRootIsRoot(names: seq<string>)
    ensures LastRoot(names).Some? <==> Roots(names) != {}
    ensures LastRoot(names).Some? ==> LastRoot(names).value in Roots(names)
  {
    if names != [] {
      LastRootIsRoot(names[..|names| - 1]);
    }
  }

  /** A set of one element is the singleton of any of its members. */
  lemma Singleton(s: set<string>, x: string)
    requires |s| == 1 && x in s
    ensures s == {x}
  {
    assert |s - {x}| == 0;
  }

  /** `single_root`: the root when there is exactly one. */
  function SingleRoot(names: seq<string>): Option<string> {
    if |Roots(names)| == 1 then LastRoot(names) else None
  }

  /** There is a single root `r` exactly when the set of roots is `{r}`. */
  lemma SingleRootSpec(names: seq<string>, r: string)
    ensures SingleRoot(names) == Some(r) <==> Roots(names) == {r}
    ensures SingleRoot(names).Some? <==> |Roots(names)| == 1
  {
    LastRootIsRoot(names);
    if |Roots(names)| == 1 {
      Singleton(Roots(names), LastRoot(names).value);
    }
  }

  /** The root-detection loop of `installation`: collects the roots in a set, then takes its only element. */
  method FindSingleRoot(names: seq<string>) returns (single: Option<string>)
    ensures single == SingleRoot(names)
  {
    var rootEntries: set<string> := {};
    for i := 0 to |names|
      invariant rootEntries == Roots(names[..i])
    {
      assert names[..i + 1][..i] == names[..i];
      var root := FirstComponent(names[i]);
      if root != "" {
        rootEntries := rootEntries + {root};
      }
    }
    assert names[..|names|] == names;
    if |rootEntries| == 1 {
      var root :| root in rootEntries;
      SingleRootSpec(names, root);
      Singleton(rootEntries, root);
      single := Some(root);
    } else {
      single := None;
    }
  }

  // ---------------------------------------------------------------------
  // Destination of each entry
  // ---------------------------------------------------------------------

  /** The name with `{root}/` removed, when there is a single root and the name starts with it. */
  function WithoutRoot(name: string, single: Option<string>): string {
    if single.Some? && single.value + "/" <= name then name[|single.value| + 1..] else name
  }

  /**
   * Under a single root `r`, every entry is the root itself, lies below
   * `r/` (and then loses exactly that prefix), or has an empty first
   * component (and is then joined unchanged).
   */
  lemma SingleRootLayout(names: seq<string>, r: string, i: nat)
    requires SingleRoot(names) == Some(r) && i < |names|
    ensures var n := names[i];
      || (FirstComponent(n) == "" && WithoutRoot(n, Some(r)) == n)
      || n == r
      || (n == r + "/" + WithoutRoot(n, Some(r)) && |WithoutRoot(n, Some(r))| < |n|)
  {
    var n := names[i];
    SingleRootSpec(names, r);
    RootsMembers(names);
    assert r in Roots(names);
    var c := FirstComponent(n);
    if c == "" {
      var j :| 0 <= j < |names| && FirstComponent(names[j]) == r;
      assert r != "" && '/' !in r;
      assert n == [] || (n[0] == '/' && r[0] != '/');
    } else {
      assert c in Roots(names);
      if |c| < |n| {
        assert r + "/" <= n;
      }
    }
  }

  /** `name.ends_with('/')`: a directory entry, which is not extracted. */
  predicate IsDirectoryEntry(name: string) {
    |name| > 0 && name[|name| - 1] == '/'
  }

  predicate IsFileEntry(name: string) {
    !IsDirectoryEntry(name)
  }

  /** The record of one extracted entry: written to its name without the root, below the app directory. */
  function Extraction(appPath: string, single: Option<string>): string -> Effect {
    name => ExtractEntry(name, appPath, WithoutRoot(name, single))
  }

  /** The extraction loop's records, entry by entry. */
  function Extracted(names: seq<string>, appPath: string, single: Option<string>): seq<Effect> {
    if names == [] then []
    else
      (if IsDirectoryEntry(names[0]) then [] else [Extraction(appPath, single)(names[0])])
        + Extracted(names[1..], appPath, single)
  }

  /** One record per file entry, in archive order: the directory entries are skipped. */
  lemma {:induction false} ExtractedSpec(names: seq<string>, appPath: string, single: Option<string>)
    ensures Extracted(names, appPath, single) == Seqs.Map(Seqs.Filter(names, IsFileEntry), Extraction(appPath, single))
  {
    if names != [] {
      ExtractedSpec(names[1..], appPath, single);
      var f := Extraction(appPath, single);
      var head := if IsDirectoryEntry(names[0]) then [] else [names[0]];
      Seqs.MapAppend(head, Seqs.Filter(names[1..], IsFileEntry), f);
    }
  }

  /** The extraction loop of `installation`. */
  method ExtractEntries(effects: seq<Effect>, names: seq<string>, appPath: string, single: Option<string>)
    returns (effects': seq<Effect>)
    ensures effects' == effects + Extracted(names, appPath, single)
  {
    effects' := effects;
    assert names[0..] == names;
    for i := 0 to |names|
      invariant effects' + Extracted(names[i..], appPath, single) == effects + Extracted(names, appPath, single)
    {
      assert names[i..][1..] == names[i + 1..];
      var name := names[i];
      var step := if IsDirectoryEntry(name) then [] else [ExtractEntry(name, appPath, WithoutRoot(name, single))];
      Seqs.Assoc(effects', step, Extracted(names[i + 1..], appPath, single));
      effects' := effects' + step;
    }
    assert effects' + [] == effects';
  }

  // ---------------------------------------------------------------------
  // The executable's full path
  // ---------------------------------------------------------------------

  /** `get_full_executable_path`. */
  function FullExecutablePath(appPath: string, executablePath: string, single: Option<string>): string {
    appPath + "\\" + ReplaceChar(WithoutRoot(executablePath, single), '/', '\\')
  }

  /**
   * The full path is the app directory, a `\`, and the executable's path in
   * Windows form, with no `/` left; with no single root, or when the path
   * does not start with the root, nothing is stripped.
   */
  lemma FullExecutablePathShape(appPath: string, exe: string, single: Option<string>)
    ensures var p := FullExecutablePath(appPath, exe, single);
      && appPath + "\\" <= p
      && '/' !in p[|appPath| + 1..]
      && (!(single.Some? && single.value + "/" <= exe) ==> p == appPath + "\\" + ReplaceChar(exe, '/', '\\'))
  {
    var p := FullExecutablePath(appPath, exe, single);
    var tail := ReplaceChar(WithoutRoot(exe, single), '/', '\\');
    assert p[|appPath| + 1..] == tail;
    ReplaceCharRemoves(WithoutRoot(exe, single), '/', '\\');
  }

  /**
   * Under a single root `r` that prefixes the executable's path, the path
   * after the app directory is the Windows form of the executable's path
   * with its first component `r` removed: putting `r` back gives it whole.
   */
  lemma FullExecutablePathStripped(appPath: string, exe: string, r: string)
    requires r + "/" <= exe
    ensures var p := FullExecutablePath(appPath, exe, Some(r));
      ReplaceChar(exe, '/', '\\') == ReplaceChar(r, '/', '\\') + "\\" + p[|appPath| + 1..]
  {
    var p := FullExecutablePath(appPath, exe, Some(r));
    var rest := exe[|r| + 1..];
    assert p[|appPath| + 1..] == ReplaceChar(rest, '/', '\\');
    assert exe == r + "/" + rest;
    ReplaceCharAppend(r, "/", '/', '\\');
    ReplaceCharAppend(r + "/", rest, '/', '\\');
  }

  /**
   * The shortcut target is where the executable's entry was written: the
   * extraction records the executable with the same root-free name that
   * the full path spells with backslashes.
   */
  lemma ExecutableIsExtracted(names: seq<string>, appPath: string, exe: string, single: Option<string>)
    requires exe in names && IsFileEntry(exe)
    ensures ExtractEntry(exe, appPath, WithoutRoot(exe, single)) in Extracted(names, appPath, single)
    ensures FullExecutablePath(appPath, exe, single) == appPath + "\\" + ReplaceChar(WithoutRoot(exe, single), '/', '\\')
  {
    ExtractedSpec(names, appPath, single);
    Seqs.FilterMembers(names, IsFileEntry);
    var i :| 0 <= i < |names| && names[i] == exe;
    var kept := Seqs.Filter(names, IsFileEntry);
    assert exe in kept;
    var k :| 0 <= k < |kept| && kept[k] == exe;
    assert Seqs.Map(kept, Extraction(appPath, single))[k] == ExtractEntry(exe, appPath, WithoutRoot(exe, single));
  }

  // ---------------------------------------------------------------------
  // Shortcuts and registry entries
  // ---------------------------------------------------------------------

  /** What the user asked for, in either version's configuration. */
  datatype Request = Request(
    name: string,
    version: string,
    publisher: string,
    current_user_only: bool,
    desktop: bool,
    start_menu: bool,
    registry: bool)

  /** The start-menu shortcut to the executable, when requested. */
  function StartMenuStep(q: Request, exe: string, drive: string, user: string): seq<Effect> {
    Opt(q.start_menu, CreateShortcut(WinPaths.StartMenuLink(drive, user, q.name, q.current_user_only), exe))
  }

  /** A desktop shortcut is requested but the desktop folder is unknown. */
  predicate DesktopMissing(q: Request, desktopDir: Option<string>) {
    q.desktop && desktopDir.None?
  }

  /** The desktop shortcut to the executable, when requested and the desktop folder is known. */
  function DesktopStep(q: Request, exe: string, desktopDir: Option<string>): seq<Effect> {
    if q.desktop && desktopDir.Some? then [CreateShortcut(WinPaths.DesktopLink(desktopDir.value, q.name), exe)] else []
  }

  /** The values `create_registry_entries` sets in the uninstall key, in order. */
  function UninstallValues(q: Request, exe: string, appPath: string, uninstallString: string): seq<(string, RegValue)> {
    [("Comments", Text(WinPaths.InstalledComment)),
     ("DisplayIcon", Text(exe)),
     ("DisplayName", Text(q.name)),
     ("DisplayVersion", Text(q.version)),
     ("InstallLocation", Text(appPath)),
     ("NoModify", Dword(1)),
     ("NoRemove", Dword(0)),
     ("NoRepair", Dword(1)),
     ("Publisher", Text(q.publisher)),
     ("UninstallString", Text(uninstallString))]
  }

  /** The writes of the uninstall values into the app's uninstall key. */
  function RegistryWrites(q: Request, exe: string, appPath: string, uninstallString: string): seq<Effect> {
    var (hive, key) := WinPaths.UninstallKey(q.current_user_only, q.name);
    Seqs.Map(UninstallValues(q, exe, appPath, uninstallString), (v: (string, RegValue)) => SetRegistryValue(hive, key, v.0, v.1))
  }

  /** The registry writes, when requested. */
  function RegistryStep(q: Request, exe: string, appPath: string, uninstallString: string): seq<Effect> {
    if q.registry then RegistryWrites(q, exe, appPath, uninstallString) else []
  }

  /**
   * Every write goes to the uninstall key that validation later reads, the
   * first one stores the installer's comment there and no later one
   * overwrites it, and the icon and location are the executable and the app
   * directory.
   */
  lemma RegistryWritesSpec(q: Request, exe: string, appPath: string, uninstallString: string)
    ensures var w := RegistryWrites(q, exe, appPath, uninstallString);
      var (hive, key) := WinPaths.UninstallKey(q.current_user_only, q.name);
      && |w| == 10
      && (forall k :: 0 <= k < |w| ==> w[k].SetRegistryValue? && w[k].hive == hive && w[k].key == key)
      && w[0].name == "Comments" && w[0].value == Text(WinPaths.InstalledComment)
      && (forall k :: 1 <= k < |w| ==> w[k].name != "Comments")
      && SetRegistryValue(hive, key, "DisplayIcon", Text(exe)) in w
      && SetRegistryValue(hive, key, "InstallLocation", Text(appPath)) in w
  {
    var w := RegistryWrites(q, exe, appPath, uninstallString);
    assert w[1].name == "DisplayIcon";
    assert w[4].name == "InstallLocation";
  }

  /**
   * The shortcut and registry steps after extraction: the start-menu
   * shortcut, then, unless the desktop folder is missing, the desktop
   * shortcut and the registry entries.
   */
  function LinkSteps(q: Request, exe: string, appPath: string, drive: string, user: string,
                     desktopDir: Option<string>, uninstallString: string): seq<Effect> {
    StartMenuStep(q, exe, drive, user)
      + (if DesktopMissing(q, desktopDir) then []
         else DesktopStep(q, exe, desktopDir) + RegistryStep(q, exe, appPath, uninstallString))
  }

  /** Issues the shortcut and registry steps; `ok` is false when the desktop folder is missing. */
  method CreateLinks(effects: seq<Effect>, q: Request, exe: string, appPath: string, drive: string, user: string,
                     desktopDir: Option<string>, uninstallString: string)
    returns (ok: bool, effects': seq<Effect>)
    ensures ok <==> !DesktopMissing(q, desktopDir)
    ensures effects' == effects + LinkSteps(q, exe, appPath, drive, user, desktopDir, uninstallString)
  {
    ok := !DesktopMissing(q, desktopDir);
    effects' := effects + LinkSteps(q, exe, appPath, drive, user, desktopDir, uninstallString);
  }

  // ---------------------------------------------------------------------
  // operations/installation.rs
  // ---------------------------------------------------------------------

  /** The arguments of the newer `installation`: the archive and the app's details. */
  datatype InstallationConfig = InstallationConfig(zip_path: string, details: LinkList.InstalledApp)

  function Requested(d: LinkList.InstalledApp): Request {
    Request(d.name, d.version, d.publisher, d.current_user_only, d.create_desktop_shortcut,
      d.create_start_menu_shortcut, d.create_registry_key)
  }

  /** The record `installation` appends to the app list. */
  function InstalledRecord(c: InstallationConfig, now: int): (a: LinkList.App)
    ensures a.installed && a.url == "" && a.details == c.details && a.timestamp == now
  {
    LinkList.App(now, true, "", c.details)
  }

  /**
   * The appended app is an installed link under the requested name and
   * executable path, so a later registry merge that meets registry apps of
   * that name and path adds no second link for it.
   */
  lemma InstalledNotResynced(links: seq<LinkList.App>, c: InstallationConfig, now: int,
                             regs: seq<LinkList.InstalledApp>, later: int)
    requires forall j :: 0 <= j < |regs| ==> regs[j].name == c.details.name && regs[j].full_path == c.details.full_path
    ensures var l := links + [InstalledRecord(c, now)];
      LinkList.Synced(l, regs, later) == l
  {
    var l := links + [InstalledRecord(c, now)];
    forall j | 0 <= j < |regs| ensures Records.Present(l, regs[j], LinkList.Matches) {
      assert LinkList.Matches(l[|links|], regs[j]);
    }
    Records.SyncedNothingNew(l, regs, LinkList.Matches, LinkList.MadeAt(later));
  }

  /** Progress 0, the extraction and progress 101, for the archive with these entries. */
  method Unpack(names: seq<string>, appPath: string) returns (single: Option<string>, effects: seq<Effect>)
    ensures single == SingleRoot(names)
    ensures effects == [Emit(Event, 0)] + Extracted(names, appPath, single) + [Emit(Event, 101)]
  {
    single := FindSingleRoot(names);
    effects := ExtractEntries([Emit(Event, 0)], names, appPath, single);
    effects := effects + [Emit(Event, 101)];
  }

  /**
   * The steps of the newer `installation`, up to and including the save of
   * the app list; the result is the executable's full path, or the error
   * of a missing desktop folder, after which nothing more happens.
   */
  method InstallationScript(c: InstallationConfig, names: seq<string>, drive: string, user: string,
                            desktopDir: Option<string>, uninstallString: string)
    returns (r: Result<string>, effects: seq<Effect>)
    ensures var appPath := WinPaths.AppDirectory(c.details.install_path, c.details.name);
      var exe := FullExecutablePath(appPath, c.details.executable_path, SingleRoot(names));
      var q := Requested(c.details);
      && r == (if DesktopMissing(q, desktopDir) then Err(NoDesktop) else Ok(exe))
      && effects == [Emit(Event, 0)] + Extracted(names, appPath, SingleRoot(names)) + [Emit(Event, 101)]
           + LinkSteps(q, exe, appPath, drive, user, desktopDir, uninstallString)
           + (if r.Ok? then [SaveList] else [])
  {
    var appPath := WinPaths.AppDirectory(c.details.install_path, c.details.name);
    var single, unpacked := Unpack(names, appPath);
    var exe := FullExecutablePath(appPath, c.details.executable_path, single);
    var ok;
    ok, effects := CreateLinks(unpacked, Requested(c.details), exe, appPath, drive, user, desktopDir, uninstallString);
    if !ok {
      assert effects + [] == effects;
      return Err(NoDesktop), effects;
    }
    effects := effects + [SaveList];
    r := Ok(exe);
  }

  /**
   * `installation` of `operations/installation.rs`: runs the steps and, when
   * they succeed, appends the app to the list as installed, with an empty
   * url and the time of the installation.
   */
  method Installation(list: LinkList.AppList, c: InstallationConfig, names: seq<string>, now: int, drive: string,
                      user: string, desktopDir: Option<string>, uninstallString: string)
    returns (r: Result<string>, effects: seq<Effect>)
    modifies list
    ensures var appPath := WinPaths.AppDirectory(c.details.install_path, c.details.name);
      var exe := FullExecutablePath(appPath, c.details.executable_path, SingleRoot(names));
      var q := Requested(c.details);
      && r == (if DesktopMissing(q, desktopDir) then Err(NoDesktop) else Ok(exe))
      && effects == [Emit(Event, 0)] + Extracted(names, appPath, SingleRoot(names)) + [Emit(Event, 101)]
           + LinkSteps(q, exe, appPath, drive, user, desktopDir, uninstallString)
           + (if r.Ok? then [SaveList] else [])
    ensures list.links == if r.Ok? then old(list.links) + [InstalledRecord(c, now)] else old(list.links)
  {
    r, effects := InstallationScript(c, names, drive, user, desktopDir, uninstallString);
    if r.Ok? {
      list.links := list.links + [InstalledRecord(c, now)];
    }
  }

  // ---------------------------------------------------------------------
  // installation.rs (the older version)
  // ---------------------------------------------------------------------

  /** The arguments of the older `installation`. */
  datatype LegacyConfig = LegacyConfig(
    zip_path: string,
    current_user_only: bool,
    create_desktop_shortcut: bool,
    create_registry_key: bool,
    create_start_menu_shortcut: bool,
    install_path: string,
    executable_path: string,
    app_icon: string,
    app_name: string,
    app_publisher: string,
    app_version: string)

  function LegacyRequested(c: LegacyConfig): Request {
    Request(c.app_name, c.app_version, c.app_publisher, c.current_user_only, c.create_desktop_shortcut,
      c.create_start_menu_shortcut, c.create_registry_key)
  }

  /**
   * The older `installation`: the same extraction, executable path,
   * shortcuts and registry entries, with no progress events and no app
   * list; it answers an empty string.
   */
  method LegacyInstallation(c: LegacyConfig, names: seq<string>, drive: string, user: string,
                            desktopDir: Option<string>, uninstallString: string)
    returns (r: Result<string>, effects: seq<Effect>)
    ensures var appPath := WinPaths.AppDirectory(c.install_path, c.app_name);
      var exe := FullExecutablePath(appPath, c.executable_path, SingleRoot(names));
      var q := LegacyRequested(c);
      && r == (if DesktopMissing(q, desktopDir) then Err(NoDesktop) else Ok(""))
      && effects == Extracted(names, appPath, SingleRoot(names))
           + LinkSteps(q, exe, appPath, drive, user, desktopDir, uninstallString)
  {
    var appPath := WinPaths.AppDirectory(c.install_path, c.app_name);
    var single := FindSingleRoot(names);
    var extracted := ExtractEntries([], names, appPath, single);
    assert extracted == Extracted(names, appPath, single);
    var exe := FullExecutablePath(appPath, c.executable_path, single);
    var ok;
    ok, effects := CreateLinks(extracted, LegacyRequested(c), exe, appPath, drive, user, desktopDir, uninstallString);
    r := if ok then Ok("") else Err(NoDesktop);
  }
}
