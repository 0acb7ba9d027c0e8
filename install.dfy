/**
 * `operations/install/install_app.rs` and `install_tool.rs`: the install
 * directory and the PATH directory they derive, and the effect scripts they
 * run, ending in the library update of `configs/library/updates.rs`.
 *
 * The executable found by `flatten_nested_folders` (`fullPath`), the parent
 * directory of a path (`parent`, for `Path::parent`), the answer of the
 * registry to the PATH read (`pathRead`) and whether it accepts the write
 * (`writeOk`), and the clock (`now`) are inputs.
 */
module Install {
  import opened Base
  import Text
  import Library
  import PathVar
  import opened Effects

  const AppEvent: string := "app_install_progress"
  const ToolEvent: string := "tool_install_progress"

  /** The install directory: the parent directory, a backslash, then the name as given. */
  function InstallPath(parent: string, name: string): string {
    parent + "\\" + name
  }

  /**
   * The archive's PATH directory made relative and Windows-style: leading
   * slashes of either kind are dropped, then every `/` becomes `\`.
   */
  function NormalisedDirectory(dir: string): string {
    Text.ReplaceChar(Text.TrimLeadingSlashes(dir), '/', '\\')
  }

  /**
   * The normalised directory keeps every character of the trimmed input
   * except that `/` turns into `\`; it neither starts with a slash nor holds
   * a `/`, and normalising it again changes nothing.
   */
  lemma NormalisedDirectorySpec(dir: string)
    ensures var n := NormalisedDirectory(dir);
      && |n| <= |dir|
      && '/' !in n
      && (n == [] || n[0] != '\\')
      && (forall i :: 0 <= i < |n| ==> n[i] == if dir[|dir| - |n| + i] == '/' then '\\' else dir[|dir| - |n| + i])
      && NormalisedDirectory(n) == n
  {
    var t := Text.TrimLeadingSlashes(dir);
    var n := NormalisedDirectory(dir);
    Text.ReplaceCharRemoves(t, '/', '\\');
    assert Text.TrimLeadingSlashes(n) == n;
    Text.ReplaceCharAbsent(n, '/', '\\');
  }

  /**
   * `full_path_directory` of `install_app`: empty without PATH; the parent of
   * the executable when the archive names no PATH directory; otherwise that
   * directory below the install directory.
   */
  function AppPathDirectory(c: Library.AppConfig, installPath: string, fullPath: string, parent: string -> string): string {
    if !c.add_to_path then ""
    else if c.archive_path_directory == [] then parent(fullPath)
    else installPath + "\\" + NormalisedDirectory(c.archive_path_directory)
  }

  /**
   * `full_path_directory` of `install_tool`: as for apps, except that with no
   * archive directory the install directory itself goes on PATH.
   */
  function ToolPathDirectory(c: Library.ToolConfig, installPath: string): string {
    if !c.add_to_path then ""
    else if c.archive_path_directory == [] then installPath
    else installPath + "\\" + NormalisedDirectory(c.archive_path_directory)
  }

  /**
   * Both derivations: empty exactly when PATH is off; with an archive
   * directory, the install directory, a backslash, then the normalised
   * archive directory; without one, the executable's parent for an app and
   * the install directory for a tool.
   */
  lemma PathDirectorySpec(ac: Library.AppConfig, tc: Library.ToolConfig, installPath: string, fullPath: string,
                          parent: string -> string)
    ensures var d := AppPathDirectory(ac, installPath, fullPath, parent);
      && (!ac.add_to_path ==> d == "")
      && (ac.add_to_path && ac.archive_path_directory == "" ==> d == parent(fullPath))
      && (ac.add_to_path && ac.archive_path_directory != "" ==>
            && installPath + "\\" <= d
            && d[|installPath| + 1..] == NormalisedDirectory(ac.archive_path_directory)
            && '/' !in d[|installPath| + 1..])
    ensures var d := ToolPathDirectory(tc, installPath);
      && (!tc.add_to_path ==> d == "")
      && (tc.add_to_path && tc.archive_path_directory == "" ==> d == installPath)
      && (tc.add_to_path && tc.archive_path_directory != "" ==>
            && installPath + "\\" <= d
            && d[|installPath| + 1..] == NormalisedDirectory(tc.archive_path_directory)
            && '/' !in d[|installPath| + 1..])
  {
    NormalisedDirectorySpec(ac.archive_path_directory);
    NormalisedDirectorySpec(tc.archive_path_directory);
    var ad := AppPathDirectory(ac, installPath, fullPath, parent);
    if ac.add_to_path && ac.archive_path_directory != "" {
      assert ad == (installPath + "\\") + NormalisedDirectory(ac.archive_path_directory);
    }
    var td := ToolPathDirectory(tc, installPath);
    if tc.add_to_path && tc.archive_path_directory != "" {
      assert td == (installPath + "\\") + NormalisedDirectory(tc.archive_path_directory);
    }
  }

  /** The name the icon converter is given: the app name, a dash, then the timestamp. */
  function IconName(name: string, timestamp: int): string {
    name + "-" + Text.IntToString(timestamp)
  }

  /** The icon location of the shortcuts: the converted icon when a custom icon is asked for. */
  function IconOf(c: Library.AppConfig, iconName: string): Option<string> {
    if c.custom_icon then Some(iconName) else None
  }

  /**
   * The shortcut and registry steps of `install_app`, in order: the icon is
   * converted when a custom icon is asked for, then the desktop shortcut, the
   * start-menu shortcut and the registry entries are made for the flags that
   * are set.
   */
  function AppLinks(d: Library.AppDetails, fullPath: string, iconName: string): seq<Effect> {
    var c := d.config;
    var icon := IconOf(c, iconName);
    Opt(c.custom_icon, ConvertIcon(d.info.icon, iconName))
    + Opt(c.create_desktop_shortcut, CreateDesktopShortcut(fullPath, d.info.name, icon))
    + Opt(c.create_start_menu_shortcut, CreateStartMenuShortcut(fullPath, c.current_user_only, d.info.name, icon))
    + Opt(c.create_registry_key, CreateRegistryEntries(d.info.name, c.current_user_only))
  }

  /**
   * Each step is taken iff its flag is set: both shortcuts target the
   * executable under the app's name and carry the converted icon exactly when
   * a custom icon is asked for; the start-menu shortcut and the registry
   * entries are made in the app's scope.
   */
  lemma AppLinksSpec(d: Library.AppDetails, fullPath: string, iconName: string)
    ensures var r := AppLinks(d, fullPath, iconName);
      var c := d.config;
      var icon := IconOf(c, iconName);
      && (ConvertIcon(d.info.icon, iconName) in r <==> c.custom_icon)
      && (CreateDesktopShortcut(fullPath, d.info.name, icon) in r <==> c.create_desktop_shortcut)
      && (CreateStartMenuShortcut(fullPath, c.current_user_only, d.info.name, icon) in r <==> c.create_start_menu_shortcut)
      && (CreateRegistryEntries(d.info.name, c.current_user_only) in r <==> c.create_registry_key)
  {
    LinkPieces(d, fullPath, iconName);
  }

  /**
   * Nothing else is done, each step at most once, and the icon is converted
   * before any shortcut is made.
   */
  lemma AppLinksOnly(d: Library.AppDetails, fullPath: string, iconName: string)
    ensures var r := AppLinks(d, fullPath, iconName);
      var c := d.config;
      var icon := IconOf(c, iconName);
      && |r| <= 4
      && (forall e :: e in r ==>
            || e == ConvertIcon(d.info.icon, iconName)
            || e == CreateDesktopShortcut(fullPath, d.info.name, icon)
            || e == CreateStartMenuShortcut(fullPath, c.current_user_only, d.info.name, icon)
            || e == CreateRegistryEntries(d.info.name, c.current_user_only))
      && (c.custom_icon ==> r[0] == ConvertIcon(d.info.icon, iconName))
  {
    LinkPieces(d, fullPath, iconName);
  }

  /** The members of `AppLinks` are those of its four optional steps. */
  lemma LinkPieces(d: Library.AppDetails, fullPath: string, iconName: string)
    ensures var c := d.config;
      var icon := IconOf(c, iconName);
      var a := Opt(c.custom_icon, ConvertIcon(d.info.icon, iconName));
      var b := Opt(c.create_desktop_shortcut, CreateDesktopShortcut(fullPath, d.info.name, icon));
      var m := Opt(c.create_start_menu_shortcut, CreateStartMenuShortcut(fullPath, c.current_user_only, d.info.name, icon));
      var g := Opt(c.create_registry_key, CreateRegistryEntries(d.info.name, c.current_user_only));
      && AppLinks(d, fullPath, iconName) == a + b + m + g
      && (forall e :: e in AppLinks(d, fullPath, iconName) <==> e in a || e in b || e in m || e in g)
  {
  }

  /** The PATH edit of `install_app`, made only when PATH is on. */
  function AppPathEdit(c: Library.AppConfig, dir: string, read: bool -> PathVar.PathRead, writeOk: bool): PathVar.PathEdit {
    if c.add_to_path then PathVar.AddToPath(dir, c.current_user_only, read(c.current_user_only), writeOk)
    else PathVar.PathEdit(Ok(()), [])
  }

  /** An app's PATH edit writes at most once. */
  lemma AppPathEditSize(c: Library.AppConfig, dir: string, read: bool -> PathVar.PathRead, writeOk: bool)
    ensures |AppPathEdit(c, dir, read, writeOk).writes| <= 1
  {
  }

  /**
   * The effects of `install_app` before the library is updated, and its
   * result: the install directory and the executable, or the error of the
   * PATH edit, which stops the install before the library is touched.
   */
  method InstallAppScript(c: Library.AppInstallConfig, now: int, fullPath: string, parent: string -> string,
                          read: bool -> PathVar.PathRead, writeOk: bool)
    returns (r: Result<(string, string)>, fullPathDirectory: string, effects: seq<Effect>)
    ensures var installPath := InstallPath(c.details.paths.parent_install_path, c.details.info.name);
      && fullPathDirectory == AppPathDirectory(c.details.config, installPath, fullPath, parent)
      && (r.Ok? <==> AppPathEdit(c.details.config, fullPathDirectory, read, writeOk).result.Ok?)
      && (r.Ok? ==> r.value == (installPath, fullPath))
      && PathWrites(effects) == AppPathEdit(c.details.config, fullPathDirectory, read, writeOk).writes
      && Calls(effects) == [CreateDirAll(installPath), ExtractArchive(c.zip_path, installPath),
                            FlattenNestedFolders(installPath)]
                           + AppLinks(c.details, fullPath, IconName(c.details.info.name, now))
                           + (if r.Ok? then [SaveList] else [])
    ensures Emitted(effects) == if r.Ok? then [(AppEvent, 0), (AppEvent, 101)] else [(AppEvent, 0)]
    ensures Removed(effects) == [] && RemovedKeys(effects) == []
  {
    var d := c.details;
    var installPath := InstallPath(d.paths.parent_install_path, d.info.name);
    effects := Setup(AppEvent, c.zip_path, installPath);
    effects := Links(effects, d, fullPath, IconName(d.info.name, now));
    fullPathDirectory := AppPathDirectory(d.config, installPath, fullPath, parent);
    var edit := AppPathEdit(d.config, fullPathDirectory, read, writeOk);
    AppPathEditSize(d.config, fullPathDirectory, read, writeOk);
    var ok;
    ok, effects := ApplyEdit(effects, edit);
    assert [] + edit.writes == edit.writes;
    if !ok {
      return Err(edit.result.error), fullPathDirectory, effects;
    }
    effects := Finish(effects, AppEvent);
    r := Ok((installPath, fullPath));
  }

  /** The opening steps of both scripts: progress 0, then the install directory is made, filled and flattened. */
  method Setup(event: string, zipPath: string, installPath: string) returns (effects: seq<Effect>)
    ensures Calls(effects) == [CreateDirAll(installPath), ExtractArchive(zipPath, installPath),
                               FlattenNestedFolders(installPath)]
    ensures Emitted(effects) == [(event, 0)]
    ensures PathWrites(effects) == [] && Removed(effects) == [] && RemovedKeys(effects) == []
  {
    effects := Begin(event);
    effects := Perform(effects, CreateDirAll(installPath));
    effects := Perform(effects, ExtractArchive(zipPath, installPath));
    effects := Perform(effects, FlattenNestedFolders(installPath));
  }

  /** The closing steps of both scripts: the library is saved, then progress 101. */
  method Finish(effects: seq<Effect>, event: string) returns (effects': seq<Effect>)
    ensures Calls(effects') == Calls(effects) + [SaveList]
    ensures Emitted(effects') == Emitted(effects) + [(event, 101)]
    ensures PathWrites(effects') == PathWrites(effects)
    ensures Removed(effects') == Removed(effects) && RemovedKeys(effects') == RemovedKeys(effects)
  {
    effects' := Perform(effects, SaveList);
    effects' := Announce(effects', event, 101);
  }

  /** Takes the steps of `AppLinks`, one flag at a time. */
  method Links(effects: seq<Effect>, d: Library.AppDetails, fullPath: string, iconName: string) returns (effects': seq<Effect>)
    ensures Calls(effects') == Calls(effects) + AppLinks(d, fullPath, iconName)
    ensures Emitted(effects') == Emitted(effects) && PathWrites(effects') == PathWrites(effects)
    ensures Removed(effects') == Removed(effects) && RemovedKeys(effects') == RemovedKeys(effects)
  {
    var c := d.config;
    var icon := IconOf(c, iconName);
    var a := Opt(c.custom_icon, ConvertIcon(d.info.icon, iconName));
    var b := Opt(c.create_desktop_shortcut, CreateDesktopShortcut(fullPath, d.info.name, icon));
    var m := Opt(c.create_start_menu_shortcut, CreateStartMenuShortcut(fullPath, c.current_user_only, d.info.name, icon));
    var g := Opt(c.create_registry_key, CreateRegistryEntries(d.info.name, c.current_user_only));
    effects' := PerformIf(effects, c.custom_icon, ConvertIcon(d.info.icon, iconName));
    effects' := PerformIf(effects', c.create_desktop_shortcut, CreateDesktopShortcut(fullPath, d.info.name, icon));
    effects' := PerformIf(effects', c.create_start_menu_shortcut,
                          CreateStartMenuShortcut(fullPath, c.current_user_only, d.info.name, icon));
    effects' := PerformIf(effects', c.create_registry_key, CreateRegistryEntries(d.info.name, c.current_user_only));
    Assoc4(Calls(effects), a, b, m, g);
  }

  lemma Assoc4(x: seq<Effect>, a: seq<Effect>, b: seq<Effect>, m: seq<Effect>, g: seq<Effect>)
    ensures x + a + b + m + g == x + (a + b + m + g)
  {
  }

  /**
   * `install_app`: the script, then, when it succeeded, the app is recorded
   * in the library.
   */
  method InstallApp(library: Library.Library, c: Library.AppInstallConfig, now: int, fullPath: string,
                    parent: string -> string, read: bool -> PathVar.PathRead, writeOk: bool)
    returns (r: Result<(string, string)>, effects: seq<Effect>)
    modifies library
    ensures var installPath := InstallPath(c.details.paths.parent_install_path, c.details.info.name);
      var dir := AppPathDirectory(c.details.config, installPath, fullPath, parent);
      && (r.Ok? <==> AppPathEdit(c.details.config, dir, read, writeOk).result.Ok?)
      && (r.Ok? ==> r.value == (installPath, fullPath)
                    && library.apps == Library.AppsAfterInstall(old(library.apps), c, fullPath, dir, now))
      && PathWrites(effects) == AppPathEdit(c.details.config, dir, read, writeOk).writes
      && Calls(effects) == [CreateDirAll(installPath), ExtractArchive(c.zip_path, installPath),
                            FlattenNestedFolders(installPath)]
                           + AppLinks(c.details, fullPath, IconName(c.details.info.name, now))
                           + (if r.Ok? then [SaveList] else [])
      && Emitted(effects) == (if r.Ok? then [(AppEvent, 0), (AppEvent, 101)] else [(AppEvent, 0)])
      && (r.Err? ==> library.apps == old(library.apps))
    ensures library.tools == old(library.tools) && library.urls == old(library.urls)
  {
    var dir;
    r, dir, effects := InstallAppScript(c, now, fullPath, parent, read, writeOk);
    if r.Ok? {
      library.UpdateAppListFromConfig(c, fullPath, dir, now);
    }
  }

  /** The arguments of `install_tool`. */
  datatype ToolInstallConfig = ToolInstallConfig(
    zip_path: string,
    password: Option<string>,
    timestamp: int,
    url: Option<string>,
    details: Library.ToolDetails)

  /**
   * The fields the tool-list update reads, taken from the install config:
   * the name and parent directory from the details.
   */
  function ToolRecord(c: ToolInstallConfig): Library.ToolRecordConfig {
    Library.ToolRecordConfig(c.details.name, c.password, c.details.paths.parent_install_path, c.url, c.timestamp)
  }

  /** The PATH edit of `install_tool`: always for the current user, made only when PATH is on. */
  function ToolPathEdit(c: Library.ToolConfig, dir: string, read: bool -> PathVar.PathRead, writeOk: bool): PathVar.PathEdit {
    if c.add_to_path then PathVar.AddToPath(dir, true, read(true), writeOk)
    else PathVar.PathEdit(Ok(()), [])
  }

  /** A tool's PATH edit writes at most once. */
  lemma ToolPathEditSize(c: Library.ToolConfig, dir: string, read: bool -> PathVar.PathRead, writeOk: bool)
    ensures |ToolPathEdit(c, dir, read, writeOk).writes| <= 1
  {
  }

  /** The effects of `install_tool` before the library is updated, and its result, the install directory. */
  method InstallToolScript(c: ToolInstallConfig, read: bool -> PathVar.PathRead, writeOk: bool)
    returns (r: Result<string>, effects: seq<Effect>)
    ensures var installPath := InstallPath(c.details.paths.parent_install_path, c.details.name);
      var edit := ToolPathEdit(c.details.config, ToolPathDirectory(c.details.config, installPath), read, writeOk);
      && (r.Ok? <==> edit.result.Ok?)
      && (r.Ok? ==> r.value == installPath)
      && PathWrites(effects) == edit.writes
      && Calls(effects) == [CreateDirAll(installPath), ExtractArchive(c.zip_path, installPath),
                            FlattenNestedFolders(installPath)] + (if r.Ok? then [SaveList] else [])
    ensures Emitted(effects) == if r.Ok? then [(ToolEvent, 0), (ToolEvent, 101)] else [(ToolEvent, 0)]
    ensures Removed(effects) == [] && RemovedKeys(effects) == []
  {
    var installPath := InstallPath(c.details.paths.parent_install_path, c.details.name);
    effects := Setup(ToolEvent, c.zip_path, installPath);
    var edit := ToolPathEdit(c.details.config, ToolPathDirectory(c.details.config, installPath), read, writeOk);
    ToolPathEditSize(c.details.config, ToolPathDirectory(c.details.config, installPath), read, writeOk);
    effects := ToolPath(effects, edit);
    if edit.result.Err? {
      return Err(edit.result.error), effects;
    }
    effects := Finish(effects, ToolEvent);
    r := Ok(installPath);
  }

  /** The PATH step of `install_tool`: the registry writes of its edit, and nothing else. */
  method ToolPath(effects: seq<Effect>, edit: PathVar.PathEdit) returns (effects': seq<Effect>)
    requires PathWrites(effects) == [] && |edit.writes| <= 1
    ensures PathWrites(effects') == edit.writes
    ensures Calls(effects') == Calls(effects) && Emitted(effects') == Emitted(effects)
    ensures Removed(effects') == Removed(effects) && RemovedKeys(effects') == RemovedKeys(effects)
  {
    var ok;
    ok, effects' := ApplyEdit(effects, edit);
    assert [] + edit.writes == edit.writes;
  }

  /**
   * `install_tool`: the script, then, when it succeeded, the tool is
   * recorded in the library under the install directory.
   */
  method InstallTool(library: Library.Library, c: ToolInstallConfig, now: int,
                     read: bool -> PathVar.PathRead, writeOk: bool)
    returns (r: Result<string>, effects: seq<Effect>)
    modifies library
    ensures var installPath := InstallPath(c.details.paths.parent_install_path, c.details.name);
      var edit := ToolPathEdit(c.details.config, ToolPathDirectory(c.details.config, installPath), read, writeOk);
      && (r.Ok? <==> edit.result.Ok?)
      && (r.Ok? ==> r.value == installPath
                    && library.tools == Library.ToolsAfterInstall(old(library.tools), ToolRecord(c), installPath, now))
      && PathWrites(effects) == edit.writes
      && Calls(effects) == [CreateDirAll(installPath), ExtractArchive(c.zip_path, installPath),
                            FlattenNestedFolders(installPath)] + (if r.Ok? then [SaveList] else [])
      && Emitted(effects) == (if r.Ok? then [(ToolEvent, 0), (ToolEvent, 101)] else [(ToolEvent, 0)])
      && (r.Err? ==> library.tools == old(library.tools))
    ensures library.apps == old(library.apps) && library.urls == old(library.urls)
  {
    r, effects := InstallToolScript(c, read, writeOk);
    if r.Ok? {
      library.UpdateToolListFromConfig(ToolRecord(c), r.value, now);
    }
  }
}
