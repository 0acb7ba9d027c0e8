/**
 * The two uninstall scripts: `uninstall_app` over the apps of the
 * `configs/app_list/impls.rs` list, and `uninstallation` over the links of
 * the `configs/app_list.rs` list. Each looks the entry up by timestamp,
 * removes its directory, shortcuts, PATH entry and registry key, updates the
 * list and reports progress 0, 25, 50, 75 and 100.
 *
 * The module also models `uninstall/uninstall_lib.rs` (`UninstallLib` and
 * its helpers) as an extra beyond the app uninstall flows: it is the caller
 * of the lib half of the mark-or-remove rule of `uninstall/mod.rs`.
 *
 * The file system and registry answer through oracles: `onDisk` for
 * `Path::exists`, `desktopDir` for `dirs::desktop_dir`, `pathRead` for the
 * PATH value of a scope (current user or not), `keyOpens` for opening a
 * registry key, and `parent` for `Path::parent`.
 */
module Uninstall {
  import opened Base
  import Seqs
  import opened Effects
  import WinPaths
  import PathVar
  import Catalog
  import LinkList
  import Records
  import Text

  /** The progress reports before the list update, in order. */
  function Started(event: string): seq<(string, int)> {
    [(event, 0), (event, 25), (event, 50), (event, 75)]
  }

  /** The progress reports of a complete uninstall, in order. */
  function Steps(event: string): seq<(string, int)> {
    Started(event) + [(event, 100)]
  }

  /** The path, when the step applies and the path exists. */
  function IfPresent(path: Option<string>, onDisk: string -> bool): seq<string> {
    if path.Some? && onDisk(path.value) then [path.value] else []
  }

  /** The deletion of a directory (`dir`) or a file, when the step applies and the path exists. */
  function Deletion(path: Option<string>, dir: bool, onDisk: string -> bool): seq<Effect> {
    if path.Some? && onDisk(path.value) then [if dir then RemoveDirAll(path.value) else RemoveFile(path.value)] else []
  }

  /** Deletes a directory (`dir`) or a file when the step applies and the path exists. */
  method RemoveIfExists(effects: seq<Effect>, path: Option<string>, dir: bool, onDisk: string -> bool)
    returns (effects': seq<Effect>)
    ensures effects' == effects + Deletion(path, dir, onDisk)
    ensures Removed(effects') == Removed(effects) + IfPresent(path, onDisk)
    ensures Emitted(effects') == Emitted(effects) && PathWrites(effects') == PathWrites(effects)
    ensures RemovedKeys(effects') == RemovedKeys(effects)
  {
    effects' := effects;
    if path.Some? && onDisk(path.value) {
      effects' := Perform(effects, if dir then RemoveDirAll(path.value) else RemoveFile(path.value));
    }
  }

  /**
   * The PATH edit of both scripts: the value of the scope is read (a failure
   * to open the key or read the value is an error) and written back without
   * the segments naming `dir`.
   */
  method FilterPath(effects: seq<Effect>, dir: string, currentUserOnly: bool, read: PathVar.PathRead)
    returns (ok: bool, effects': seq<Effect>)
    ensures ok <==> read.Value?
    ensures effects' == effects + (if ok then [WritePath(PathVar.WriteFor(currentUserOnly, PathVar.WithoutDir(read.text, dir)))] else [])
    ensures PathWrites(effects') == PathWrites(effects)
      + (if ok then [PathVar.WriteFor(currentUserOnly, PathVar.WithoutDir(read.text, dir))] else [])
    ensures Emitted(effects') == Emitted(effects) && Removed(effects') == Removed(effects)
    ensures RemovedKeys(effects') == RemovedKeys(effects)
  {
    effects' := effects;
    ok := read.Value?;
    if ok {
      var newPath := PathVar.WithoutDir(read.text, dir);
      effects' := Perform(effects, WritePath(PathVar.WriteFor(currentUserOnly, newPath)));
    }
  }

  /** Removes the uninstall key when there is one and it can be opened. */
  method RemoveKey(effects: seq<Effect>, key: Option<(WinPaths.Hive, string)>, keyOpens: ((WinPaths.Hive, string)) -> bool)
    returns (effects': seq<Effect>)
    ensures effects' == effects + (if key.Some? && keyOpens(key.value) then [RemoveRegistryTree(key.value.0, key.value.1)] else [])
    ensures RemovedKeys(effects') == RemovedKeys(effects) + KeyRemoval(key, keyOpens)
    ensures Emitted(effects') == Emitted(effects) && Removed(effects') == Removed(effects)
    ensures PathWrites(effects') == PathWrites(effects)
  {
    effects' := effects;
    if key.Some? && keyOpens(key.value) {
      effects' := Perform(effects, RemoveRegistryTree(key.value.0, key.value.1));
    }
  }

  /**
   * What an uninstall removes, read off the list entry: the install
   * directory, the links that were created (the desktop one only when the
   * desktop directory is known), the PATH directory when the entry was added
   * to PATH, and the uninstall key when one was created.
   */
  datatype Target = Target(
    dir: string,
    start_menu_link: Option<string>,
    desktop_link: Option<string>,
    current_user_only: bool,
    path_dir: Option<string>,
    key: Option<(WinPaths.Hive, string)>)

  /** The paths an uninstall deletes, in order: the directory, then the start-menu and desktop links, each only if present. */
  function Removals(t: Target, onDisk: string -> bool): seq<string> {
    IfPresent(Some(t.dir), onDisk) + IfPresent(t.start_menu_link, onDisk) + IfPresent(t.desktop_link, onDisk)
  }

  /**
   * An uninstall deletes only what exists, and only the entry's own
   * directory and links; the directory goes exactly when it exists, before
   * anything else.
   */
  lemma RemovalsSpec(t: Target, onDisk: string -> bool)
    ensures var r := Removals(t, onDisk);
      && (forall k :: 0 <= k < |r| ==> onDisk(r[k]))
      && (forall k :: 0 <= k < |r| ==> r[k] == t.dir || Some(r[k]) == t.start_menu_link || Some(r[k]) == t.desktop_link)
      && (onDisk(t.dir) <==> (r != [] && r[0] == t.dir))
      && |r| <= 3
  {
  }

  /** The PATH write of an uninstall, if any. */
  function PathWrite(t: Target, pathRead: bool -> PathVar.PathRead): seq<PathVar.PathWrite> {
    var read := pathRead(t.current_user_only);
    if t.path_dir.Some? && read.Value? then [PathVar.WriteFor(t.current_user_only, PathVar.WithoutDir(read.text, t.path_dir.value))] else []
  }

  /** The PATH edit fails: it is due and the value cannot be read. */
  predicate PathFails(t: Target, pathRead: bool -> PathVar.PathRead) {
    t.path_dir.Some? && !pathRead(t.current_user_only).Value?
  }

  /** The uninstall key removed, if any. */
  function KeyRemoval(key: Option<(WinPaths.Hive, string)>, keyOpens: ((WinPaths.Hive, string)) -> bool): seq<(WinPaths.Hive, string)> {
    if key.Some? && keyOpens(key.value) then [key.value] else []
  }

  /** Steps 0 to 75 of both scripts, in order: each deletion follows the report before it. */
  function FileSteps(event: string, t: Target, onDisk: string -> bool): seq<Effect> {
    [Emit(event, 0)] + Deletion(Some(t.dir), true, onDisk)
    + [Emit(event, 25)] + Deletion(t.start_menu_link, false, onDisk)
    + [Emit(event, 50)] + Deletion(t.desktop_link, false, onDisk)
    + [Emit(event, 75)]
  }

  /**
   * Both scripts up to the list update, in order: the file steps, the PATH
   * write when due and readable, then (unless PATH failed) the key removal.
   */
  function TeardownSteps(event: string, t: Target, onDisk: string -> bool, pathRead: bool -> PathVar.PathRead,
                         keyOpens: ((WinPaths.Hive, string)) -> bool): seq<Effect> {
    FileSteps(event, t, onDisk) + PathStep(t, pathRead) + KeyStep(t, pathRead, keyOpens)
  }

  /** The steps before the list update never save the list. */
  lemma TeardownNeverSaves(event: string, t: Target, onDisk: string -> bool, pathRead: bool -> PathVar.PathRead,
                           keyOpens: ((WinPaths.Hive, string)) -> bool)
    ensures SaveList !in TeardownSteps(event, t, onDisk, pathRead, keyOpens)
  {
  }

  /** The PATH write of an uninstall as an effect, if any. */
  function PathStep(t: Target, pathRead: bool -> PathVar.PathRead): seq<Effect> {
    if PathWrite(t, pathRead) != [] then [WritePath(PathWrite(t, pathRead)[0])] else []
  }

  /** The key removal of an uninstall as an effect: none after a PATH failure. */
  function KeyStep(t: Target, pathRead: bool -> PathVar.PathRead, keyOpens: ((WinPaths.Hive, string)) -> bool): seq<Effect> {
    if PathFails(t, pathRead) || t.key.None? || !keyOpens(t.key.value) then []
    else [RemoveRegistryTree(t.key.value.0, t.key.value.1)]
  }

  /** Steps 0 to 75 of both scripts: the directory and the two links are deleted when they exist. */
  method RemoveFiles(event: string, t: Target, onDisk: string -> bool) returns (effects: seq<Effect>)
    ensures effects == FileSteps(event, t, onDisk)
    ensures Emitted(effects) == Started(event)
    ensures Removed(effects) == Removals(t, onDisk)
    ensures PathWrites(effects) == [] && RemovedKeys(effects) == []
  {
    ghost var dir := IfPresent(Some(t.dir), onDisk);
    effects := Begin(event);
    effects := RemoveIfExists(effects, Some(t.dir), true, onDisk);
    assert [] + dir == dir;
    effects := Announce(effects, event, 25);
    effects := RemoveIfExists(effects, t.start_menu_link, false, onDisk);
    effects := Announce(effects, event, 50);
    effects := RemoveIfExists(effects, t.desktop_link, false, onDisk);
    effects := Announce(effects, event, 75);
  }

  /**
   * Both scripts up to the list update: the files of `RemoveFiles`, then the
   * PATH value without the entry's directory, then the uninstall key when it
   * can be opened. `ok` is false exactly when PATH had to be edited and could
   * not be read, and the key is then left alone.
   */
  method Teardown(event: string, t: Target, onDisk: string -> bool, pathRead: bool -> PathVar.PathRead,
                  keyOpens: ((WinPaths.Hive, string)) -> bool)
    returns (ok: bool, effects: seq<Effect>)
    ensures ok <==> !PathFails(t, pathRead)
    ensures effects == TeardownSteps(event, t, onDisk, pathRead, keyOpens)
    ensures Emitted(effects) == Started(event)
    ensures Removed(effects) == Removals(t, onDisk)
    ensures PathWrites(effects) == PathWrite(t, pathRead)
    ensures RemovedKeys(effects) == if ok then KeyRemoval(t.key, keyOpens) else []
  {
    effects := RemoveFiles(event, t, onDisk);
    ghost var files := effects;
    ok := true;
    if t.path_dir.Some? {
      ok, effects := FilterPath(effects, t.path_dir.value, t.current_user_only, pathRead(t.current_user_only));
      assert effects == files + PathStep(t, pathRead);
      if !ok {
        assert KeyStep(t, pathRead, keyOpens) == [];
        assert effects == files + PathStep(t, pathRead) + KeyStep(t, pathRead, keyOpens);
        return;
      }
    } else {
      assert PathStep(t, pathRead) == [];
    }
    ghost var mid := effects;
    assert mid == files + PathStep(t, pathRead);
    effects := RemoveKey(effects, t.key, keyOpens);
    assert effects == mid + KeyStep(t, pathRead, keyOpens);
  }

  /** Saves the list and reports completion. */
  method Conclude(effects: seq<Effect>, event: string) returns (effects': seq<Effect>)
    ensures effects' == effects + [SaveList, Emit(event, 100)]
    ensures Emitted(effects') == Emitted(effects) + [(event, 100)]
    ensures Removed(effects') == Removed(effects) && PathWrites(effects') == PathWrites(effects)
    ensures RemovedKeys(effects') == RemovedKeys(effects)
    ensures |effects'| >= 2 && effects'[|effects'| - 2] == SaveList
  {
    effects' := Perform(effects, SaveList);
    effects' := Announce(effects', event, 100);
  }

  /**
   * Both scripts, given the entry found for the timestamp (if any): an
   * unknown entry is an error reported before anything is removed; a PATH
   * value that cannot be read is an error reported before the registry and
   * the list are touched. Otherwise the files, the PATH segments and the key
   * are removed, the list is saved, and progress runs 0, 25, 50, 75, 100.
   */
  method Run(event: string, target: Option<Target>, onDisk: string -> bool,
             pathRead: bool -> PathVar.PathRead, keyOpens: ((WinPaths.Hive, string)) -> bool)
    returns (r: Result<()>, effects: seq<Effect>)
    ensures target.None? ==> r.Err? && effects == [Emit(event, 0)]
    ensures target.Some? ==>
      && (r.Err? <==> PathFails(target.value, pathRead))
      && Removed(effects) == Removals(target.value, onDisk)
      && PathWrites(effects) == PathWrite(target.value, pathRead)
      && RemovedKeys(effects) == (if r.Ok? then KeyRemoval(target.value.key, keyOpens) else [])
    ensures r.Ok? ==> Emitted(effects) == Steps(event) && |effects| >= 2 && effects[|effects| - 2] == SaveList
    ensures target.Some? ==>
      effects == TeardownSteps(event, target.value, onDisk, pathRead, keyOpens) + (if r.Ok? then [SaveList, Emit(event, 100)] else [])
    ensures r.Err? ==> SaveList !in effects
  {
    if target.None? {
      effects := Begin(event);
      return Err("App not found in app list"), effects;
    }
    var ok;
    ok, effects := Teardown(event, target.value, onDisk, pathRead, keyOpens);
    if !ok {
      TeardownNeverSaves(event, target.value, onDisk, pathRead, keyOpens);
      return Err("cannot read the PATH value"), effects;
    }
    effects := Conclude(effects, event);
    r := Ok(());
  }

  /**
   * The uninstall target of an app of the library list: the app directory
   * with dashes for spaces, the links named after the app, the recorded
   * `full_path_directory` for PATH, and the uninstall key of its scope.
   */
  function AppTarget(a: Catalog.App, drive: string, user: string, desktopDir: Option<string>): Target {
    var c := a.details.config;
    var name := a.details.info.name;
    Target(WinPaths.AppDirectory(a.details.paths.install_path, name),
           if c.create_start_menu_shortcut then Some(WinPaths.StartMenuLink(drive, user, name, c.current_user_only)) else None,
           if c.create_desktop_shortcut && desktopDir.Some? then Some(WinPaths.DesktopLink(desktopDir.value, name)) else None,
           c.current_user_only,
           if c.add_to_path then Some(c.full_path_directory) else None,
           if c.create_registry_key then Some(WinPaths.UninstallKey(c.current_user_only, name)) else None)
  }

  /** The target of the first app with the timestamp, if any. */
  function AppTargetOf(apps: seq<Catalog.App>, timestamp: int, drive: string, user: string, desktopDir: Option<string>): Option<Target> {
    match Seqs.FirstIndex(apps, Catalog.AppStamped(timestamp))
    case None => None
    case Some(i) => Some(AppTarget(apps[i], drive, user, desktopDir))
  }

  /**
   * `uninstall_app`: the effects are those of `Run` on the first app with
   * the timestamp; the list is updated (marked or removed) exactly when the
   * script succeeds.
   */
  method UninstallApp(list: Catalog.AppList, timestamp: int, drive: string, user: string,
                      onDisk: string -> bool, desktopDir: Option<string>,
                      pathRead: bool -> PathVar.PathRead, keyOpens: ((WinPaths.Hive, string)) -> bool)
    returns (r: Result<()>, effects: seq<Effect>)
    modifies list
    ensures var t := AppTargetOf(old(list.apps), timestamp, drive, user, desktopDir);
      && (r.Ok? <==> t.Some? && !PathFails(t.value, pathRead))
      && (t.None? ==> effects == [Emit("uninstall", 0)])
      && (t.Some? ==> Removed(effects) == Removals(t.value, onDisk) && PathWrites(effects) == PathWrite(t.value, pathRead))
    ensures r.Ok? ==> Emitted(effects) == Steps("uninstall")
    ensures r.Ok? ==> list.apps == Catalog.AfterUninstallApp(old(list.apps), timestamp)
    ensures r.Err? ==> list.apps == old(list.apps)
    ensures list.libs == old(list.libs)
  {
    r, effects := Run("uninstall", AppTargetOf(list.apps, timestamp, drive, user, desktopDir), onDisk, pathRead, keyOpens);
    if r.Ok? {
      list.UpdateAfterUninstallApp(timestamp);
    }
  }

  /**
   * The uninstall target of a link: as for an app, but the PATH directory is
   * the parent of the executable.
   */
  function LinkTarget(l: LinkList.App, drive: string, user: string, desktopDir: Option<string>, parent: string -> string): Target {
    var d := l.details;
    Target(WinPaths.AppDirectory(d.install_path, d.name),
           if d.create_start_menu_shortcut then Some(WinPaths.StartMenuLink(drive, user, d.name, d.current_user_only)) else None,
           if d.create_desktop_shortcut && desktopDir.Some? then Some(WinPaths.DesktopLink(desktopDir.value, d.name)) else None,
           d.current_user_only,
           if d.add_to_path then Some(parent(d.full_path)) else None,
           if d.create_registry_key then Some(WinPaths.UninstallKey(d.current_user_only, d.name)) else None)
  }

  /** The target of the first link with the timestamp, if any. */
  function LinkTargetOf(links: seq<LinkList.App>, timestamp: int, drive: string, user: string,
                        desktopDir: Option<string>, parent: string -> string): Option<Target> {
    match Seqs.FirstIndex(links, LinkList.Stamped(timestamp))
    case None => None
    case Some(i) => Some(LinkTarget(links[i], drive, user, desktopDir, parent))
  }

  /**
   * `uninstallation`: as `uninstall_app`, on the links, with the PATH
   * directory taken as the parent of the executable; returns the empty string.
   */
  method Uninstallation(list: LinkList.AppList, timestamp: int, drive: string, user: string,
                        onDisk: string -> bool, desktopDir: Option<string>, parent: string -> string,
                        pathRead: bool -> PathVar.PathRead, keyOpens: ((WinPaths.Hive, string)) -> bool)
    returns (r: Result<string>, effects: seq<Effect>)
    modifies list
    ensures var t := LinkTargetOf(old(list.links), timestamp, drive, user, desktopDir, parent);
      && (r.Ok? <==> t.Some? && !PathFails(t.value, pathRead))
      && (t.None? ==> effects == [Emit("uninstallation", 0)])
      && (t.Some? ==> Removed(effects) == Removals(t.value, onDisk) && PathWrites(effects) == PathWrite(t.value, pathRead))
    ensures r.Ok? ==> Emitted(effects) == Steps("uninstallation")
    ensures r.Ok? ==> r.value == "" && list.links == LinkList.AfterUninstall(old(list.links), timestamp)
    ensures r.Err? ==> list.links == old(list.links)
  {
    var done;
    done, effects := Run("uninstallation", LinkTargetOf(list.links, timestamp, drive, user, desktopDir, parent), onDisk, pathRead, keyOpens);
    if done.Err? {
      return Err(done.error), effects;
    }
    list.UpdateAfterUninstall(timestamp);
    r := Ok("");
  }

  /**
   * The script of `uninstall_lib`, given the lib found for the timestamp (if
   * any): an unknown lib is an error reported before anything is removed.
   * Otherwise the lib's own install path is deleted when it exists, the PATH
   * edit of `remove_from_path` for the current user follows when the lib was
   * added to PATH (a failing edit is an error before the list is touched),
   * and the list is saved; progress runs 0, 50, 75, 100.
   */
  method UninstallLibScript(lib: Option<Catalog.Lib>, onDisk: string -> bool, read: PathVar.PathRead, writeOk: bool)
    returns (r: Result<()>, effects: seq<Effect>)
    ensures lib.None? ==> r.Err? && effects == [Emit("uninstall_lib", 0)]
    ensures lib.Some? ==>
      var l := lib.value;
      && Removed(effects) == IfPresent(Some(l.details.paths.install_path), onDisk)
      && PathWrites(effects) == (if l.details.config.add_to_path then LibPathEdit(l, read, writeOk).writes else [])
      && (r.Err? <==> l.details.config.add_to_path && LibPathEdit(l, read, writeOk).result.Err?)
    ensures r.Ok? ==> (Emitted(effects) == LibSteps() && |effects| >= 2 && effects[|effects| - 2] == SaveList)
  {
    if lib.None? {
      effects := Begin("uninstall_lib");
      return Err("Library not found in app list"), effects;
    }
    var l := lib.value;
    effects := LibFiles(l.details.paths.install_path, onDisk);
    var ok;
    ok, effects := LibPath(effects, l, read, writeOk);
    if !ok {
      return Err("cannot remove the library from PATH"), effects;
    }
    effects := LibFinish(effects);
    r := Ok(());
  }

  /** The PATH step of `uninstall_lib`: the edit is made only when the lib was added to PATH. */
  method LibPath(effects: seq<Effect>, l: Catalog.Lib, read: PathVar.PathRead, writeOk: bool)
    returns (ok: bool, effects': seq<Effect>)
    requires PathWrites(effects) == []
    ensures ok <==> !(l.details.config.add_to_path && LibPathEdit(l, read, writeOk).result.Err?)
    ensures PathWrites(effects') == (if l.details.config.add_to_path then LibPathEdit(l, read, writeOk).writes else [])
    ensures Emitted(effects') == Emitted(effects) && Removed(effects') == Removed(effects)
  {
    ok, effects' := true, effects;
    if l.details.config.add_to_path {
      var edit := LibPathEdit(l, read, writeOk);
      ok, effects' := ApplyEdit(effects, edit);
      assert [] + edit.writes == edit.writes;
    }
  }

  /** Steps 75 and 100 of `uninstall_lib`, with the save of the list between them. */
  method LibFinish(effects: seq<Effect>) returns (effects': seq<Effect>)
    requires Emitted(effects) == [("uninstall_lib", 0), ("uninstall_lib", 50)]
    ensures Emitted(effects') == LibSteps()
    ensures Removed(effects') == Removed(effects) && PathWrites(effects') == PathWrites(effects)
    ensures |effects'| >= 2 && effects'[|effects'| - 2] == SaveList
  {
    effects' := Announce(effects, "uninstall_lib", 75);
    effects' := Conclude(effects', "uninstall_lib");
    assert Emitted(effects') == [("uninstall_lib", 0), ("uninstall_lib", 50)] + [("uninstall_lib", 75)] + [("uninstall_lib", 100)];
  }

  /** The PATH edit of `uninstall_lib`: always the current user's PATH, without the lib's `full_path_directory`. */
  function LibPathEdit(l: Catalog.Lib, read: PathVar.PathRead, writeOk: bool): (e: PathVar.PathEdit)
    ensures |e.writes| <= 1
  {
    PathVar.RemoveFromPath(l.details.config.full_path_directory, true, read, writeOk)
  }

  /**
   * A readable current-user PATH is written back once, and the written value
   * no longer lists the lib's `full_path_directory` when that directory does
   * not trim to ""; an unreadable value gets no write.
   */
  lemma LibPathEditUnlists(l: Catalog.Lib, read: PathVar.PathRead, writeOk: bool)
    ensures var e := LibPathEdit(l, read, writeOk);
      read.Value? ==> |e.writes| == 1 && e.writes[0].hive == WinPaths.CurrentUser
    ensures var e := LibPathEdit(l, read, writeOk);
      read.Value? && Text.Trim(l.details.config.full_path_directory) != "" ==>
        !PathVar.Lists(e.writes[0].value, l.details.config.full_path_directory)
    ensures !read.Value? ==> LibPathEdit(l, read, writeOk).writes == []
  {
    if read.Value? && Text.Trim(l.details.config.full_path_directory) != "" {
      PathVar.RemoveUnlists(read.text, l.details.config.full_path_directory);
    }
  }

  /** Steps 0 and 50 of `uninstall_lib`: the lib's directory is deleted when it exists. */
  method LibFiles(installPath: string, onDisk: string -> bool) returns (effects: seq<Effect>)
    ensures Emitted(effects) == [("uninstall_lib", 0), ("uninstall_lib", 50)]
    ensures Removed(effects) == IfPresent(Some(installPath), onDisk)
    ensures PathWrites(effects) == [] && RemovedKeys(effects) == []
  {
    effects := Begin("uninstall_lib");
    effects := RemoveIfExists(effects, Some(installPath), true, onDisk);
    assert [] + IfPresent(Some(installPath), onDisk) == IfPresent(Some(installPath), onDisk);
    effects := Announce(effects, "uninstall_lib", 50);
  }

  /** The progress reports of `uninstall_lib`. */
  function LibSteps(): seq<(string, int)> {
    [("uninstall_lib", 0), ("uninstall_lib", 50), ("uninstall_lib", 75), ("uninstall_lib", 100)]
  }

  /** The first lib with the timestamp, if any. */
  function LibOf(libs: seq<Catalog.Lib>, timestamp: int): Option<Catalog.Lib> {
    match Seqs.FirstIndex(libs, Catalog.LibStamped(timestamp))
    case None => None
    case Some(i) => Some(libs[i])
  }

  /**
   * `uninstall_lib`: the effects are those of `UninstallLibScript` on the
   * first lib with the timestamp; the lib list is updated (marked or
   * removed) exactly when the script succeeds.
   */
  method UninstallLib(list: Catalog.AppList, timestamp: int, onDisk: string -> bool, read: PathVar.PathRead, writeOk: bool)
    returns (r: Result<()>, effects: seq<Effect>)
    modifies list
    ensures var l := LibOf(old(list.libs), timestamp);
      && (r.Ok? <==> l.Some? && !(l.value.details.config.add_to_path && LibPathEdit(l.value, read, writeOk).result.Err?))
      && (l.None? ==> effects == [Emit("uninstall_lib", 0)])
      && (l.Some? ==> Removed(effects) == IfPresent(Some(l.value.details.paths.install_path), onDisk)
                      && PathWrites(effects) == (if l.value.details.config.add_to_path then LibPathEdit(l.value, read, writeOk).writes else []))
    ensures r.Ok? ==> Emitted(effects) == LibSteps()
    ensures r.Ok? ==> list.libs == Catalog.AfterUninstallLib(old(list.libs), timestamp)
    ensures r.Err? ==> list.libs == old(list.libs)
    ensures list.apps == old(list.apps)
  {
    r, effects := UninstallLibScript(LibOf(list.libs, timestamp), onDisk, read, writeOk);
    if r.Ok? {
      list.UpdateAfterUninstallLib(timestamp);
    }
  }
}
