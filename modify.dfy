/**
 * `operations/modify/modify_app.rs` and `modify_tool.rs`: the stored entry
 * is compared with the edited one, and for every aspect that changed the
 * old set-up is undone before the new one is made; then the entry is
 * replaced and the library saved. `onDisk` answers `Path::exists`.
 */
module Modify {
  import opened Base
  import Seqs
  import Library
  import Install
  import PathVar
  import opened Text
  import opened Effects

  /**
   * One aspect of a modification: nothing when it did not change; otherwise
   * the undo step when the old set-up was on, then the redo steps when the
   * new one is on.
   */
  function Redo(changed: bool, wasOn: bool, undo: Effect, isOn: bool, redo: seq<Effect>): seq<Effect> {
    if !changed then [] else Opt(wasOn, undo) + (if isOn then redo else [])
  }

  /**
   * An unchanged aspect does nothing. A changed one undoes the old set-up
   * exactly when it was on and redoes the new one exactly when it is on, the
   * undo always first.
   */
  lemma RedoSpec(changed: bool, wasOn: bool, undo: Effect, isOn: bool, redo: seq<Effect>)
    ensures var r := Redo(changed, wasOn, undo, isOn, redo);
      && (!changed ==> r == [])
      && (changed && wasOn ==> r != [] && r[0] == undo && r[1..] == (if isOn then redo else []))
      && (changed && !wasOn ==> r == (if isOn then redo else []))
  {
  }

  /** The directory move: only when the install directory changed and the old one exists. */
  function MoveSteps(oldPath: string, newPath: string, onDisk: string -> bool): seq<Effect> {
    if oldPath != newPath && onDisk(oldPath) then [CreateDirAll(newPath), MoveDir(oldPath, newPath)] else []
  }

  /**
   * What the addition reads: the value the removal has just written when both
   * edit the same PATH, otherwise the registry's own answer for its scope.
   */
  function ReadAfter(read: bool -> PathVar.PathRead, removal: PathVar.PathEdit, wasScope: bool, nowScope: bool): PathVar.PathRead {
    if removal.writes != [] && wasScope == nowScope then PathVar.Value(removal.writes[0].value) else read(nowScope)
  }

  /**
   * The PATH aspect, driven by the (enabled, directory) pair; `*Scope` is the
   * PATH of each side and `read` the registry's answer per scope. When the
   * pair changed, the old directory is removed when it was on, and an error
   * there stops the edit; then the new one is added when it is on.
   */
  function PathChange(was: (bool, string), wasScope: bool, now: (bool, string), nowScope: bool,
                      read: bool -> PathVar.PathRead, writeOk: bool): PathVar.PathEdit {
    if was == now then PathVar.PathEdit(Ok(()), [])
    else
      var removal := if was.0 then PathVar.RemoveFromPath(was.1, wasScope, read(wasScope), writeOk)
                     else PathVar.PathEdit(Ok(()), []);
      if removal.result.Err? || !now.0 then removal
      else
        var addition := PathVar.AddToPath(now.1, nowScope, ReadAfter(read, removal, wasScope, nowScope), writeOk);
        PathVar.PathEdit(addition.result, removal.writes + addition.writes)
  }

  /** The registry writes of a PATH edit, as effects. */
  function Writes(writes: seq<PathVar.PathWrite>): seq<Effect> {
    if writes == [] then [] else [WritePath(writes[0])] + Writes(writes[1..])
  }

  /** The PATH aspect of `modify_app`: each side in its own scope. */
  function AppPathChange(o: Library.App, n: Library.App, read: bool -> PathVar.PathRead, writeOk: bool): PathVar.PathEdit {
    PathChange(Library.AppPathEntry(o), o.details.config.current_user_only,
               Library.AppPathEntry(n), n.details.config.current_user_only, read, writeOk)
  }

  /** The PATH aspect of `modify_tool`: always the current user's PATH. */
  function ToolPathChange(o: Library.Tool, n: Library.Tool, read: bool -> PathVar.PathRead, writeOk: bool): PathVar.PathEdit {
    PathChange(Library.ToolPathEntry(o), true, Library.ToolPathEntry(n), true, read, writeOk)
  }

  /** The icon name of an app: its name and its own timestamp. */
  function AppIcon(a: Library.App): string {
    Install.IconName(a.details.info.name, a.timestamp)
  }

  /** The icon conversion a new shortcut is preceded by, when the app asks for a custom icon. */
  function IconFirst(a: Library.App): seq<Effect> {
    Opt(a.details.config.custom_icon, ConvertIcon(a.details.info.icon, AppIcon(a)))
  }

  function DesktopSteps(o: Library.App, n: Library.App): seq<Effect> {
    var oc, nc := o.details.config, n.details.config;
    Redo(oc.create_desktop_shortcut != nc.create_desktop_shortcut,
         oc.create_desktop_shortcut, RemoveDesktopShortcut(o.details.info.name),
         nc.create_desktop_shortcut,
         IconFirst(n) + [CreateDesktopShortcut(n.details.paths.full_path, n.details.info.name, Install.IconOf(nc, AppIcon(n)))])
  }

  /** The start-menu shortcut is redone when its flag or the scope changed. */
  function StartMenuSteps(o: Library.App, n: Library.App): seq<Effect> {
    var oc, nc := o.details.config, n.details.config;
    Redo(oc.create_start_menu_shortcut != nc.create_start_menu_shortcut || oc.current_user_only != nc.current_user_only,
         oc.create_start_menu_shortcut, RemoveStartMenuShortcut(oc.current_user_only, o.details.info.name),
         nc.create_start_menu_shortcut,
         IconFirst(n) + [CreateStartMenuShortcut(n.details.paths.full_path, nc.current_user_only, n.details.info.name,
                                                 Install.IconOf(nc, AppIcon(n)))])
  }

  /** The custom icon is regenerated when the flag or the icon data changed. */
  function IconSteps(o: Library.App, n: Library.App): seq<Effect> {
    var oc, nc := o.details.config, n.details.config;
    Redo(oc.custom_icon != nc.custom_icon || o.details.info.icon != n.details.info.icon,
         oc.custom_icon, RemoveCustomIcon(o.details.info.name, o.timestamp),
         nc.custom_icon, [ConvertIcon(n.details.info.icon, AppIcon(n))])
  }

  function RegistrySteps(o: Library.App, n: Library.App): seq<Effect> {
    var oc, nc := o.details.config, n.details.config;
    Redo(oc.create_registry_key != nc.create_registry_key,
         oc.create_registry_key, RemoveRegistryEntries(o.details.info.name, oc.current_user_only),
         nc.create_registry_key, [CreateRegistryEntries(n.details.info.name, nc.current_user_only)])
  }

  /** The plan of `modify_app` when its PATH edit succeeds, aspect by aspect in the order of the source. */
  function AppSteps(o: Library.App, n: Library.App, onDisk: string -> bool, read: bool -> PathVar.PathRead, writeOk: bool): seq<Effect> {
    MoveSteps(o.details.paths.install_path, n.details.paths.install_path, onDisk)
    + Writes(AppPathChange(o, n, read, writeOk).writes)
    + DesktopSteps(o, n) + StartMenuSteps(o, n) + IconSteps(o, n) + RegistrySteps(o, n)
  }

  /** The plan of `modify_tool`: the move, then PATH. */
  function ToolSteps(o: Library.Tool, n: Library.Tool, onDisk: string -> bool, read: bool -> PathVar.PathRead, writeOk: bool): seq<Effect> {
    MoveSteps(o.details.paths.install_path, n.details.paths.install_path, onDisk)
    + Writes(ToolPathChange(o, n, read, writeOk).writes)
  }

  /**
   * An entry saved unchanged causes no effect at all; more generally,
   * nothing is done when none of the compared fields differ.
   */
  lemma UnchangedDoesNothing(o: Library.App, n: Library.App, t: Library.Tool, u: Library.Tool, onDisk: string -> bool,
                             read: bool -> PathVar.PathRead, writeOk: bool)
    ensures (&& o.details.paths.install_path == n.details.paths.install_path
             && Library.AppPathEntry(o) == Library.AppPathEntry(n)
             && o.details.config.create_desktop_shortcut == n.details.config.create_desktop_shortcut
             && o.details.config.create_start_menu_shortcut == n.details.config.create_start_menu_shortcut
             && o.details.config.current_user_only == n.details.config.current_user_only
             && o.details.config.custom_icon == n.details.config.custom_icon
             && o.details.info.icon == n.details.info.icon
             && o.details.config.create_registry_key == n.details.config.create_registry_key)
            ==> AppSteps(o, n, onDisk, read, writeOk) == []
    ensures (&& t.details.paths.install_path == u.details.paths.install_path
             && Library.ToolPathEntry(t) == Library.ToolPathEntry(u))
            ==> ToolSteps(t, u, onDisk, read, writeOk) == []
    ensures AppSteps(o, o, onDisk, read, writeOk) == [] && ToolSteps(t, t, onDisk, read, writeOk) == []
  {
  }

  /**
   * The PATH aspect: with an equal pair nothing happens. Otherwise a removal
   * comes first when the old directory was on, and its failure is the
   * aspect's failure, with nothing after it; without an old directory the
   * aspect is the addition alone. At most two values are written.
   */
  lemma PathChangeSpec(was: (bool, string), wasScope: bool, now: (bool, string), nowScope: bool,
                       read: bool -> PathVar.PathRead, writeOk: bool)
    ensures var e := PathChange(was, wasScope, now, nowScope, read, writeOk);
      var removal := PathVar.RemoveFromPath(was.1, wasScope, read(wasScope), writeOk);
      && (was == now ==> e == PathVar.PathEdit(Ok(()), []))
      && |e.writes| <= 2
      && (was != now && !was.0 ==>
            e == (if now.0 then PathVar.AddToPath(now.1, nowScope, read(nowScope), writeOk) else PathVar.PathEdit(Ok(()), [])))
      && (was != now && was.0 ==> removal.writes <= e.writes)
      && (was != now && was.0 && removal.result.Err? ==> e == removal)
      && (was != now && was.0 && !now.0 ==> e == removal)
  {
  }

  /**
   * Moving the PATH entry within one scope whose value can be read and
   * written: the edit succeeds, and the last value written lists the new
   * directory and no longer the old one.
   */
  lemma {:induction false} PathChangeMovesEntry(was: (bool, string), now: (bool, string), scope: bool,
                                                read: bool -> PathVar.PathRead)
    requires was.0 && now.0 && read(scope).Value?
    requires ';' !in now.1 && Trim(was.1) != "" && Trim(was.1) != Trim(now.1)
    ensures var e := PathChange(was, scope, now, scope, read, true);
      && e.result.Ok? && e.writes != []
      && PathVar.Lists(e.writes[|e.writes| - 1].value, now.1)
      && !PathVar.Lists(e.writes[|e.writes| - 1].value, was.1)
  {
    var text := read(scope).text;
    var kept := PathVar.WithoutDir(text, was.1);
    PathVar.RemoveUnlists(text, was.1);
    var added := PathVar.AddedValue(kept, now.1);
    if added.Some? {
      PathVar.SegmentsOfAppend(kept, now.1);
      var segs := PathVar.Segments(kept + ";" + now.1);
      forall k | 0 <= k < |segs| ensures Trim(segs[k]) != Trim(was.1) {
        if k < |PathVar.Segments(kept)| {
          assert segs[k] == PathVar.Segments(kept)[k];
        }
      }
    }
  }

  /** The directory moves iff its path changed and the old one exists; the new one is created first. */
  lemma MoveStepsSpec(oldPath: string, newPath: string, onDisk: string -> bool)
    ensures var r := MoveSteps(oldPath, newPath, onDisk);
      && (r != [] <==> oldPath != newPath && onDisk(oldPath))
      && (r != [] ==> r == [CreateDirAll(newPath), MoveDir(oldPath, newPath)])
  {
  }

  /** Takes one aspect's steps. */
  method RedoStep(effects: seq<Effect>, changed: bool, wasOn: bool, undo: Effect, isOn: bool, redo: seq<Effect>)
    returns (effects': seq<Effect>)
    ensures effects' == effects + Redo(changed, wasOn, undo, isOn, redo)
  {
    effects' := effects;
    if changed {
      if wasOn {
        effects' := effects' + [undo];
      }
      if isOn {
        effects' := effects' + redo;
      }
    }
  }

  /**
   * `modify_app` before the list update: an unknown timestamp is an error
   * with no effect. Otherwise, against the first app with the timestamp, the
   * move and the PATH edit; a PATH error ends the script there, else the
   * remaining aspects follow, then the save.
   */
  method ModifyAppScript(apps: seq<Library.App>, newApp: Library.App, timestamp: int, onDisk: string -> bool,
                         read: bool -> PathVar.PathRead, writeOk: bool)
    returns (r: Result<()>, effects: seq<Effect>)
    ensures match Seqs.FirstIndex(apps, Library.AppStamped(timestamp))
      case None => r == Err("App not found in library") && effects == []
      case Some(i) =>
        var o := apps[i];
        && r == AppPathChange(o, newApp, read, writeOk).result
        && effects == (if r.Ok? then AppSteps(o, newApp, onDisk, read, writeOk) + [SaveList]
                       else MoveSteps(o.details.paths.install_path, newApp.details.paths.install_path, onDisk)
                            + Writes(AppPathChange(o, newApp, read, writeOk).writes))
  {
    var index := Seqs.FirstIndex(apps, Library.AppStamped(timestamp));
    if index.None? {
      return Err("App not found in library"), [];
    }
    var o := apps[index.value];
    var edit := AppPathChange(o, newApp, read, writeOk);
    effects := MoveSteps(o.details.paths.install_path, newApp.details.paths.install_path, onDisk) + Writes(edit.writes);
    if edit.result.Err? {
      return edit.result, effects;
    }
    effects := ShortcutPlan(effects, o, newApp);
    var oc, nc := o.details.config, newApp.details.config;
    effects := RedoStep(effects, oc.create_registry_key != nc.create_registry_key,
                        oc.create_registry_key, RemoveRegistryEntries(o.details.info.name, oc.current_user_only),
                        nc.create_registry_key, [CreateRegistryEntries(newApp.details.info.name, nc.current_user_only)]);
    effects := effects + [SaveList];
    r := Ok(());
  }

  /** The shortcut and icon steps of `modify_app`. */
  method ShortcutPlan(effects: seq<Effect>, o: Library.App, n: Library.App) returns (effects': seq<Effect>)
    ensures effects' == effects + DesktopSteps(o, n) + StartMenuSteps(o, n) + IconSteps(o, n)
  {
    var oc, nc := o.details.config, n.details.config;
    var icon := Install.IconOf(nc, AppIcon(n));
    effects' := RedoStep(effects, oc.create_desktop_shortcut != nc.create_desktop_shortcut,
                         oc.create_desktop_shortcut, RemoveDesktopShortcut(o.details.info.name),
                         nc.create_desktop_shortcut,
                         IconFirst(n) + [CreateDesktopShortcut(n.details.paths.full_path, n.details.info.name, icon)]);
    effects' := RedoStep(effects',
                         oc.create_start_menu_shortcut != nc.create_start_menu_shortcut
                           || oc.current_user_only != nc.current_user_only,
                         oc.create_start_menu_shortcut, RemoveStartMenuShortcut(oc.current_user_only, o.details.info.name),
                         nc.create_start_menu_shortcut,
                         IconFirst(n) + [CreateStartMenuShortcut(n.details.paths.full_path, nc.current_user_only,
                                                                 n.details.info.name, icon)]);
    effects' := RedoStep(effects', oc.custom_icon != nc.custom_icon || o.details.info.icon != n.details.info.icon,
                         oc.custom_icon, RemoveCustomIcon(o.details.info.name, o.timestamp),
                         nc.custom_icon, [ConvertIcon(n.details.info.icon, AppIcon(n))]);
  }

  /** `modify_tool` before the list update: the move, then PATH; the save only when PATH succeeded. */
  method ModifyToolScript(tools: seq<Library.Tool>, newTool: Library.Tool, timestamp: int, onDisk: string -> bool,
                          read: bool -> PathVar.PathRead, writeOk: bool)
    returns (r: Result<()>, effects: seq<Effect>)
    ensures match Seqs.FirstIndex(tools, Library.ToolStamped(timestamp))
      case None => r == Err("Tool not found in library") && effects == []
      case Some(i) =>
        && r == ToolPathChange(tools[i], newTool, read, writeOk).result
        && effects == ToolSteps(tools[i], newTool, onDisk, read, writeOk) + (if r.Ok? then [SaveList] else [])
  {
    var index := Seqs.FirstIndex(tools, Library.ToolStamped(timestamp));
    if index.None? {
      return Err("Tool not found in library"), [];
    }
    var o := tools[index.value];
    var edit := ToolPathChange(o, newTool, read, writeOk);
    effects := MoveSteps(o.details.paths.install_path, newTool.details.paths.install_path, onDisk) + Writes(edit.writes);
    if edit.result.Err? {
      return edit.result, effects;
    }
    effects := effects + [SaveList];
    r := Ok(());
  }

  /**
   * `modify_app`: when the timestamp is known and the PATH edit succeeds, the
   * first app with the timestamp is replaced by the new one as given;
   * otherwise the list is unchanged.
   */
  method ModifyApp(library: Library.Library, newApp: Library.App, timestamp: int, onDisk: string -> bool,
                   read: bool -> PathVar.PathRead, writeOk: bool)
    returns (r: Result<()>, effects: seq<Effect>)
    modifies library
    ensures match Seqs.FirstIndex(old(library.apps), Library.AppStamped(timestamp))
      case None => r.Err? && effects == [] && library.apps == old(library.apps)
      case Some(i) =>
        var o := old(library.apps)[i];
        && r == AppPathChange(o, newApp, read, writeOk).result
        && effects == (if r.Ok? then AppSteps(o, newApp, onDisk, read, writeOk) + [SaveList]
                       else MoveSteps(o.details.paths.install_path, newApp.details.paths.install_path, onDisk)
                            + Writes(AppPathChange(o, newApp, read, writeOk).writes))
        && library.apps == (if r.Ok? then Library.AppsAfterModify(old(library.apps), timestamp, newApp) else old(library.apps))
    ensures library.tools == old(library.tools) && library.urls == old(library.urls)
  {
    r, effects := ModifyAppScript(library.apps, newApp, timestamp, onDisk, read, writeOk);
    if r.Ok? {
      library.ReplaceApp(timestamp, newApp);
    }
  }

  /** `modify_tool`: as for apps, on the tool list. */
  method ModifyTool(library: Library.Library, newTool: Library.Tool, timestamp: int, onDisk: string -> bool,
                    read: bool -> PathVar.PathRead, writeOk: bool)
    returns (r: Result<()>, effects: seq<Effect>)
    modifies library
    ensures match Seqs.FirstIndex(old(library.tools), Library.ToolStamped(timestamp))
      case None => r.Err? && effects == [] && library.tools == old(library.tools)
      case Some(i) =>
        && r == ToolPathChange(old(library.tools)[i], newTool, read, writeOk).result
        && effects == ToolSteps(old(library.tools)[i], newTool, onDisk, read, writeOk) + (if r.Ok? then [SaveList] else [])
        && library.tools == (if r.Ok? then Library.ToolsAfterModify(old(library.tools), timestamp, newTool) else old(library.tools))
    ensures library.apps == old(library.apps) && library.urls == old(library.urls)
  {
    r, effects := ModifyToolScript(library.tools, newTool, timestamp, onDisk, read, writeOk);
    if r.Ok? {
      library.ReplaceTool(timestamp, newTool);
    }
  }
}
