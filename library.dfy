/**
 * The `Library` of `configs/library/structs.rs` (apps, tools and urls) and
 * the record bookkeeping done on it: the upserts of
 * `configs/library/updates.rs`, the status rules of
 * `configs/library/validation.rs` and the entry replacement at the end of
 * `operations/modify/modify_app.rs` and `modify_tool.rs`.
 *
 * `validation.rs` and the modify operations read a few fields under older
 * names (`details.full_path`, `details.install_path`,
 * `details.current_user_only`, an `add_to_path: (bool, String)` pair); they
 * are read here from the fields of the record shape above:
 * `paths.full_path`, `paths.install_path`, `config.current_user_only` and the
 * pair (`config.add_to_path`, `config.full_path_directory`).
 */
module Library {
  import Seqs
  import opened Base
  import Records
  import WinPaths
  import PathVar

  datatype AppBasicInformation = AppBasicInformation(name: string, icon: string, publisher: string, version: string)

  datatype AppConfig = AppConfig(
    archive_exe_path: string,
    archive_password: string,
    current_user_only: bool,
    create_desktop_shortcut: bool,
    create_start_menu_shortcut: bool,
    create_registry_key: bool,
    custom_icon: bool,
    add_to_path: bool,
    archive_path_directory: string,
    full_path_directory: string)

  datatype AppPaths = AppPaths(parent_install_path: string, install_path: string, full_path: string)

  datatype AppValidationStatus = AppValidationStatus(file_exists: bool, registry_valid: bool, path_exists: bool)

  datatype AppDetails = AppDetails(
    info: AppBasicInformation,
    config: AppConfig,
    paths: AppPaths,
    validation_status: AppValidationStatus)

  datatype App = App(timestamp: int, installed: bool, url: string, details: AppDetails)

  datatype ToolConfig = ToolConfig(
    archive_password: string,
    add_to_path: bool,
    archive_path_directory: string,
    full_path_directory: string)

  datatype ToolPaths = ToolPaths(parent_install_path: string, install_path: string)

  datatype ToolValidationStatus = ToolValidationStatus(file_exists: bool, path_exists: bool)

  datatype ToolDetails = ToolDetails(name: string, config: ToolConfig, paths: ToolPaths, validation_status: ToolValidationStatus)

  datatype Tool = Tool(timestamp: int, installed: bool, url: string, details: ToolDetails)

  datatype Url = Url(url: string, timestamp: int)

  /** The PATH request of an app or a tool, the `add_to_path` pair: enabled, and the directory. */
  function AppPathEntry(a: App): (bool, string) {
    (a.details.config.add_to_path, a.details.config.full_path_directory)
  }

  function ToolPathEntry(t: Tool): (bool, string) {
    (t.details.config.add_to_path, t.details.config.full_path_directory)
  }

  function AppStamped(timestamp: int): App -> bool {
    (a: App) => a.timestamp == timestamp
  }

  function ToolStamped(timestamp: int): Tool -> bool {
    (t: Tool) => t.timestamp == timestamp
  }

  // ---------------------------------------------------------------------
  // update_app_list_from_config
  // ---------------------------------------------------------------------

  /** The arguments of `install_app`. */
  datatype AppInstallConfig = AppInstallConfig(
    zip_path: string,
    password: Option<string>,
    timestamp: int,
    details: AppDetails,
    url: Option<string>)

  /**
   * The app record `update_app_list_from_config` builds from the install
   * config, the executable found, the PATH directory and the clock `now`.
   */
  function NewApp(c: AppInstallConfig, fullPath: string, fullPathDirectory: string, now: int): (a: App)
    ensures a.installed && a.url == UnwrapOr(c.url, "")
    ensures a.timestamp == if c.timestamp != 0 then c.timestamp else now
    ensures a.details.info == c.details.info
    ensures a.details.paths == c.details.paths.(full_path := fullPath)
    ensures a.details.config == c.details.config.(full_path_directory := fullPathDirectory)
    ensures a.details.validation_status == AppValidationStatus(true, true, true)
  {
    var details := c.details.(
      paths := c.details.paths.(full_path := fullPath),
      config := c.details.config.(full_path_directory := fullPathDirectory),
      validation_status := AppValidationStatus(true, true, true));
    App(if c.timestamp != 0 then c.timestamp else now, true, UnwrapOr(c.url, ""), details)
  }

  /** An app with the timestamp zeroed and the version blanked, as the `retain` test compares them. */
  function Normalised(a: App): App {
    a.(timestamp := 0, details := a.details.(info := a.details.info.(version := "")))
  }

  /** The `retain` test: the app differs from the new one beyond timestamp and version. */
  function OtherApp(item: App): App -> bool {
    (a: App) => Normalised(a) != Normalised(item)
  }

  /** Marks an app installed again, with new details. */
  function ReinstalledApp(details: AppDetails): App -> App {
    (a: App) => a.(installed := true, details := details)
  }

  /**
   * The app list after `update_app_list_from_config`: with a timestamp, the
   * first app with it is marked installed with the new details; without one,
   * apps equal to the new one up to timestamp and version are dropped and the
   * new app is pushed.
   */
  function AppsAfterInstall(apps: seq<App>, c: AppInstallConfig, fullPath: string, fullPathDirectory: string, now: int): seq<App> {
    var item := NewApp(c, fullPath, fullPathDirectory, now);
    if c.timestamp != 0 then Records.UpdateFirst(apps, AppStamped(c.timestamp), ReinstalledApp(item.details))
    else Records.Replaced(apps, OtherApp(item), item)
  }

  /**
   * With a timestamp, the list keeps its length, no timestamp or url
   * changes, and only the first app with the timestamp changes (to
   * installed, with the new details); with no such app nothing changes.
   * Without a timestamp, the new app stamped `now` comes last, after exactly
   * the old apps that differ from it beyond timestamp and version, in their
   * order.
   */
  lemma AppsAfterInstallSpec(apps: seq<App>, c: AppInstallConfig, fullPath: string, fullPathDirectory: string, now: int)
    ensures var r := AppsAfterInstall(apps, c, fullPath, fullPathDirectory, now);
      var item := NewApp(c, fullPath, fullPathDirectory, now);
      c.timestamp != 0 ==>
        && |r| == |apps|
        && (forall k :: 0 <= k < |apps| ==> r[k].timestamp == apps[k].timestamp && r[k].url == apps[k].url)
        && (forall k :: 0 <= k < |apps| ==>
              r[k] == if Records.FirstAt(apps, AppStamped(c.timestamp), k)
                      then apps[k].(installed := true, details := item.details) else apps[k])
        && ((forall k :: 0 <= k < |apps| ==> apps[k].timestamp != c.timestamp) ==> r == apps)
    ensures var r := AppsAfterInstall(apps, c, fullPath, fullPathDirectory, now);
      var item := NewApp(c, fullPath, fullPathDirectory, now);
      c.timestamp == 0 ==>
        && |r| >= 1 && r[|r| - 1] == item && item.timestamp == now
        && Seqs.IsSubsequence(r[..|r| - 1], apps)
        && (forall e :: e in r[..|r| - 1] <==> e in apps && Normalised(e) != Normalised(item))
        && (forall e :: multiset(r[..|r| - 1])[e] == if Normalised(e) != Normalised(item) then multiset(apps)[e] else 0)
  {
    var item := NewApp(c, fullPath, fullPathDirectory, now);
    if c.timestamp != 0 {
      Records.UpdateFirstSpec(apps, AppStamped(c.timestamp), ReinstalledApp(item.details));
    } else {
      ReplacedApps(apps, item);
    }
  }

  /** `retain` then `push` on apps, with the `retain` test written out. */
  lemma ReplacedApps(apps: seq<App>, item: App)
    ensures var r := Records.Replaced(apps, OtherApp(item), item);
      && |r| >= 1 && r[|r| - 1] == item
      && Seqs.IsSubsequence(r[..|r| - 1], apps)
      && (forall e :: e in r[..|r| - 1] <==> e in apps && Normalised(e) != Normalised(item))
      && (forall e :: multiset(r[..|r| - 1])[e] == if Normalised(e) != Normalised(item) then multiset(apps)[e] else 0)
  {
    Records.ReplacedSpec(apps, OtherApp(item), item);
    forall e ensures OtherApp(item)(e) == (Normalised(e) != Normalised(item)) {
    }
  }

  // ---------------------------------------------------------------------
  // update_tool_list_from_config
  // ---------------------------------------------------------------------

  /** The fields of the tool install config that `update_tool_list_from_config` reads. */
  datatype ToolRecordConfig = ToolRecordConfig(
    name: string,
    password: Option<string>,
    parent_install_path: string,
    url: Option<string>,
    timestamp: int)

  /** The tool record `update_tool_list_from_config` builds; PATH is never recorded for a tool. */
  function NewTool(c: ToolRecordConfig, installPath: string, now: int): (t: Tool)
    ensures t.installed && t.url == UnwrapOr(c.url, "")
    ensures t.timestamp == if c.timestamp != 0 then c.timestamp else now
    ensures t.details.name == c.name
    ensures t.details.config == ToolConfig(UnwrapOr(c.password, ""), false, "", "")
    ensures t.details.paths == ToolPaths(c.parent_install_path, installPath)
    ensures t.details.validation_status == ToolValidationStatus(true, true)
  {
    var details := ToolDetails(
      c.name,
      ToolConfig(UnwrapOr(c.password, ""), false, "", ""),
      ToolPaths(c.parent_install_path, installPath),
      ToolValidationStatus(true, true));
    Tool(if c.timestamp != 0 then c.timestamp else now, true, UnwrapOr(c.url, ""), details)
  }

  /** The `retain` test for tools: the tool differs from the new one beyond the timestamp. */
  function OtherTool(item: Tool): Tool -> bool {
    (t: Tool) => t.(timestamp := 0) != item.(timestamp := 0)
  }

  function ReinstalledTool(details: ToolDetails): Tool -> Tool {
    (t: Tool) => t.(installed := true, details := details)
  }

  /**
   * The tool list after `update_tool_list_from_config`: as for apps, except
   * that a timestamp with no matching tool pushes the new tool, and the
   * `retain` test ignores only the timestamp.
   */
  function ToolsAfterInstall(tools: seq<Tool>, c: ToolRecordConfig, installPath: string, now: int): seq<Tool> {
    var item := NewTool(c, installPath, now);
    if c.timestamp != 0 then
      if Records.Any(tools, ToolStamped(c.timestamp)) then
        Records.UpdateFirst(tools, ToolStamped(c.timestamp), ReinstalledTool(item.details))
      else tools + [item]
    else Records.Replaced(tools, OtherTool(item), item)
  }

  /**
   * With a timestamp that some tool carries, the list keeps its length and
   * only the first such tool changes (to installed, with the new details);
   * with a timestamp no tool carries, the new tool is appended under that
   * timestamp. Without a timestamp, the new tool stamped `now` comes last,
   * after exactly the old tools that differ from it beyond the timestamp.
   */
  lemma ToolsAfterInstallSpec(tools: seq<Tool>, c: ToolRecordConfig, installPath: string, now: int)
    ensures var r := ToolsAfterInstall(tools, c, installPath, now);
      var item := NewTool(c, installPath, now);
      (c.timestamp != 0 && exists k :: 0 <= k < |tools| && tools[k].timestamp == c.timestamp) ==>
        && |r| == |tools|
        && (forall k :: 0 <= k < |tools| ==>
              r[k] == if Records.FirstAt(tools, ToolStamped(c.timestamp), k)
                      then tools[k].(installed := true, details := item.details) else tools[k])
    ensures var r := ToolsAfterInstall(tools, c, installPath, now);
      (c.timestamp != 0 && forall k :: 0 <= k < |tools| ==> tools[k].timestamp != c.timestamp) ==>
        r == tools + [NewTool(c, installPath, now)] && r[|r| - 1].timestamp == c.timestamp
    ensures var r := ToolsAfterInstall(tools, c, installPath, now);
      var item := NewTool(c, installPath, now);
      c.timestamp == 0 ==>
        && |r| >= 1 && r[|r| - 1] == item && item.timestamp == now
        && Seqs.IsSubsequence(r[..|r| - 1], tools)
        && (forall e :: e in r[..|r| - 1] <==> e in tools && e.(timestamp := 0) != item.(timestamp := 0))
        && (forall e :: multiset(r[..|r| - 1])[e] == if e.(timestamp := 0) != item.(timestamp := 0) then multiset(tools)[e] else 0)
  {
    var item := NewTool(c, installPath, now);
    if c.timestamp != 0 {
      Records.UpdateFirstSpec(tools, ToolStamped(c.timestamp), ReinstalledTool(item.details));
    } else {
      Records.ReplacedSpec(tools, OtherTool(item), item);
      forall e ensures OtherTool(item)(e) == (e.(timestamp := 0) != item.(timestamp := 0)) {
      }
    }
  }

  // ---------------------------------------------------------------------
  // validate_installs
  // ---------------------------------------------------------------------

  /**
   * The PATH check: the value of the scope could be read and one of its
   * segments, trimmed, equals the trimmed directory.
   */
  predicate PathHolds(read: PathVar.PathRead, dir: string) {
    read.Value? && PathVar.Lists(read.text, dir)
  }

  /**
   * The status `validate_installs` computes for an app: `fileExists` answers
   * `try_exists` (an error counts as absent), `comments` reads the
   * `Comments` value of a registry key, `pathRead` reads the PATH of a scope
   * (current user or machine).
   */
  function ValidateApp(a: App, fileExists: string -> bool, comments: WinPaths.Comments,
                       pathRead: bool -> PathVar.PathRead): App {
    if !a.installed then a
    else
      var c := a.details.config;
      var registryValid :=
        if c.create_registry_key then
          comments(WinPaths.UninstallKey(c.current_user_only, a.details.info.name)) == Some(WinPaths.InstalledComment)
        else true;
      var pathValid := if c.add_to_path then PathHolds(pathRead(c.current_user_only), c.full_path_directory) else true;
      a.(details := a.details.(validation_status :=
        AppValidationStatus(fileExists(a.details.paths.full_path), registryValid, pathValid)))
  }

  /** The status `validate_installs` computes for a tool; tools are checked on the current user's PATH. */
  function ValidateTool(t: Tool, fileExists: string -> bool, pathRead: bool -> PathVar.PathRead): Tool {
    if !t.installed then t
    else
      var c := t.details.config;
      var pathValid := if c.add_to_path then PathHolds(pathRead(true), c.full_path_directory) else true;
      t.(details := t.details.(validation_status := ToolValidationStatus(fileExists(t.details.paths.install_path), pathValid)))
  }

  /**
   * Uninstalled entries keep their status; for installed ones only the
   * status changes. The registry flag holds when no key was requested and
   * otherwise iff the uninstall key of the app's scope carries the
   * installer's comment; the PATH flag holds when PATH was not requested and
   * otherwise iff the PATH of the scope could be read and lists the
   * directory.
   */
  lemma ValidateSpec(a: App, t: Tool, fileExists: string -> bool, comments: WinPaths.Comments,
                     pathRead: bool -> PathVar.PathRead)
    ensures var v := ValidateApp(a, fileExists, comments, pathRead);
      var s := v.details.validation_status;
      var c := a.details.config;
      && (!a.installed ==> v == a)
      && v == a.(details := a.details.(validation_status := s))
      && (a.installed ==> s.file_exists == fileExists(a.details.paths.full_path))
      && (a.installed ==> (s.registry_valid <==> (!c.create_registry_key
            || comments(WinPaths.UninstallKey(c.current_user_only, a.details.info.name)) == Some(WinPaths.InstalledComment))))
      && (a.installed ==> (s.path_exists <==> (!c.add_to_path
            || (pathRead(c.current_user_only).Value?
                && PathVar.Lists(pathRead(c.current_user_only).text, c.full_path_directory)))))
    ensures var v := ValidateTool(t, fileExists, pathRead);
      var s := v.details.validation_status;
      && (!t.installed ==> v == t)
      && v == t.(details := t.details.(validation_status := s))
      && (t.installed ==> s.file_exists == fileExists(t.details.paths.install_path))
      && (t.installed ==> (s.path_exists <==> (!t.details.config.add_to_path
            || (pathRead(true).Value? && PathVar.Lists(pathRead(true).text, t.details.config.full_path_directory)))))
  {
  }

  /**
   * The all-valid status recorded at install time is the one
   * `validate_installs` computes once the install is in place: the
   * executable exists, the requested uninstall key carries the installer's
   * comment and the requested PATH lists the recorded directory. Validating
   * a freshly recorded app then changes nothing.
   */
  lemma RecordedAppValidates(c: AppInstallConfig, fullPath: string, fullPathDirectory: string, now: int,
                             fileExists: string -> bool, comments: WinPaths.Comments,
                             pathRead: bool -> PathVar.PathRead)
    requires fileExists(fullPath)
    requires c.details.config.create_registry_key ==>
      comments(WinPaths.UninstallKey(c.details.config.current_user_only, c.details.info.name))
        == Some(WinPaths.InstalledComment)
    requires c.details.config.add_to_path ==> PathHolds(pathRead(c.details.config.current_user_only), fullPathDirectory)
    ensures var a := NewApp(c, fullPath, fullPathDirectory, now);
      ValidateApp(a, fileExists, comments, pathRead) == a
  {
  }

  /**
   * A freshly recorded tool is off PATH, so validating it changes nothing
   * as long as its install directory exists.
   */
  lemma RecordedToolValidates(c: ToolRecordConfig, installPath: string, now: int,
                              fileExists: string -> bool, pathRead: bool -> PathVar.PathRead)
    requires fileExists(installPath)
    ensures var t := NewTool(c, installPath, now);
      ValidateTool(t, fileExists, pathRead) == t
  {
  }

  // ---------------------------------------------------------------------
  // The entry replacement of modify_app / modify_tool
  // ---------------------------------------------------------------------

  /** `*app = new_app` on the first app with the timestamp. */
  function AppsAfterModify(apps: seq<App>, timestamp: int, newApp: App): seq<App> {
    Records.UpdateFirst(apps, AppStamped(timestamp), (_: App) => newApp)
  }

  function ToolsAfterModify(tools: seq<Tool>, timestamp: int, newTool: Tool): seq<Tool> {
    Records.UpdateFirst(tools, ToolStamped(timestamp), (_: Tool) => newTool)
  }

  /**
   * Only the first entry with the timestamp is replaced, by the new record
   * as given (its own timestamp included); every other entry and the length
   * are kept.
   */
  lemma AfterModifySpec(apps: seq<App>, tools: seq<Tool>, timestamp: int, newApp: App, newTool: Tool)
    ensures var r := AppsAfterModify(apps, timestamp, newApp);
      && |r| == |apps|
      && (forall k :: 0 <= k < |apps| ==> r[k] == if Records.FirstAt(apps, AppStamped(timestamp), k) then newApp else apps[k])
    ensures var r := ToolsAfterModify(tools, timestamp, newTool);
      && |r| == |tools|
      && (forall k :: 0 <= k < |tools| ==> r[k] == if Records.FirstAt(tools, ToolStamped(timestamp), k) then newTool else tools[k])
  {
    Records.UpdateFirstSpec(apps, AppStamped(timestamp), (_: App) => newApp);
    Records.UpdateFirstSpec(tools, ToolStamped(timestamp), (_: Tool) => newTool);
  }

  /** The library file: apps, tools and the recorded urls. */
  class Library {
    var apps: seq<App>
    var tools: seq<Tool>
    var urls: seq<Url>

    constructor (apps: seq<App>, tools: seq<Tool>, urls: seq<Url>)
      ensures this.apps == apps && this.tools == tools && this.urls == urls
    {
      this.apps, this.tools, this.urls := apps, tools, urls;
    }

    /** `update_app_list_from_config`, before the save. */
    method UpdateAppListFromConfig(c: AppInstallConfig, fullPath: string, fullPathDirectory: string, now: int)
      modifies this
      ensures apps == AppsAfterInstall(old(apps), c, fullPath, fullPathDirectory, now)
      ensures tools == old(tools) && urls == old(urls)
    {
      var details := c.details.(
        paths := c.details.paths.(full_path := fullPath),
        config := c.details.config.(full_path_directory := fullPathDirectory),
        validation_status := AppValidationStatus(true, true, true));
      var newApp := App(if c.timestamp != 0 then c.timestamp else now, true, UnwrapOr(c.url, ""), details);
      if c.timestamp != 0 {
        var index := Seqs.FirstIndex(apps, AppStamped(c.timestamp));
        if index.Some? {
          apps := apps[index.value := apps[index.value].(installed := true, details := newApp.details)];
        }
      } else {
        apps := Seqs.Filter(apps, OtherApp(newApp)) + [newApp];
      }
    }

    /** `update_tool_list_from_config`, before the save. */
    method UpdateToolListFromConfig(c: ToolRecordConfig, installPath: string, now: int)
      modifies this
      ensures tools == ToolsAfterInstall(old(tools), c, installPath, now)
      ensures apps == old(apps) && urls == old(urls)
    {
      var newTool := Tool(if c.timestamp != 0 then c.timestamp else now, true, UnwrapOr(c.url, ""), ToolDetails(
        c.name,
        ToolConfig(UnwrapOr(c.password, ""), false, "", ""),
        ToolPaths(c.parent_install_path, installPath),
        ToolValidationStatus(true, true)));
      if c.timestamp != 0 {
        var index := Seqs.FirstIndex(tools, ToolStamped(c.timestamp));
        if index.Some? {
          tools := tools[index.value := tools[index.value].(installed := true, details := newTool.details)];
        } else {
          tools := tools + [newTool];
        }
      } else {
        tools := Seqs.Filter(tools, OtherTool(newTool)) + [newTool];
      }
    }

    /** `validate_installs`: recomputes the status of every installed app, then of every installed tool, in place. */
    method ValidateInstalls(fileExists: string -> bool, comments: WinPaths.Comments, pathRead: bool -> PathVar.PathRead)
      modifies this
      ensures |apps| == |old(apps)| && |tools| == |old(tools)| && urls == old(urls)
      ensures forall k :: 0 <= k < |apps| ==> apps[k] == ValidateApp(old(apps)[k], fileExists, comments, pathRead)
      ensures forall k :: 0 <= k < |tools| ==> tools[k] == ValidateTool(old(tools)[k], fileExists, pathRead)
    {
      var i := 0;
      while i < |apps|
        invariant i <= |apps| == |old(apps)| && tools == old(tools) && urls == old(urls)
        invariant forall k :: 0 <= k < i ==> apps[k] == ValidateApp(old(apps)[k], fileExists, comments, pathRead)
        invariant forall k :: i <= k < |apps| ==> apps[k] == old(apps)[k]
      {
        var app := apps[i];
        if app.installed {
          var c := app.details.config;
          var fileExistsNow := fileExists(app.details.paths.full_path);
          var registryValid := true;
          if c.create_registry_key {
            registryValid := comments(WinPaths.UninstallKey(c.current_user_only, app.details.info.name)) == Some(WinPaths.InstalledComment);
          }
          var pathValid := true;
          if c.add_to_path {
            pathValid := PathHolds(pathRead(c.current_user_only), c.full_path_directory);
          }
          apps := apps[i := app.(details := app.details.(validation_status :=
            AppValidationStatus(fileExistsNow, registryValid, pathValid)))];
        }
        i := i + 1;
      }
      var j := 0;
      while j < |tools|
        invariant j <= |tools| == |old(tools)| && |apps| == |old(apps)| && urls == old(urls)
        invariant forall k :: 0 <= k < |apps| ==> apps[k] == ValidateApp(old(apps)[k], fileExists, comments, pathRead)
        invariant forall k :: 0 <= k < j ==> tools[k] == ValidateTool(old(tools)[k], fileExists, pathRead)
        invariant forall k :: j <= k < |tools| ==> tools[k] == old(tools)[k]
      {
        var tool := tools[j];
        if tool.installed {
          var fileExistsNow := fileExists(tool.details.paths.install_path);
          var pathValid := true;
          if tool.details.config.add_to_path {
            pathValid := PathHolds(pathRead(true), tool.details.config.full_path_directory);
          }
          tools := tools[j := tool.(details := tool.details.(validation_status := ToolValidationStatus(fileExistsNow, pathValid)))];
        }
        j := j + 1;
      }
    }

    /** The replacement step of `modify_app`. */
    method ReplaceApp(timestamp: int, newApp: App)
      modifies this
      ensures apps == AppsAfterModify(old(apps), timestamp, newApp) && tools == old(tools) && urls == old(urls)
    {
      var index := Seqs.FirstIndex(apps, AppStamped(timestamp));
      if index.Some? {
        apps := apps[index.value := newApp];
      }
    }

    /** The replacement step of `modify_tool`. */
    method ReplaceTool(timestamp: int, newTool: Tool)
      modifies this
      ensures tools == ToolsAfterModify(old(tools), timestamp, newTool) && apps == old(apps) && urls == old(urls)
    {
      var index := Seqs.FirstIndex(tools, ToolStamped(timestamp));
      if index.Some? {
        tools := tools[index.value := newTool];
      }
    }
  }
}
