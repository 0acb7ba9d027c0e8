/**
 * The `AppList` of `configs/app_list/impls.rs`, which holds apps and libs:
 * the url lookup, the duplicate removal of both lists, the merge of apps
 * found in the registry, the validation of installed entries, the list
 * updates after an uninstall (`operations/uninstall/mod.rs`) and the lib
 * record written by `operations/install/install_lib.rs`.
 */
module Catalog {
  import Seqs
  import opened Base
  import Dedup
  import Records
  import WinPaths
  import PathVar

  datatype AppBasicInformation = AppBasicInformation(name: string, icon: string, publisher: string, version: string)

  datatype AppConfig = AppConfig(
    archive_exe_path: string,
    archive_password: string,
    current_user_only: bool,
    create_desktop_shortcut: bool,
    create_start_menu_shortcut: bool,
    create_registry_key: bool,
    add_to_path: bool,
    archive_path_directory: string,
    full_path_directory: string)

  datatype AppPaths = AppPaths(parent_install_path: string, install_path: string, full_path: string)

  datatype AppValidationStatus = AppValidationStatus(file_exists: bool, registry_valid: bool, path_exists: bool)

  datatype AppDetails = AppDetails(
    info: AppBasicInformation,
    config: AppConfig,
    paths: AppPaths,
    validation_status: AppValidationStatus)

  datatype App = App(timestamp: int, installed: bool, url: string, details: AppDetails)

  datatype LibConfig = LibConfig(
    archive_password: string,
    add_to_path: bool,
    archive_path_directory: string,
    full_path_directory: string)

  datatype LibPaths = LibPaths(parent_install_path: string, install_path: string)

  datatype LibValidationStatus = LibValidationStatus(file_exists: bool, path_exists: bool)

  datatype LibDetails = LibDetails(name: string, config: LibConfig, paths: LibPaths, validation_status: LibValidationStatus)

  datatype Lib = Lib(timestamp: int, installed: bool, url: string, details: LibDetails)

  /** `has_link`: some installed app or installed lib has exactly this url. */
  function HasLink(apps: seq<App>, libs: seq<Lib>, url: string): (r: bool)
    ensures r <==> ((exists i :: 0 <= i < |apps| && apps[i].url == url && apps[i].installed)
                 || (exists i :: 0 <= i < |libs| && libs[i].url == url && libs[i].installed))
  {
    Records.Any(apps, (a: App) => a.url == url && a.installed)
    || Records.Any(libs, (l: Lib) => l.url == url && l.installed)
  }

  /** Two apps are duplicates: same executable path, and equal once timestamps are zeroed and versions blanked. */
  predicate IsAppDuplicate(a: App, b: App) {
    a.details.paths.full_path == b.details.paths.full_path
    && a.(timestamp := 0, details := a.details.(info := a.details.info.(version := "")))
       == b.(timestamp := 0, details := b.details.(info := b.details.info.(version := "")))
  }

  /** Two libs are duplicates: same install path, and equal once timestamps are zeroed. */
  predicate IsLibDuplicate(a: Lib, b: Lib) {
    a.details.paths.install_path == b.details.paths.install_path && a.(timestamp := 0) == b.(timestamp := 0)
  }

  function AppStamp(a: App): int {
    a.timestamp
  }

  function LibStamp(l: Lib): int {
    l.timestamp
  }

  /**
   * Duplicate apps agree on everything but the timestamp and the version;
   * duplicate libs agree on everything but the timestamp (their version is
   * not ignored). Both relations are symmetric.
   */
  lemma DuplicateSpec(a: App, b: App, l: Lib, m: Lib)
    ensures IsAppDuplicate(a, b) <==>
      a == b.(timestamp := a.timestamp, details := b.details.(info := b.details.info.(version := a.details.info.version)))
    ensures IsAppDuplicate(a, b) <==> IsAppDuplicate(b, a)
    ensures IsLibDuplicate(l, m) <==> l == m.(timestamp := l.timestamp)
    ensures IsLibDuplicate(l, m) <==> IsLibDuplicate(m, l)
  {
    if IsAppDuplicate(a, b) {
      assert a.details.info.(version := "") == b.details.info.(version := "");
    }
  }

  /** An installed app has the registry app's name and executable path. */
  predicate Matches(a: App, reg: AppDetails) {
    a.installed && a.details.info.name == reg.info.name && a.details.paths.full_path == reg.paths.full_path
  }

  /** The app `sync_from_registry` pushes for a registry app at time `now`. */
  function MadeAt(now: int): AppDetails -> App {
    (reg: AppDetails) => App(now, true, "", reg)
  }

  function Synced(apps: seq<App>, regs: seq<AppDetails>, now: int): seq<App> {
    Records.Synced(apps, regs, Matches, MadeAt(now))
  }

  /**
   * The merge only appends installed registry apps with an empty url;
   * afterwards every registry app is listed, and merging again adds nothing.
   */
  lemma SyncedSpec(apps: seq<App>, regs: seq<AppDetails>, now: int, later: int)
    ensures var r := Synced(apps, regs, now);
      && apps <= r
      && (forall k :: |apps| <= k < |r| ==>
            r[k].installed && r[k].url == "" && r[k].timestamp == now && r[k].details in regs)
      && (forall j :: 0 <= j < |regs| ==> exists i :: 0 <= i < |r| && Matches(r[i], regs[j]))
      && Synced(r, regs, later) == r
  {
    Records.SyncedSpec(apps, regs, Matches, MadeAt(now));
    Records.SyncedIdempotent(apps, regs, Matches, MadeAt(now), MadeAt(later));
    var r := Synced(apps, regs, now);
    forall k | |apps| <= k < |r| ensures r[k].details in regs {
      var j :| 0 <= j < |regs| && r[k] == MadeAt(now)(regs[j]);
    }
  }

  /**
   * The PATH check: the value of the scope could be read and one of its
   * segments, trimmed, equals the trimmed directory.
   */
  predicate PathHolds(read: PathVar.PathRead, dir: string) {
    read.Value? && PathVar.Lists(read.text, dir)
  }

  /** The status `validate_installs` computes for an app; `pathRead` answers per scope (current user or not). */
  function ValidateApp(a: App, fileExists: string -> bool, comments: WinPaths.Comments,
                       pathRead: bool -> PathVar.PathRead): App {
    if !a.installed then a
    else
      var c := a.details.config;
      var registryValid :=
        if c.create_registry_key then
          comments(WinPaths.UninstallKey(c.current_user_only, a.details.info.name)) == Some(WinPaths.InstalledComment)
        else true;
      var pathValid := if c.add_to_path then PathHolds(pathRead(c.current_user_only), c.full_path_directory) else true;
      a.(details := a.details.(validation_status :=
        AppValidationStatus(fileExists(a.details.paths.full_path), registryValid, pathValid)))
  }

  /** The status `validate_installs` computes for a lib; libs are always on the current user's PATH. */
  function ValidateLib(l: Lib, fileExists: string -> bool, pathRead: bool -> PathVar.PathRead): Lib {
    if !l.installed then l
    else
      var c := l.details.config;
      var pathValid := if c.add_to_path then PathHolds(pathRead(true), c.full_path_directory) else true;
      l.(details := l.details.(validation_status := LibValidationStatus(fileExists(l.details.paths.install_path), pathValid)))
  }

  /**
   * Uninstalled entries keep their status; for installed ones only the
   * status changes. The registry flag holds when no key was requested and
   * otherwise iff the uninstall key carries the installer's comment; the
   * PATH flag holds when PATH was not requested and otherwise iff the PATH
   * of the scope could be read and lists the directory.
   */
  lemma ValidateSpec(a: App, l: Lib, fileExists: string -> bool, comments: WinPaths.Comments,
                     pathRead: bool -> PathVar.PathRead)
    ensures var v := ValidateApp(a, fileExists, comments, pathRead);
      var s := v.details.validation_status;
      var c := a.details.config;
      && (!a.installed ==> v == a)
      && v == a.(details := a.details.(validation_status := s))
      && (a.installed ==> s.file_exists == fileExists(a.details.paths.full_path))
      && (a.installed ==> (s.registry_valid <==> (!c.create_registry_key
            || comments(WinPaths.UninstallKey(c.current_user_only, a.details.info.name)) == Some(WinPaths.InstalledComment))))
      && (a.installed ==> (s.path_exists <==> (!c.add_to_path
            || (pathRead(c.current_user_only).Value?
                && PathVar.Lists(pathRead(c.current_user_only).text, c.full_path_directory)))))
    ensures var v := ValidateLib(l, fileExists, pathRead);
      var s := v.details.validation_status;
      && (!l.installed ==> v == l)
      && v == l.(details := l.details.(validation_status := s))
      && (l.installed ==> s.file_exists == fileExists(l.details.paths.install_path))
      && (l.installed ==> (s.path_exists <==> (!l.details.config.add_to_path
            || PathHolds(pathRead(true), l.details.config.full_path_directory))))
  {
  }

  /** The entry the uninstall updates look for. */
  function AppStamped(timestamp: int): App -> bool {
    (a: App) => a.timestamp == timestamp
  }

  function LibStamped(timestamp: int): Lib -> bool {
    (l: Lib) => l.timestamp == timestamp
  }

  /** `update_app_list_after_uninstall`: the first app with the timestamp is marked uninstalled if it has a url, else removed. */
  function AfterUninstallApp(apps: seq<App>, timestamp: int): seq<App> {
    Records.Retire(apps, AppStamped(timestamp), (a: App) => a.url != "", (a: App) => a.(installed := false))
  }

  /** `update_lib_list_after_uninstall`: the same rule on the libs. */
  function AfterUninstallLib(libs: seq<Lib>, timestamp: int): seq<Lib> {
    Records.Retire(libs, LibStamped(timestamp), (l: Lib) => l.url != "", (l: Lib) => l.(installed := false))
  }

  /**
   * After an uninstall, the first app with the timestamp is kept but marked
   * uninstalled when it has a url, and removed otherwise; every other app
   * keeps its value and order, and with no such app nothing changes.
   */
  lemma AfterUninstallAppSpec(apps: seq<App>, timestamp: int)
    ensures (forall k :: 0 <= k < |apps| ==> apps[k].timestamp != timestamp) ==> AfterUninstallApp(apps, timestamp) == apps
    ensures forall i :: Records.FirstAt(apps, AppStamped(timestamp), i) && apps[i].url != "" ==>
      AfterUninstallApp(apps, timestamp) == apps[i := apps[i].(installed := false)]
    ensures forall i :: Records.FirstAt(apps, AppStamped(timestamp), i) && apps[i].url == "" ==>
      AfterUninstallApp(apps, timestamp) == apps[..i] + apps[i + 1..]
  {
    Records.RetireSpec(apps, AppStamped(timestamp), (a: App) => a.url != "", (a: App) => a.(installed := false));
  }

  /** The lib variant of the same rule. */
  lemma AfterUninstallLibSpec(libs: seq<Lib>, timestamp: int)
    ensures (forall k :: 0 <= k < |libs| ==> libs[k].timestamp != timestamp) ==> AfterUninstallLib(libs, timestamp) == libs
    ensures forall i :: Records.FirstAt(libs, LibStamped(timestamp), i) && libs[i].url != "" ==>
      AfterUninstallLib(libs, timestamp) == libs[i := libs[i].(installed := false)]
    ensures forall i :: Records.FirstAt(libs, LibStamped(timestamp), i) && libs[i].url == "" ==>
      AfterUninstallLib(libs, timestamp) == libs[..i] + libs[i + 1..]
  {
    Records.RetireSpec(libs, LibStamped(timestamp), (l: Lib) => l.url != "", (l: Lib) => l.(installed := false));
  }

  /** The arguments of `install_lib`. */
  datatype LibInstallConfig = LibInstallConfig(
    zip_path: string,
    password: Option<string>,
    extract_path: string,
    name: string,
    timestamp: int)

  /** The lib directory: the extract path, then the name with spaces turned into dashes. */
  function LibInstallPath(c: LibInstallConfig): string {
    WinPaths.AppDirectory(c.extract_path, c.name)
  }

  /** The lib record `install_lib` writes; `now` is the clock, used when no timestamp was given. */
  function NewLib(c: LibInstallConfig, now: int): (l: Lib)
    ensures l.installed && l.url == ""
    ensures l.timestamp == if c.timestamp != 0 then c.timestamp else now
    ensures !l.details.config.add_to_path && l.details.config.full_path_directory == ""
    ensures l.details.paths == LibPaths(c.extract_path, LibInstallPath(c))
    ensures l.details.validation_status == LibValidationStatus(true, true)
    ensures l.details.config.archive_password == UnwrapOr(c.password, "")
  {
    var details := LibDetails(
      c.name,
      LibConfig(UnwrapOr(c.password, ""), false, "", ""),
      LibPaths(c.extract_path, LibInstallPath(c)),
      LibValidationStatus(true, true));
    Lib(if c.timestamp != 0 then c.timestamp else now, true, "", details)
  }

  /**
   * A freshly recorded lib is off PATH, so validating it changes nothing as
   * long as its install directory (the extract path and the dashed name)
   * exists.
   */
  lemma RecordedLibValidates(c: LibInstallConfig, now: int, fileExists: string -> bool,
                             pathRead: bool -> PathVar.PathRead)
    requires fileExists(LibInstallPath(c))
    ensures var l := NewLib(c, now);
      ValidateLib(l, fileExists, pathRead) == l
  {
  }

  /** The `retain` test of `install_lib`: the lib differs from the new one beyond the timestamp. */
  function OtherLib(item: Lib): Lib -> bool {
    (l: Lib) => l.(timestamp := 0) != item.(timestamp := 0)
  }

  /**
   * The lib list after `install_lib`: with a timestamp, the first lib with it
   * is marked installed with the new details; without one, libs equal to the
   * new one up to the timestamp are dropped and the new lib is pushed.
   */
  function LibsAfterInstall(libs: seq<Lib>, c: LibInstallConfig, now: int): seq<Lib> {
    var item := NewLib(c, now);
    if c.timestamp != 0 then
      Records.UpdateFirst(libs, LibStamped(c.timestamp), ReinstalledLib(item.details))
    else Records.Replaced(libs, OtherLib(item), item)
  }

  /** The update of the lib found under the timestamp: installed, with the new details. */
  function ReinstalledLib(details: LibDetails): Lib -> Lib {
    (l: Lib) => l.(installed := true, details := details)
  }

  /**
   * With a timestamp, the list keeps its length, no timestamp or url
   * changes, and only the first lib with the timestamp changes (to installed,
   * with the new details); with no such lib nothing changes. Without a
   * timestamp, the new lib stamped `now` comes last, after exactly the old
   * libs that differ from it beyond the timestamp, in their order.
   */
  lemma LibsAfterInstallSpec(libs: seq<Lib>, c: LibInstallConfig, now: int)
    ensures var r := LibsAfterInstall(libs, c, now);
      c.timestamp != 0 ==>
        && |r| == |libs|
        && (forall k :: 0 <= k < |libs| ==> r[k].timestamp == libs[k].timestamp && r[k].url == libs[k].url)
        && (forall k :: 0 <= k < |libs| ==>
              r[k] == if Records.FirstAt(libs, LibStamped(c.timestamp), k)
                      then libs[k].(installed := true, details := NewLib(c, now).details) else libs[k])
        && ((forall k :: 0 <= k < |libs| ==> libs[k].timestamp != c.timestamp) ==> r == libs)
    ensures var r := LibsAfterInstall(libs, c, now);
      c.timestamp == 0 ==>
        && |r| >= 1 && r[|r| - 1] == NewLib(c, now) && r[|r| - 1].timestamp == now
        && Seqs.IsSubsequence(r[..|r| - 1], libs)
        && (forall e :: e in r[..|r| - 1] <==> e in libs && e.(timestamp := 0) != NewLib(c, now).(timestamp := 0))
        && (forall e :: multiset(r[..|r| - 1])[e] == if e.(timestamp := 0) != NewLib(c, now).(timestamp := 0) then multiset(libs)[e] else 0)
  {
    var item := NewLib(c, now);
    if c.timestamp != 0 {
      Records.UpdateFirstSpec(libs, LibStamped(c.timestamp), ReinstalledLib(item.details));
    } else {
      Records.ReplacedSpec(libs, OtherLib(item), item);
      forall e ensures OtherLib(item)(e) == (e.(timestamp := 0) != item.(timestamp := 0)) {
      }
    }
  }

  /** The list held in `AppList.json`. */
  class AppList {
    var apps: seq<App>
    var libs: seq<Lib>

    constructor (apps: seq<App>, libs: seq<Lib>)
      ensures this.apps == apps && this.libs == libs
    {
      this.apps, this.libs := apps, libs;
    }

    /** `remove_duplicates`: the pass over the apps, then the pass over the libs. */
    method RemoveDuplicates() returns (ghost appLog: seq<Dedup.Removal<App>>, ghost libLog: seq<Dedup.Removal<Lib>>)
      modifies this
      ensures Seqs.IsSubsequence(apps, old(apps)) && Seqs.IsSubsequence(libs, old(libs))
      ensures Dedup.NoDuplicates(apps, IsAppDuplicate) && Dedup.NoDuplicates(libs, IsLibDuplicate)
      ensures multiset(old(apps)) == multiset(apps) + Dedup.Victims(appLog)
      ensures multiset(old(libs)) == multiset(libs) + Dedup.Victims(libLog)
      ensures forall k :: 0 <= k < |appLog| ==> Dedup.Justified(appLog[k], IsAppDuplicate, AppStamp)
      ensures forall k :: 0 <= k < |libLog| ==> Dedup.Justified(libLog[k], IsLibDuplicate, LibStamp)
    {
      apps, appLog := Dedup.RemoveDuplicates(apps, IsAppDuplicate, AppStamp);
      libs, libLog := Dedup.RemoveDuplicates(libs, IsLibDuplicate, LibStamp);
    }

    /** The merge step of `sync_from_registry`, given the apps found in the registry and the time. */
    method SyncFromRegistry(registryApps: seq<AppDetails>, now: int)
      modifies this
      ensures apps == Synced(old(apps), registryApps, now) && libs == old(libs)
    {
      var i := 0;
      while i < |registryApps|
        invariant i <= |registryApps|
        invariant apps == Synced(old(apps), registryApps[..i], now) && libs == old(libs)
      {
        Seqs.PrefixOfPrefix(registryApps, i + 1, i);
        var regApp := registryApps[i];
        var appExists := Records.Present(apps, regApp, Matches);
        if !appExists {
          apps := apps + [App(now, true, "", regApp)];
        }
        i := i + 1;
      }
      assert registryApps[..i] == registryApps;
    }

    /** `validate_installs`: recomputes the status of every installed app, then of every installed lib, in place. */
    method ValidateInstalls(fileExists: string -> bool, comments: WinPaths.Comments, pathRead: bool -> PathVar.PathRead)
      modifies this
      ensures |apps| == |old(apps)| && |libs| == |old(libs)|
      ensures forall k :: 0 <= k < |apps| ==> apps[k] == ValidateApp(old(apps)[k], fileExists, comments, pathRead)
      ensures forall k :: 0 <= k < |libs| ==> libs[k] == ValidateLib(old(libs)[k], fileExists, pathRead)
    {
      var i := 0;
      while i < |apps|
        invariant i <= |apps| == |old(apps)| && libs == old(libs)
        invariant forall k :: 0 <= k < i ==> apps[k] == ValidateApp(old(apps)[k], fileExists, comments, pathRead)
        invariant forall k :: i <= k < |apps| ==> apps[k] == old(apps)[k]
      {
        var app := apps[i];
        if app.installed {
          var c := app.details.config;
          var fileExistsNow := fileExists(app.details.paths.full_path);
          var registryValid := true;
          if c.create_registry_key {
            registryValid := comments(WinPaths.UninstallKey(c.current_user_only, app.details.info.name)) == Some(WinPaths.InstalledComment);
          }
          var pathValid := true;
          if c.add_to_path {
            pathValid := PathHolds(pathRead(c.current_user_only), c.full_path_directory);
          }
          apps := apps[i := app.(details := app.details.(validation_status :=
            AppValidationStatus(fileExistsNow, registryValid, pathValid)))];
        }
        i := i + 1;
      }
      var j := 0;
      while j < |libs|
        invariant j <= |libs| == |old(libs)| && |apps| == |old(apps)|
        invariant forall k :: 0 <= k < |apps| ==> apps[k] == ValidateApp(old(apps)[k], fileExists, comments, pathRead)
        invariant forall k :: 0 <= k < j ==> libs[k] == ValidateLib(old(libs)[k], fileExists, pathRead)
        invariant forall k :: j <= k < |libs| ==> libs[k] == old(libs)[k]
      {
        var lib := libs[j];
        if lib.installed {
          var fileExistsNow := fileExists(lib.details.paths.install_path);
          var pathValid := true;
          if lib.details.config.add_to_path {
            pathValid := PathHolds(pathRead(true), lib.details.config.full_path_directory);
          }
          libs := libs[j := lib.(details := lib.details.(validation_status := LibValidationStatus(fileExistsNow, pathValid)))];
        }
        j := j + 1;
      }
    }

    /** `update_app_list_after_uninstall`, on the list read back. */
    method UpdateAfterUninstallApp(timestamp: int)
      modifies this
      ensures apps == AfterUninstallApp(old(apps), timestamp) && libs == old(libs)
    {
      var index := Seqs.FirstIndex(apps, AppStamped(timestamp));
      if index.Some? {
        if apps[index.value].url != "" {
          apps := apps[index.value := apps[index.value].(installed := false)];
        } else {
          apps := Seqs.RemoveAt(apps, index.value);
        }
      }
    }

    /** `update_lib_list_after_uninstall`, on the list read back. */
    method UpdateAfterUninstallLib(timestamp: int)
      modifies this
      ensures libs == AfterUninstallLib(old(libs), timestamp) && apps == old(apps)
    {
      var index := Seqs.FirstIndex(libs, LibStamped(timestamp));
      if index.Some? {
        if libs[index.value].url != "" {
          libs := libs[index.value := libs[index.value].(installed := false)];
        } else {
          libs := Seqs.RemoveAt(libs, index.value);
        }
      }
    }

    /**
     * The bookkeeping of `install_lib` once the archive is extracted: records
     * the lib and returns the extract path.
     */
    method InstallLib(c: LibInstallConfig, now: int) returns (r: string)
      modifies this
      ensures libs == LibsAfterInstall(old(libs), c, now) && apps == old(apps)
      ensures r == c.extract_path
    {
      var timestamp := if c.timestamp != 0 then c.timestamp else now;
      var item := Lib(timestamp, true, "", LibDetails(
        c.name,
        LibConfig(UnwrapOr(c.password, ""), false, "", ""),
        LibPaths(c.extract_path, WinPaths.AppDirectory(c.extract_path, c.name)),
        LibValidationStatus(true, true)));
      if c.timestamp != 0 {
        var index := Seqs.FirstIndex(libs, LibStamped(c.timestamp));
        if index.Some? {
          libs := libs[index.value := libs[index.value].(installed := true, details := item.details)];
        }
      } else {
        libs := Seqs.Filter(libs, OtherLib(item)) + [item];
      }
      r := c.extract_path;
    }
  }
}
