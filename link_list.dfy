/**
 * The back-end's `AppList` of `configs/app_list.rs`: a list of app links,
 * with the url lookup, the duplicate removal, the merge of apps found in
 * the registry and the validation of installed links. The file system and
 * the registry are read through oracle parameters.
 */
module LinkList {
  import Seqs
  import opened Base
  import Dedup
  import WinPaths
  import Records

  datatype ValidationStatus = ValidationStatus(file_exists: bool, registry_valid: bool)

  datatype InstalledApp = InstalledApp(
    name: string,
    icon: string,
    publisher: string,
    version: string,
    install_path: string,
    executable_path: string,
    full_path: string,
    current_user_only: bool,
    create_desktop_shortcut: bool,
    create_start_menu_shortcut: bool,
    create_registry_key: bool,
    add_to_path: bool,
    validation_status: ValidationStatus)

  datatype App = App(timestamp: int, installed: bool, url: string, details: InstalledApp)

  /** `has_link`: some installed link has exactly this url. */
  function HasLink(links: seq<App>, url: string): (r: bool)
    ensures r <==> exists i :: 0 <= i < |links| && links[i].url == url && links[i].installed
  {
    if links == [] then false
    else (links[0].url == url && links[0].installed) || HasLink(links[1..], url)
  }

  /** A link with its timestamp zeroed and its version blanked, the form in which duplicates are compared. */
  function Normalised(a: App): App {
    a.(timestamp := 0, details := a.details.(version := ""))
  }

  /** Two links are duplicates: same executable path, and equal apart from timestamp and version. */
  predicate IsDuplicate(a: App, b: App) {
    a.details.full_path == b.details.full_path && Normalised(a) == Normalised(b)
  }

  function Stamp(a: App): int {
    a.timestamp
  }

  /**
   * Duplicates are links that agree on every field except possibly the
   * timestamp and the version; the relation is symmetric.
   */
  lemma IsDuplicateSpec(a: App, b: App)
    ensures IsDuplicate(a, b) <==> a == b.(timestamp := a.timestamp, details := b.details.(version := a.details.version))
    ensures IsDuplicate(a, b) <==> IsDuplicate(b, a)
    ensures IsDuplicate(a, a)
  {
    if IsDuplicate(a, b) {
      assert Normalised(a).details == Normalised(b).details;
    }
  }

  /** An installed link has the registry app's name and executable path. */
  predicate Matches(a: App, reg: InstalledApp) {
    a.installed && a.details.name == reg.name && a.details.full_path == reg.full_path
  }

  /** The link `sync_from_registry` pushes for a registry app at time `now`. */
  function MadeAt(now: int): InstalledApp -> App {
    (reg: InstalledApp) => App(now, true, "", reg)
  }

  /** The list after merging registry apps one by one: each one not yet listed is pushed as an installed link. */
  function Synced(links: seq<App>, regs: seq<InstalledApp>, now: int): seq<App> {
    Records.Synced(links, regs, Matches, MadeAt(now))
  }

  /**
   * The merge only appends: the old list is a prefix of the new one, every
   * appended link is an installed registry app with an empty url and the
   * merge time, afterwards every registry app is listed, and merging the
   * same registry apps again adds nothing.
   */
  lemma SyncedSpec(links: seq<App>, regs: seq<InstalledApp>, now: int, later: int)
    ensures var r := Synced(links, regs, now);
      && links <= r
      && (forall k :: |links| <= k < |r| ==>
            r[k].installed && r[k].url == "" && r[k].timestamp == now && r[k].details in regs)
      && (forall j :: 0 <= j < |regs| ==> exists i :: 0 <= i < |r| && Matches(r[i], regs[j]))
      && Synced(r, regs, later) == r
  {
    Records.SyncedSpec(links, regs, Matches, MadeAt(now));
    Records.SyncedIdempotent(links, regs, Matches, MadeAt(now), MadeAt(later));
    var r := Synced(links, regs, now);
    forall k | |links| <= k < |r| ensures r[k].details in regs {
      var j :| 0 <= j < |regs| && r[k] == MadeAt(now)(regs[j]);
    }
  }

  /** The status `validate_installations` computes for one link. */
  function Validate(a: App, fileExists: string -> bool, comments: WinPaths.Comments): App {
    if !a.installed then a
    else
      var registryValid :=
        if a.details.create_registry_key then
          comments(WinPaths.UninstallKey(a.details.current_user_only, a.details.name)) == Some(WinPaths.InstalledComment)
        else true;
      a.(details := a.details.(validation_status := ValidationStatus(fileExists(a.details.full_path), registryValid)))
  }

  /**
   * Validation leaves uninstalled links alone and changes only the status of
   * installed ones: the file flag is whether the executable exists, and the
   * registry flag is true when no key was requested, otherwise whether the
   * app's uninstall key carries the installer's comment.
   */
  lemma ValidateSpec(a: App, fileExists: string -> bool, comments: WinPaths.Comments)
    ensures var v := Validate(a, fileExists, comments);
      && (!a.installed ==> v == a)
      && v == a.(details := a.details.(validation_status := v.details.validation_status))
      && (a.installed ==> v.details.validation_status.file_exists == fileExists(a.details.full_path))
      && (a.installed && !a.details.create_registry_key ==> v.details.validation_status.registry_valid)
      && (a.installed && a.details.create_registry_key ==>
            (v.details.validation_status.registry_valid <==>
             comments(WinPaths.UninstallKey(a.details.current_user_only, a.details.name)) == Some(WinPaths.InstalledComment)))
  {
  }

  /** Selects the links with the given timestamp. */
  function Stamped(timestamp: int): App -> bool {
    (a: App) => a.timestamp == timestamp
  }

  /** `uninstallation`'s list update: the first link with the timestamp is marked uninstalled if it has a url, else removed. */
  function AfterUninstall(links: seq<App>, timestamp: int): seq<App> {
    Records.Retire(links, Stamped(timestamp), (a: App) => a.url != "", (a: App) => a.(installed := false))
  }

  /**
   * After `uninstallation`, the first link with the timestamp is kept but
   * marked uninstalled when it has a url, and removed otherwise; every other
   * link keeps its value and order, and with no such link nothing changes.
   */
  lemma AfterUninstallSpec(links: seq<App>, timestamp: int)
    ensures (forall k :: 0 <= k < |links| ==> links[k].timestamp != timestamp) ==> AfterUninstall(links, timestamp) == links
    ensures forall i :: Records.FirstAt(links, Stamped(timestamp), i) && links[i].url != "" ==>
      AfterUninstall(links, timestamp) == links[i := links[i].(installed := false)]
    ensures forall i :: Records.FirstAt(links, Stamped(timestamp), i) && links[i].url == "" ==>
      AfterUninstall(links, timestamp) == links[..i] + links[i + 1..]
  {
    Records.RetireSpec(links, Stamped(timestamp), (a: App) => a.url != "", (a: App) => a.(installed := false));
  }

  /** The list held in `AppList.json`. */
  class AppList {
    var links: seq<App>

    constructor (links: seq<App>)
      ensures this.links == links
    {
      this.links := links;
    }

    /** `remove_duplicates`, on the list of links. */
    method RemoveDuplicates() returns (ghost log: seq<Dedup.Removal<App>>)
      modifies this
      ensures Seqs.IsSubsequence(links, old(links))
      ensures Dedup.NoDuplicates(links, IsDuplicate)
      ensures multiset(old(links)) == multiset(links) + Dedup.Victims(log)
      ensures forall k :: 0 <= k < |log| ==> Dedup.Justified(log[k], IsDuplicate, Stamp)
    {
      links, log := Dedup.RemoveDuplicates(links, IsDuplicate, Stamp);
    }

    /** The merge step of `sync_from_registry`, given the apps found in the registry and the time. */
    method SyncFromRegistry(registryApps: seq<InstalledApp>, now: int)
      modifies this
      ensures links == Synced(old(links), registryApps, now)
    {
      var i := 0;
      while i < |registryApps|
        invariant i <= |registryApps|
        invariant links == Synced(old(links), registryApps[..i], now)
      {
        Seqs.PrefixOfPrefix(registryApps, i + 1, i);
        var regApp := registryApps[i];
        var appExists := Records.Present(links, regApp, Matches);
        if !appExists {
          links := links + [App(now, true, "", regApp)];
        }
        i := i + 1;
      }
      assert registryApps[..i] == registryApps;
    }

    /** `validate_installations`: recomputes the status of every installed link in place. */
    method ValidateInstallations(fileExists: string -> bool, comments: WinPaths.Comments)
      modifies this
      ensures |links| == |old(links)|
      ensures forall k :: 0 <= k < |links| ==> links[k] == Validate(old(links)[k], fileExists, comments)
    {
      var i := 0;
      while i < |links|
        invariant i <= |links| == |old(links)|
        invariant forall k :: 0 <= k < i ==> links[k] == Validate(old(links)[k], fileExists, comments)
        invariant forall k :: i <= k < |links| ==> links[k] == old(links)[k]
      {
        var app := links[i];
        if app.installed {
          var fileExistsNow := fileExists(app.details.full_path);
          var registryValid := true;
          if app.details.create_registry_key {
            var key := WinPaths.UninstallKey(app.details.current_user_only, app.details.name);
            registryValid := comments(key) == Some(WinPaths.InstalledComment);
          }
          links := links[i := app.(details := app.details.(validation_status := ValidationStatus(fileExistsNow, registryValid)))];
        }
        i := i + 1;
      }
    }

    /** The list update at the end of `uninstallation`, on the list read back. */
    method UpdateAfterUninstall(timestamp: int)
      modifies this
      ensures links == AfterUninstall(old(links), timestamp)
    {
      var index := Seqs.FirstIndex(links, Stamped(timestamp));
      if index.Some? {
        if links[index.value].url != "" {
          links := links[index.value := links[index.value].(installed := false)];
        } else {
          links := Seqs.RemoveAt(links, index.value);
        }
      }
    }
  }
}
