/**
 * The front-end `app_list` store: the list of app links, the installed ones
 * among them, lookups by url and by timestamp, and the removal of a link.
 * Saving the list hands it to the back-end; the model records each list
 * handed over.
 */
module AppListStore {
  import opened Base
  import Seqs

  datatype AppBasicInformation = AppBasicInformation(name: string, icon: string, publisher: string, version: string)

  datatype AppConfig = AppConfig(
    archive_exe_path: string,
    current_user_only: bool,
    create_desktop_shortcut: bool,
    create_start_menu_shortcut: bool,
    create_registry_key: bool,
    add_to_path: bool,
    path_directory: string)

  datatype AppPaths = AppPaths(parent_install_path: string, install_path: string, full_path: string)

  datatype AppValidationStatus = AppValidationStatus(file_exists: bool, registry_valid: bool)

  datatype AppDetails = AppDetails(
    info: AppBasicInformation,
    config: AppConfig,
    paths: AppPaths,
    validation_status: AppValidationStatus)

  /** One link of the list; `timestamp` identifies it. */
  datatype App = App(timestamp: int, installed: bool, copy_only: bool, url: string, details: AppDetails)

  predicate IsInstalled(a: App) {
    a.installed
  }

  /** The filter `removeApp` applies: keep the links with another timestamp. */
  function OtherThan(timestamp: int): App -> bool {
    (a: App) => a.timestamp != timestamp
  }

  /** The `installedApps` getter. */
  function InstalledApps(links: seq<App>): seq<App> {
    Seqs.Filter(links, IsInstalled)
  }

  /** `hasLink`: some link, installed or not, has exactly this url. */
  function HasLink(links: seq<App>, url: string): (r: bool)
    ensures r <==> exists i :: 0 <= i < |links| && links[i].url == url
  {
    if links == [] then false
    else links[0].url == url || HasLink(links[1..], url)
  }

  /** `Array.prototype.find` by timestamp: the first app with that timestamp. */
  function FindByTimestamp(apps: seq<App>, timestamp: int): Option<App> {
    if apps == [] then None
    else if apps[0].timestamp == timestamp then Some(apps[0])
    else FindByTimestamp(apps[1..], timestamp)
  }

  /** `getAppByTimestamp`: the first installed app with that timestamp. */
  function GetAppByTimestamp(links: seq<App>, timestamp: int): Option<App> {
    FindByTimestamp(InstalledApps(links), timestamp)
  }

  /** The link at `i` is installed, has the timestamp, and no earlier link is both. */
  ghost predicate FirstInstalledAt(links: seq<App>, timestamp: int, i: int) {
    0 <= i < |links| && links[i].installed && links[i].timestamp == timestamp
    && forall k :: 0 <= k < i ==> !(links[k].installed && links[k].timestamp == timestamp)
  }

  /** `installedApps` holds exactly the installed links, each as often as in the list, in their original order. */
  lemma InstalledAppsSpec(links: seq<App>)
    ensures forall a :: a in InstalledApps(links) <==> a in links && a.installed
    ensures Seqs.IsSubsequence(InstalledApps(links), links)
    ensures forall a :: multiset(InstalledApps(links))[a] == if a.installed then multiset(links)[a] else 0
  {
    Seqs.FilterMultiset(links, IsInstalled);
    Seqs.FilterMembers(links, IsInstalled);
    Seqs.FilterIsSubsequence(links, IsInstalled);
    forall a | a in links && a.installed ensures a in InstalledApps(links) {
      var k :| 0 <= k < |links| && links[k] == a;
    }
  }

  /** Installed links listed one after the other keep their order across two lists. */
  lemma InstalledAppsAppend(a: seq<App>, b: seq<App>)
    ensures InstalledApps(a + b) == InstalledApps(a) + InstalledApps(b)
  {
    Seqs.FilterAppend(a, b, IsInstalled);
  }

  /** `getAppByTimestamp` finds the first installed link with the timestamp, or nothing if there is none. */
  lemma {:induction false} GetAppByTimestampSpec(links: seq<App>, timestamp: int)
    ensures GetAppByTimestamp(links, timestamp).Some? ==>
      exists i :: FirstInstalledAt(links, timestamp, i) && links[i] == GetAppByTimestamp(links, timestamp).value
    ensures GetAppByTimestamp(links, timestamp).None? ==>
      forall i :: 0 <= i < |links| ==> !(links[i].installed && links[i].timestamp == timestamp)
  {
    if links != [] {
      var rest := links[1..];
      GetAppByTimestampSpec(rest, timestamp);
      var inst := InstalledApps(links);
      if links[0].installed {
        assert inst == [links[0]] + InstalledApps(rest);
        if links[0].timestamp == timestamp {
          assert FirstInstalledAt(links, timestamp, 0);
        } else {
          assert GetAppByTimestamp(links, timestamp) == GetAppByTimestamp(rest, timestamp);
          if GetAppByTimestamp(rest, timestamp).Some? {
            var j :| FirstInstalledAt(rest, timestamp, j) && rest[j] == GetAppByTimestamp(rest, timestamp).value;
            assert FirstInstalledAt(links, timestamp, j + 1);
          }
        }
      } else {
        assert inst == InstalledApps(rest);
        if GetAppByTimestamp(rest, timestamp).Some? {
          var j :| FirstInstalledAt(rest, timestamp, j) && rest[j] == GetAppByTimestamp(rest, timestamp).value;
          assert FirstInstalledAt(links, timestamp, j + 1);
        }
      }
    }
  }

  /**
   * What `removeApp` leaves: no link with the timestamp, every other link
   * as often as before, in the original order; removing again changes nothing.
   */
  lemma RemovedSpec(links: seq<App>, timestamp: int)
    ensures var r := Seqs.Filter(links, OtherThan(timestamp));
      && (forall a :: a in r <==> a in links && a.timestamp != timestamp)
      && (forall a :: multiset(r)[a] == if a.timestamp != timestamp then multiset(links)[a] else 0)
      && Seqs.IsSubsequence(r, links)
      && Seqs.Filter(r, OtherThan(timestamp)) == r
      && GetAppByTimestamp(r, timestamp).None?
  {
    var r := Seqs.Filter(links, OtherThan(timestamp));
    Seqs.FilterMultiset(links, OtherThan(timestamp));
    Seqs.FilterMembers(links, OtherThan(timestamp));
    Seqs.FilterIsSubsequence(links, OtherThan(timestamp));
    forall a | a in links && a.timestamp != timestamp ensures a in r {
      var k :| 0 <= k < |links| && links[k] == a;
    }
    Seqs.FilterKeepsAll(r, OtherThan(timestamp));
    GetAppByTimestampSpec(r, timestamp);
  }

  /** The pinia store. `saved` lists the lists handed to the back-end by `saveAppList`, oldest first. */
  class Store {
    var links: seq<App>
    var saved: seq<seq<App>>

    constructor ()
      ensures links == [] && saved == []
    {
      links, saved := [], [];
    }

    /** `removeApp`: drops every link with the timestamp, then saves the list. */
    method RemoveApp(timestamp: int)
      modifies this
      ensures links == Seqs.Filter(old(links), OtherThan(timestamp))
      ensures saved == old(saved) + [links]
    {
      links := Seqs.Filter(links, OtherThan(timestamp));
      SaveAppList();
    }

    /** `saveAppList`: hands the current list to the back-end. */
    method SaveAppList()
      modifies this
      ensures links == old(links) && saved == old(saved) + [links]
    {
      saved := saved + [links];
    }
  }
}
