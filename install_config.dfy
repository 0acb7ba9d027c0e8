/**
 * The wizard's `install_config` store: a committed archive selection, a
 * staging area `temp` with the same seven fields, and the three actions that
 * stage a partial update, clear the staging area and commit it.
 */
module InstallConfig {
  import opened Base
  import opened FileTree

  /** The seven fields that exist both committed and staged. */
  datatype Selection = Selection(
    id: string,
    zip_path: string,
    timestamp_add: string,
    timestamp_update: string,
    url: string,
    archive_password: string,
    file_tree: seq<FileTreeNode>)

  /** The argument of `setTempData`: every field may be left undefined. */
  datatype SelectionUpdate = SelectionUpdate(
    id: Option<string>,
    zip_path: Option<string>,
    timestamp_add: Option<string>,
    timestamp_update: Option<string>,
    url: Option<string>,
    archive_password: Option<string>,
    file_tree: Option<seq<FileTreeNode>>)

  datatype AppInfo = AppInfo(name: string, icon: string, publisher: string, version: string)

  datatype AppOptions = AppOptions(
    custom_icon: bool,
    create_desktop_shortcut: bool,
    create_start_menu_shortcut: bool,
    create_registry_key: bool,
    add_to_path: (bool, string))

  /** The front-end's `AppDetails` record. */
  datatype AppDetails = AppDetails(
    current_user_only: bool,
    info: AppInfo,
    config: AppOptions,
    install_path: string,
    full_path: string)

  /** The front-end's `ToolDetails` record. */
  datatype ToolDetails = ToolDetails(name: string, add_to_path: (bool, string), install_path: string)

  /** The whole store. */
  datatype Config = Config(
    committed: Selection,
    temp: Selection,
    archive_exe_path: Option<string>,
    archive_path_dir: Option<string>,
    app_details: AppDetails,
    tool_details: ToolDetails)

  /** The all-empty selection: empty strings and an empty file tree. */
  function EmptySelection(): Selection {
    Selection("", "", "", "", "", "", [])
  }

  /** An update that defines no field. */
  function NoUpdate(): SelectionUpdate {
    SelectionUpdate(None, None, None, None, None, None, None)
  }

  /** An update that defines every field, with the values of `s`. */
  function FullUpdate(s: Selection): SelectionUpdate {
    SelectionUpdate(Some(s.id), Some(s.zip_path), Some(s.timestamp_add), Some(s.timestamp_update),
                    Some(s.url), Some(s.archive_password), Some(s.file_tree))
  }

  /** The store's initial state. */
  function Initial(): Config {
    Config(
      EmptySelection(),
      EmptySelection(),
      None,
      None,
      AppDetails(false, AppInfo("", "", "", ""), AppOptions(false, false, true, false, (false, "")), "", ""),
      ToolDetails("", (false, ""), ""))
  }

  /** The staging area after `setTempData(u)`: each defined field of `u` replaces the staged one. */
  function Merge(t: Selection, u: SelectionUpdate): Selection {
    Selection(
      UnwrapOr(u.id, t.id),
      UnwrapOr(u.zip_path, t.zip_path),
      UnwrapOr(u.timestamp_add, t.timestamp_add),
      UnwrapOr(u.timestamp_update, t.timestamp_update),
      UnwrapOr(u.url, t.url),
      UnwrapOr(u.archive_password, t.archive_password),
      UnwrapOr(u.file_tree, t.file_tree))
  }

  /** The update that applies `u` and then `v`: a field defined by `v` wins. */
  function Then(u: SelectionUpdate, v: SelectionUpdate): SelectionUpdate {
    SelectionUpdate(
      if v.id.Some? then v.id else u.id,
      if v.zip_path.Some? then v.zip_path else u.zip_path,
      if v.timestamp_add.Some? then v.timestamp_add else u.timestamp_add,
      if v.timestamp_update.Some? then v.timestamp_update else u.timestamp_update,
      if v.url.Some? then v.url else u.url,
      if v.archive_password.Some? then v.archive_password else u.archive_password,
      if v.file_tree.Some? then v.file_tree else u.file_tree)
  }

  /** The store after `setTempData(u)`. */
  function Staged(c: Config, u: SelectionUpdate): Config {
    c.(temp := Merge(c.temp, u))
  }

  /** The store after `clearTempData()`. */
  function Cleared(c: Config): Config {
    c.(temp := EmptySelection())
  }

  /** The store after `confirmTempData()`. */
  function Committed(c: Config): Config {
    c.(committed := c.temp, temp := EmptySelection())
  }

  /** An undefined field leaves the staged field as it was; a defined one replaces it. */
  lemma MergeFields(t: Selection, u: SelectionUpdate)
    ensures var r := Merge(t, u);
      && (u.id.None? ==> r.id == t.id) && (u.id.Some? ==> r.id == u.id.value)
      && (u.zip_path.None? ==> r.zip_path == t.zip_path) && (u.zip_path.Some? ==> r.zip_path == u.zip_path.value)
      && (u.timestamp_add.None? ==> r.timestamp_add == t.timestamp_add)
      && (u.timestamp_add.Some? ==> r.timestamp_add == u.timestamp_add.value)
      && (u.timestamp_update.None? ==> r.timestamp_update == t.timestamp_update)
      && (u.timestamp_update.Some? ==> r.timestamp_update == u.timestamp_update.value)
      && (u.url.None? ==> r.url == t.url) && (u.url.Some? ==> r.url == u.url.value)
      && (u.archive_password.None? ==> r.archive_password == t.archive_password)
      && (u.archive_password.Some? ==> r.archive_password == u.archive_password.value)
      && (u.file_tree.None? ==> r.file_tree == t.file_tree) && (u.file_tree.Some? ==> r.file_tree == u.file_tree.value)
  {
  }

  /** An update with no defined field changes nothing. */
  lemma MergeNothing(t: Selection)
    ensures Merge(t, NoUpdate()) == t
  {
  }

  /** An update that defines every field replaces the whole staging area. */
  lemma MergeFull(t: Selection, s: Selection)
    ensures Merge(t, FullUpdate(s)) == s
  {
  }

  /** Staging the same update twice is the same as staging it once. */
  lemma MergeIdempotent(t: Selection, u: SelectionUpdate)
    ensures Merge(Merge(t, u), u) == Merge(t, u)
  {
  }

  /** Two stagings in a row are one staging of the combined update, the later one winning. */
  lemma MergeThen(t: Selection, u: SelectionUpdate, v: SelectionUpdate)
    ensures Merge(Merge(t, u), v) == Merge(t, Then(u, v))
  {
  }

  /** Staging touches only the staging area. */
  lemma StagedKeepsCommitted(c: Config, u: SelectionUpdate)
    ensures Staged(c, u) == c.(temp := Staged(c, u).temp)
    ensures Staged(c, u).committed == c.committed
  {
  }

  /** Clearing empties the staging area, keeps the rest, and is idempotent. */
  lemma ClearedSpec(c: Config)
    ensures Cleared(c).temp == EmptySelection()
    ensures Cleared(c) == c.(temp := EmptySelection())
    ensures Cleared(Cleared(c)) == Cleared(c)
  {
  }

  /**
   * Committing copies the seven staged fields to the committed ones, empties
   * the staging area, and leaves the details records and the two optional
   * archive paths alone.
   */
  lemma CommittedSpec(c: Config)
    ensures Committed(c).committed == c.temp
    ensures Committed(c).temp == EmptySelection()
    ensures Committed(c).app_details == c.app_details && Committed(c).tool_details == c.tool_details
    ensures Committed(c).archive_exe_path == c.archive_exe_path
    ensures Committed(c).archive_path_dir == c.archive_path_dir
  {
  }

  /**
   * A commit with nothing staged is not a no-op: it overwrites every
   * committed field with the empty value. So committing twice in a row loses
   * the first commit.
   */
  lemma CommitTwiceEmpties(c: Config)
    ensures Committed(Committed(c)).committed == EmptySelection()
    ensures c.temp != EmptySelection() ==> Committed(Committed(c)) != Committed(c)
  {
  }

  /** Clearing, staging `u` and committing commits `u`'s defined fields and empty values elsewhere. */
  lemma StageAndCommit(c: Config, u: SelectionUpdate)
    ensures Committed(Staged(Cleared(c), u)).committed == Merge(EmptySelection(), u)
    ensures Committed(Staged(Cleared(c), FullUpdate(c.committed))) == c.(temp := EmptySelection())
  {
  }

  /** The initial store: nothing committed or staged, start-menu shortcut on, other options off. */
  lemma InitialSpec()
    ensures Initial().committed == Initial().temp == EmptySelection()
    ensures Initial().archive_exe_path.None? && Initial().archive_path_dir.None?
    ensures var o := Initial().app_details.config;
      o.create_start_menu_shortcut && !o.create_desktop_shortcut && !o.create_registry_key
      && !o.custom_icon && o.add_to_path == (false, "")
    ensures !Initial().app_details.current_user_only
    ensures Initial().tool_details.add_to_path == (false, "")
  {
  }

  /** The pinia store, with one field per state property. */
  class Store {
    var id: string
    var zip_path: string
    var timestamp_add: string
    var timestamp_update: string
    var url: string
    var archive_password: string
    var file_tree: seq<FileTreeNode>
    var temp: Selection
    var archive_exe_path: Option<string>
    var archive_path_dir: Option<string>
    var app_details: AppDetails
    var tool_details: ToolDetails

    /** The store's fields as one value. */
    function State(): Config
      reads this
    {
      Config(
        Selection(id, zip_path, timestamp_add, timestamp_update, url, archive_password, file_tree),
        temp, archive_exe_path, archive_path_dir, app_details, tool_details)
    }

    constructor ()
      ensures State() == Initial()
    {
      id, zip_path, timestamp_add, timestamp_update := "", "", "", "";
      url, archive_password, file_tree := "", "", [];
      temp := EmptySelection();
      archive_exe_path, archive_path_dir := None, None;
      app_details := AppDetails(false, AppInfo("", "", "", ""), AppOptions(false, false, true, false, (false, "")), "", "");
      tool_details := ToolDetails("", (false, ""), "");
    }

    /** `setTempData`: writes each staged field whose update is defined. */
    method SetTempData(data: SelectionUpdate)
      modifies this
      ensures State() == Staged(old(State()), data)
    {
      var t := temp;
      if data.id.Some? { t := t.(id := data.id.value); }
      if data.zip_path.Some? { t := t.(zip_path := data.zip_path.value); }
      if data.timestamp_add.Some? { t := t.(timestamp_add := data.timestamp_add.value); }
      if data.timestamp_update.Some? { t := t.(timestamp_update := data.timestamp_update.value); }
      if data.url.Some? { t := t.(url := data.url.value); }
      if data.archive_password.Some? { t := t.(archive_password := data.archive_password.value); }
      if data.file_tree.Some? { t := t.(file_tree := data.file_tree.value); }
      temp := t;
    }

    /** `clearTempData`: replaces the staging area by the empty one. */
    method ClearTempData()
      modifies this
      ensures State() == Cleared(old(State()))
    {
      temp := Selection("", "", "", "", "", "", []);
    }

    /** `confirmTempData`: copies the staged fields one by one, then clears the staging area. */
    method ConfirmTempData()
      modifies this
      ensures State() == Committed(old(State()))
    {
      id := temp.id;
      zip_path := temp.zip_path;
      timestamp_add := temp.timestamp_add;
      timestamp_update := temp.timestamp_update;
      url := temp.url;
      archive_password := temp.archive_password;
      file_tree := temp.file_tree;
      ClearTempData();
    }
  }
}
