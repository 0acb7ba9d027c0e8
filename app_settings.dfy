/**
 * The later settings file of `configs/settings/structs.rs` and
 * `configs/settings/impls.rs`: the system information lives in a separate
 * environment record, and `initialize` re-reads the administrator flag,
 * the accent colour (with a fallback), the context-menu and start-up
 * state, and fills empty install paths. The environment record, the
 * registry reads, the repair of the context menu and start-up entries and
 * the file write are parameters.
 */
module AppSettings {
  import opened Base
  import S = Settings

  /** Every field of the settings, as one value. */
  datatype Record = Record(
    language: S.Language,
    theme: S.Theme,
    minimize_to_tray_on_close: bool,
    context_menu: bool,
    auto_startup: bool,
    color: string,
    run_as_admin: bool,
    app_install: S.Installation,
    tool_install: S.ToolInstall)

  /**
   * `Default`: English, system theme, context menu on, start-up and tray
   * off; the drive letter of `windir` or "C" and the user name or "user"
   * give the app install paths, the home directory or `C:\` the tool path.
   */
  function DefaultRecord(env: S.Environment): Record
    requires S.WindirUsable(env)
  {
    var drive := if env.windir.Some? then S.DriveOf(env.windir.value) else "C";
    var user := UnwrapOr(env.username, "user");
    Record(
      S.En, S.System, false, true, false, "", false,
      S.DefaultInstallation(drive, user),
      S.ToolInstall(UnwrapOr(env.home, "C:\\"), true))
  }

  /**
   * Both app scopes stay off `PATH` with registry key and start-menu
   * shortcut on and no desktop shortcut; tools go on `PATH`; with no
   * variables set the paths are on drive C for the user "user".
   */
  lemma DefaultRecordSpec(env: S.Environment)
    requires S.WindirUsable(env)
    ensures var r := DefaultRecord(env);
      && r.context_menu && !r.auto_startup && !r.minimize_to_tray_on_close && !r.run_as_admin
      && r.language == S.En && r.theme == S.System
      && !r.app_install.current_user_only
      && !r.app_install.all_users.add_to_path && !r.app_install.current_user.add_to_path
      && r.app_install.all_users.create_registry_key && r.app_install.all_users.create_start_menu_shortcut
      && !r.app_install.all_users.create_desktop_shortcut
      && r.app_install.current_user.create_registry_key && r.app_install.current_user.create_start_menu_shortcut
      && !r.app_install.current_user.create_desktop_shortcut
      && r.tool_install.add_to_path
      && (env.home.None? ==> r.tool_install.install_path == "C:\\")
      && (env.windir.None? && env.username.None? ==> r.app_install == S.DefaultInstallation("C", "user"))
  {
  }

  /** The colour `initialize` stores, as written: the accent colour, or "ff8c00" without `#`. */
  function ColorAsWritten(accent: Result<nat>): string
    requires accent.Ok? ==> accent.value < 0x1_0000_0000
  {
    if accent.Ok? then S.AccentColor(accent.value) else "ff8c00"
  }

  const FallbackColor: string := "#ff8c00"

  /** The colour `initialize` evidently means to store: the accent colour, or `#ff8c00`. */
  function SystemColor(accent: Result<nat>): string
    requires accent.Ok? ==> accent.value < 0x1_0000_0000
  {
    if accent.Ok? then S.AccentColor(accent.value) else FallbackColor
  }

  /** `#` and six lowercase hex digits. */
  predicate IsHexColor(c: string) {
    |c| == 7 && c[0] == '#' && forall i :: 1 <= i < 7 ==> c[i] in S.HexDigits
  }

  /** Every converted accent colour has the `#rrggbb` shape. */
  lemma AccentColorIsHexColor(abgr: nat)
    requires abgr < 0x1_0000_0000
    ensures IsHexColor(S.AccentColor(abgr))
  {
    var h := S.Hex8(abgr);
    assert forall j :: 0 <= j < 8 ==> h[j] in S.HexDigits;
    var c := S.AccentColor(abgr);
    assert c == "#" + h[6..8] + h[4..6] + h[2..4];
    assert c[1] == h[6] && c[2] == h[7] && c[3] == h[4] && c[4] == h[5] && c[5] == h[2] && c[6] == h[3];
  }

  /** The colour as written has the `#rrggbb` shape on success but not when the registry read fails. */
  lemma FallbackLacksHash(error: string)
    ensures !IsHexColor(ColorAsWritten(Err(error)))
    ensures |ColorAsWritten(Err(error))| == 6
  {
  }

  /** The corrected colour always has the `#rrggbb` shape. */
  lemma SystemColorIsHexColor(accent: Result<nat>)
    requires accent.Ok? ==> accent.value < 0x1_0000_0000
    ensures IsHexColor(SystemColor(accent))
    ensures accent.Ok? ==> SystemColor(accent) == ColorAsWritten(accent)
  {
    if accent.Ok? {
      AccentColorIsHexColor(accent.value);
    } else {
      assert FallbackColor[1..] == "ff8c00";
    }
  }

  /**
   * The first half of `initialize`: the administrator flag read under the
   * environment's SID, then the colour and the install paths filled from
   * the environment's drive and user.
   */
  function SystemRead(
    s: Record, drive: string, user: string, sid: Result<string>, runAsAdmin: string -> Result<bool>,
    accent: Result<nat>): (Result<()>, Record)
    requires accent.Ok? ==> accent.value < 0x1_0000_0000
  {
    if sid.Err? then (Err(sid.error), s)
    else
      var admin := runAsAdmin(sid.value);
      if admin.Err? then (Err(admin.error), s)
      else
        (Ok(()), s.(run_as_admin := admin.value, color := SystemColor(accent),
                    app_install := S.FillInstallPaths(s.app_install, drive, user)))
  }

  /** The second half: the repaired context-menu and start-up state, then the file write. */
  function EntriesRead(s: Record, contextMenu: Result<bool>, startup: Result<bool>, saved: Result<()>): (Result<()>, Record) {
    if contextMenu.Err? then (Err(contextMenu.error), s)
    else
      var s := s.(context_menu := contextMenu.value);
      if startup.Err? then (Err(startup.error), s)
      else
        var s := s.(auto_startup := startup.value);
        if saved.Err? then (Err(saved.error), s) else (Ok(()), s)
  }

  /**
   * The outcome of `initialize` for the stored record `s`: both halves run in
   * order on a copy, a failure stopping the rest; the copy is stored only
   * when every step, the write included, succeeded.
   */
  function Initialized(
    s: Record, drive: string, user: string, sid: Result<string>, runAsAdmin: string -> Result<bool>,
    accent: Result<nat>, contextMenu: Result<bool>, startup: Result<bool>, saved: Result<()>): (Result<()>, Record)
    requires accent.Ok? ==> accent.value < 0x1_0000_0000
  {
    var (r, t) := SystemRead(s, drive, user, sid, runAsAdmin, accent);
    if r.Err? then (r, s)
    else
      var (r', t') := EntriesRead(t, contextMenu, startup, saved);
      if r'.Err? then (r', s) else (r', t')
  }

  /**
   * The second half changes only the context-menu and start-up flags, and
   * succeeds only when every step does, recording both repaired states.
   */
  lemma EntriesReadSpec(s: Record, contextMenu: Result<bool>, startup: Result<bool>, saved: Result<()>)
    ensures var (r, t) := EntriesRead(s, contextMenu, startup, saved);
      && t.(context_menu := s.context_menu, auto_startup := s.auto_startup) == s
      && (r.Ok? <==> contextMenu.Ok? && startup.Ok? && saved.Ok?)
      && (r.Ok? ==> t.context_menu == contextMenu.value && t.auto_startup == startup.value)
  {
  }

  /**
   * `initialize` succeeds exactly when the SID, the administrator check, both
   * repairs and the write succeed. A success stores the administrator flag,
   * the colour, the filled paths and the repaired context-menu and start-up
   * state; any failure leaves the stored settings as they were. The
   * language, theme, tray option and tool install are never touched.
   */
  lemma InitializedSpec(
    s: Record, drive: string, user: string, sid: Result<string>, runAsAdmin: string -> Result<bool>,
    accent: Result<nat>, contextMenu: Result<bool>, startup: Result<bool>, saved: Result<()>)
    requires accent.Ok? ==> accent.value < 0x1_0000_0000
    ensures var (r, t) := Initialized(s, drive, user, sid, runAsAdmin, accent, contextMenu, startup, saved);
      && t.language == s.language && t.theme == s.theme
      && t.minimize_to_tray_on_close == s.minimize_to_tray_on_close && t.tool_install == s.tool_install
      && (r.Ok? <==> sid.Ok? && runAsAdmin(sid.value).Ok? && contextMenu.Ok? && startup.Ok? && saved.Ok?)
      && (r.Err? ==> t == s)
      && (r.Ok? ==> && t.run_as_admin == runAsAdmin(sid.value).value
                    && t.color == SystemColor(accent) && t.app_install == S.FillInstallPaths(s.app_install, drive, user)
                    && t.context_menu == contextMenu.value && t.auto_startup == startup.value)
  {
    var (r, t) := SystemRead(s, drive, user, sid, runAsAdmin, accent);
    EntriesReadSpec(t, contextMenu, startup, saved);
  }

  /**
   * Running `initialize` again under the same conditions after it
   * succeeded leaves the settings as they are, even if the environment
   * reports another drive or user.
   */
  lemma InitializedIdempotent(
    s: Record, drive: string, user: string, drive2: string, user2: string, sid: Result<string>,
    runAsAdmin: string -> Result<bool>, accent: Result<nat>, contextMenu: Result<bool>, startup: Result<bool>,
    saved: Result<()>)
    requires accent.Ok? ==> accent.value < 0x1_0000_0000
    requires Initialized(s, drive, user, sid, runAsAdmin, accent, contextMenu, startup, saved).0.Ok?
    ensures var t := Initialized(s, drive, user, sid, runAsAdmin, accent, contextMenu, startup, saved).1;
      Initialized(t, drive2, user2, sid, runAsAdmin, accent, contextMenu, startup, saved) == (Ok(()), t)
  {
    S.FillInstallPathsIdempotent(s.app_install, drive, user, drive2, user2);
  }

  /** The settings file, `Settings` of `structs.rs`. */
  class Settings {
    var language: S.Language
    var theme: S.Theme
    var minimize_to_tray_on_close: bool
    var context_menu: bool
    var auto_startup: bool
    var color: string
    var run_as_admin: bool
    var app_install: S.Installation
    var tool_install: S.ToolInstall

    /** All fields, as one value. */
    function Snapshot(): Record
      reads this
    {
      Record(language, theme, minimize_to_tray_on_close, context_menu, auto_startup, color, run_as_admin,
             app_install, tool_install)
    }

    /** `Default` of `impls.rs`. */
    constructor Default(env: S.Environment)
      requires S.WindirUsable(env)
      ensures Snapshot() == DefaultRecord(env)
    {
      var drive := if env.windir.Some? then S.DriveOf(env.windir.value) else "C";
      var user := UnwrapOr(env.username, "user");
      language, theme, context_menu, auto_startup := S.En, S.System, true, false;
      color, minimize_to_tray_on_close, run_as_admin := "", false, false;
      app_install := S.DefaultInstallation(drive, user);
      tool_install := S.ToolInstall(UnwrapOr(env.home, "C:\\"), true);
    }

    /** A settings value holding the record `rec`, as `Settings::read` returns it. */
    constructor FromRecord(rec: Record)
      ensures Snapshot() == rec
    {
      language, theme, minimize_to_tray_on_close := rec.language, rec.theme, rec.minimize_to_tray_on_close;
      context_menu, auto_startup, color := rec.context_menu, rec.auto_startup, rec.color;
      run_as_admin, app_install, tool_install := rec.run_as_admin, rec.app_install, rec.tool_install;
    }

    /** Stores the record `rec` over every field. */
    method Store(rec: Record)
      modifies this
      ensures Snapshot() == rec
    {
      language, theme, minimize_to_tray_on_close := rec.language, rec.theme, rec.minimize_to_tray_on_close;
      context_menu, auto_startup, color := rec.context_menu, rec.auto_startup, rec.color;
      run_as_admin, app_install, tool_install := rec.run_as_admin, rec.app_install, rec.tool_install;
    }

    /** `update_install_paths`: fills the empty app install paths from the given drive and user; never fails. */
    method UpdateInstallPaths(drive: string, user: string) returns (r: Result<()>)
      modifies this
      ensures r == Ok(())
      ensures Snapshot() == old(Snapshot()).(app_install := S.FillInstallPaths(old(app_install), drive, user))
    {
      var inst := app_install;
      if inst.all_users.install_path == "" {
        inst := inst.(all_users := inst.all_users.(install_path := S.AllUsersPath(drive)));
      }
      if inst.current_user.install_path == "" {
        inst := inst.(current_user := inst.current_user.(install_path := S.CurrentUserPath(drive, user)));
      }
      app_install := inst;
      r := Ok(());
    }

    /** The first half of `initialize`. */
    method ReadSystem(
      drive: string, user: string, sid: Result<string>, runAsAdmin: string -> Result<bool>,
      accent: Result<nat>) returns (r: Result<()>)
      requires accent.Ok? ==> accent.value < 0x1_0000_0000
      modifies this
      ensures (r, Snapshot()) == SystemRead(old(Snapshot()), drive, user, sid, runAsAdmin, accent)
    {
      if sid.Err? {
        return Err(sid.error);
      }
      var admin := runAsAdmin(sid.value);
      if admin.Err? {
        return Err(admin.error);
      }
      run_as_admin := admin.value;
      color := SystemColor(accent);
      r := UpdateInstallPaths(drive, user);
    }

    /** The second half of `initialize`. */
    method ReadEntries(contextMenu: Result<bool>, startup: Result<bool>, saved: Result<()>) returns (r: Result<()>)
      modifies this
      ensures (r, Snapshot()) == EntriesRead(old(Snapshot()), contextMenu, startup, saved)
    {
      if contextMenu.Err? {
        return Err(contextMenu.error);
      }
      context_menu := contextMenu.value;
      if startup.Err? {
        return Err(startup.error);
      }
      auto_startup := startup.value;
      if saved.Err? {
        return Err(saved.error);
      }
      r := Ok(());
    }

    /**
     * `initialize` of the stored settings: both halves run on the copy that
     * `Settings::read` returns, which replaces the stored settings only when
     * the write succeeds. `drive`, `user` and `sid` come from the environment
     * record, `runAsAdmin` is the registry check for a SID, `accent` the
     * registry colour, `contextMenu` and `startup` the repaired entries'
     * state and `saved` the outcome of the write.
     */
    method Initialize(
      drive: string, user: string, sid: Result<string>, runAsAdmin: string -> Result<bool>,
      accent: Result<nat>, contextMenu: Result<bool>, startup: Result<bool>, saved: Result<()>) returns (r: Result<()>)
      requires accent.Ok? ==> accent.value < 0x1_0000_0000
      modifies this
      ensures (r, Snapshot()) == Initialized(old(Snapshot()), drive, user, sid, runAsAdmin, accent, contextMenu, startup, saved)
    {
      var settings := new Settings.FromRecord(Snapshot());
      r := settings.ReadSystem(drive, user, sid, runAsAdmin, accent);
      if r.Ok? {
        r := settings.ReadEntries(contextMenu, startup, saved);
        if r.Ok? {
          Store(settings.Snapshot());
        }
      }
    }
  }
}
