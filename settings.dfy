/**
 * The settings file of `configs/settings.rs` and
 * `configs/settings/implement.rs`: its defaults, the refresh of the
 * system information, the accent colour read from the registry, and the
 * rule that an install path is filled in only when it is empty. The
 * environment variables, the elevation check, the PowerShell query for
 * the user's SID, the registry reads and the file write are parameters.
 */
module Settings {
  import opened Base

  datatype Language = En | Zh | Fr | De | Es | Ja | Ko | Ru

  datatype Theme = System | Light | Dark

  /** The install options of one scope (all users or the current user). */
  datatype InstallSettings = InstallSettings(
    create_desktop_shortcut: bool,
    create_registry_key: bool,
    create_start_menu_shortcut: bool,
    install_path: string,
    add_to_path: bool)

  datatype Installation = Installation(current_user_only: bool, all_users: InstallSettings, current_user: InstallSettings)

  /** Where copied tools go (`copy_only`, later `tool_install`). */
  datatype ToolInstall = ToolInstall(install_path: string, add_to_path: bool)

  const ProgramFiles: string := ":\\Program Files"
  const UsersDir: string := ":\\Users\\"
  const LocalPrograms: string := "\\AppData\\Local\\Programs"

  /** The default install path for all users, on a drive. */
  function AllUsersPath(drive: string): (p: string)
    ensures p != ""
  {
    drive + ProgramFiles
  }

  /** The default install path for one user, on a drive. */
  function CurrentUserPath(drive: string, user: string): (p: string)
    ensures p != ""
  {
    drive + UsersDir + user + LocalPrograms
  }

  /** A fresh scope: start-menu shortcut and registry key, no desktop shortcut, not on `PATH`. */
  function DefaultScope(path: string): InstallSettings {
    InstallSettings(false, true, true, path, false)
  }

  function DefaultInstallation(drive: string, user: string): Installation {
    Installation(false, DefaultScope(AllUsersPath(drive)), DefaultScope(CurrentUserPath(drive, user)))
  }

  function FillPath(scope: InstallSettings, path: string): InstallSettings {
    if scope.install_path == "" then scope.(install_path := path) else scope
  }

  /** `update_install_paths`: each empty install path gets its default for the drive and user. */
  function FillInstallPaths(installation: Installation, drive: string, user: string): Installation {
    installation.(
      all_users := FillPath(installation.all_users, AllUsersPath(drive)),
      current_user := FillPath(installation.current_user, CurrentUserPath(drive, user)))
  }

  /**
   * Only an empty path is replaced, by its default; a non-empty path and
   * every other option are kept, and afterwards neither path is empty.
   */
  lemma FillInstallPathsSpec(installation: Installation, drive: string, user: string)
    ensures var r := FillInstallPaths(installation, drive, user);
      && r.all_users.install_path
         == (if installation.all_users.install_path == "" then AllUsersPath(drive) else installation.all_users.install_path)
      && r.current_user.install_path
         == (if installation.current_user.install_path == "" then CurrentUserPath(drive, user)
             else installation.current_user.install_path)
      && r.all_users.(install_path := "") == installation.all_users.(install_path := "")
      && r.current_user.(install_path := "") == installation.current_user.(install_path := "")
      && r.current_user_only == installation.current_user_only
      && r.all_users.install_path != "" && r.current_user.install_path != ""
  {
  }

  /** Filling paths a second time changes nothing, whatever drive and user it is given. */
  lemma FillInstallPathsIdempotent(installation: Installation, drive: string, user: string, drive2: string, user2: string)
    ensures var once := FillInstallPaths(installation, drive, user);
      FillInstallPaths(once, drive2, user2) == once
  {
  }

  /** The default installation needs no filling. */
  lemma DefaultInstallationFilled(drive: string, user: string, drive2: string, user2: string)
    ensures FillInstallPaths(DefaultInstallation(drive, user), drive2, user2) == DefaultInstallation(drive, user)
    ensures DefaultInstallation(drive, user).all_users.install_path == drive + ":\\Program Files"
    ensures DefaultInstallation(drive, user).current_user.install_path
         == drive + ":\\Users\\" + user + "\\AppData\\Local\\Programs"
  {
  }

  // Hexadecimal rendering of the accent colour.

  const HexDigits: string := "0123456789abcdef"

  function Pow16(i: nat): (p: nat)
    ensures p > 0
  {
    if i == 0 then 1 else 16 * Pow16(i - 1)
  }

  /** `format!("{:08x}", n)` of a `u32`: eight lowercase hex digits, most significant first. */
  function Hex8(n: nat): (h: string)
    requires n < 0x1_0000_0000
    ensures |h| == 8
  {
    seq(8, j requires 0 <= j < 8 => HexDigits[(n / Pow16(7 - j)) % 16])
  }

  /** Two lowercase hex digits of a byte. */
  function Hex2(b: nat): (h: string)
    requires b < 256
    ensures |h| == 2
  {
    [HexDigits[b / 16], HexDigits[b % 16]]
  }

  /**
   * `update_color_settings`: the registry holds the colour as ABGR; the
   * digits 2-4, 4-6 and 6-8 are blue, green and red, written back as
   * `#rrggbb`.
   */
  function AccentColor(abgr: nat): string
    requires abgr < 0x1_0000_0000
  {
    var h := Hex8(abgr);
    "#" + h[6..8] + h[4..6] + h[2..4]
  }

  lemma MulAtLeast(d: int, k: int)
    requires d > 0 && k >= 1
    ensures d * k >= d
  {
  }

  /** Division with remainder has one answer. */
  lemma DivUnique(n: int, d: int, x: int, y: int)
    requires d > 0 && n == d * x + y && 0 <= y < d
    ensures n / d == x && n % d == y
  {
    var q := n / d;
    if q > x {
      MulAtLeast(d, q - x);
    } else if q < x {
      MulAtLeast(d, x - q);
    }
  }

  /** Dividing by `a` then `b` is dividing by `a * b`, and the digits below `a * b` split the same way. */
  lemma DivMulSplit(n: nat, a: nat, b: nat)
    requires a > 0 && b > 0
    ensures (n / a) / b == n / (a * b)
    ensures (n % (a * b)) / a == (n / a) % b
    ensures (n % (a * b)) % a == n % a
  {
    var q, r := n / a, n % a;
    var q2, r2 := q / b, q % b;
    assert a * q == (a * b) * q2 + a * r2;
    assert 0 <= a * r2 + r < a * b by {
      assert a * r2 <= a * (b - 1);
    }
    DivUnique(n, a * b, q2, a * r2 + r);
    DivUnique(a * r2 + r, a, r2, r);
  }

  lemma Pow16Values()
    ensures Pow16(1) == 16 && Pow16(2) == 256 && Pow16(3) == 4096 && Pow16(4) == 65536 && Pow16(5) == 1048576
  {
  }

  lemma {:induction false} AccentRed(n: nat)
    requires n < 0x1_0000_0000
    ensures |AccentColor(n)| == 7 && AccentColor(n)[1..3] == Hex2(n % 256)
  {
    Pow16Values();
    var c := AccentColor(n);
    assert c[1] == Hex8(n)[6] && c[2] == Hex8(n)[7];
    DivMulSplit(n, 16, 16);
  }

  lemma {:induction false} AccentGreen(n: nat)
    requires n < 0x1_0000_0000
    ensures |AccentColor(n)| == 7 && AccentColor(n)[3..5] == Hex2((n / 256) % 256)
  {
    Pow16Values();
    var c := AccentColor(n);
    var g := (n / 256) % 256;
    DivMulSplit(n / 256, 16, 16);
    DivMulSplit(n, 256, 16);
    assert c[3] == Hex8(n)[4] && c[4] == Hex8(n)[5];
    assert c[3] == Hex2(g)[0] && c[4] == Hex2(g)[1];
  }

  lemma {:induction false} AccentBlue(n: nat)
    requires n < 0x1_0000_0000
    ensures |AccentColor(n)| == 7 && AccentColor(n)[5..7] == Hex2((n / 65536) % 256)
  {
    Pow16Values();
    var c := AccentColor(n);
    var b := (n / 65536) % 256;
    DivMulSplit(n / 65536, 16, 16);
    DivMulSplit(n, 65536, 16);
    assert c[5] == Hex8(n)[2] && c[6] == Hex8(n)[3];
    assert c[5] == Hex2(b)[0] && c[6] == Hex2(b)[1];
  }

  /**
   * The colour is `#` and the red, green and blue bytes of the ABGR value
   * (its lowest byte first), two hex digits each; seven characters.
   */
  lemma AccentColorBytes(abgr: nat)
    requires abgr < 0x1_0000_0000
    ensures AccentColor(abgr) == "#" + Hex2(abgr % 256) + Hex2((abgr / 256) % 256) + Hex2((abgr / 65536) % 256)
  {
    var c := AccentColor(abgr);
    AccentRed(abgr);
    AccentGreen(abgr);
    AccentBlue(abgr);
    assert c == c[..1] + c[1..3] + c[3..5] + c[5..7];
  }

  /** The value of a lowercase hex digit. */
  function DigitValue(c: char): int {
    if '0' <= c <= '9' then c as int - '0' as int else c as int - 'a' as int + 10
  }

  lemma DigitRoundTrip(i: nat)
    requires i < 16
    ensures DigitValue(HexDigits[i]) == i
  {
    assert HexDigits[i] == (if i < 10 then ('0' as int + i) as char else ('a' as int + i - 10) as char);
  }

  /** The value of two hex digits. */
  function ByteValue(h: string): int
    requires |h| == 2
  {
    16 * DigitValue(h[0]) + DigitValue(h[1])
  }

  /** Reading back the two digits of a byte gives the byte. */
  lemma Hex2RoundTrip(b: nat)
    requires b < 256
    ensures ByteValue(Hex2(b)) == b
  {
    DigitRoundTrip(b / 16);
    DigitRoundTrip(b % 16);
  }

  /** Distinct bytes have distinct digits. */
  lemma Hex2Injective(x: nat, y: nat)
    requires x < 256 && y < 256 && Hex2(x) == Hex2(y)
    ensures x == y
  {
    Hex2RoundTrip(x);
    Hex2RoundTrip(y);
  }

  /**
   * Two ABGR values give the same colour exactly when their red, green and
   * blue bytes agree: the alpha byte is dropped and nothing else is.
   */
  lemma AccentColorSame(a: nat, b: nat)
    requires a < 0x1_0000_0000 && b < 0x1_0000_0000
    ensures AccentColor(a) == AccentColor(b)
      <==> a % 256 == b % 256 && (a / 256) % 256 == (b / 256) % 256 && (a / 65536) % 256 == (b / 65536) % 256
  {
    AccentColorBytes(a);
    AccentColorBytes(b);
    if AccentColor(a) == AccentColor(b) {
      var ca, cb := AccentColor(a), AccentColor(b);
      assert ca[1..3] == cb[1..3] && ca[3..5] == cb[3..5] && ca[5..7] == cb[5..7];
      AccentRed(a);
      AccentRed(b);
      AccentGreen(a);
      AccentGreen(b);
      AccentBlue(a);
      AccentBlue(b);
      Hex2Injective(a % 256, b % 256);
      Hex2Injective((a / 256) % 256, (b / 256) % 256);
      Hex2Injective((a / 65536) % 256, (b / 65536) % 256);
    }
  }

  lemma LowRed(abgr: nat)
    ensures (abgr % 0x100_0000) % 256 == abgr % 256
  {
    DivMulSplit(abgr, 256, 65536);
  }

  lemma LowGreen(abgr: nat)
    ensures ((abgr % 0x100_0000) / 256) % 256 == (abgr / 256) % 256
  {
    DivMulSplit(abgr, 256, 65536);
    DivMulSplit(abgr / 256, 256, 256);
  }

  lemma LowBlue(abgr: nat)
    ensures ((abgr % 0x100_0000) / 65536) % 256 == (abgr / 65536) % 256
  {
    DivMulSplit(abgr, 65536, 256);
  }

  /** The alpha byte does not matter. */
  lemma AccentColorDropsAlpha(abgr: nat)
    requires abgr < 0x1_0000_0000
    ensures AccentColor(abgr) == AccentColor(abgr % 0x100_0000)
  {
    LowRed(abgr);
    LowGreen(abgr);
    LowBlue(abgr);
    AccentColorBytes(abgr);
    AccentColorBytes(abgr % 0x100_0000);
  }

  // The settings record and its defaults.

  /** What the process environment and the system answer. */
  datatype Environment = Environment(
    windir: Option<string>,
    username: Option<string>,
    elevated: Result<bool>,
    home: Option<string>)

  /** `std::env::var` on a missing variable. */
  const VarMissing: string := "environment variable not found"

  /** `windir[..1]`: the system drive letter. */
  function DriveOf(windir: string): string
    requires windir != ""
  {
    windir[..1]
  }

  /** The environment's `windir`, if present, is not empty (slicing an empty one panics). */
  predicate WindirUsable(env: Environment) {
    env.windir.None? || env.windir.value != ""
  }

  /** The fields only the user changes. */
  datatype Choices = Choices(
    language: Language,
    theme: Theme,
    context_menu: bool,
    auto_startup: bool,
    minimize_to_tray_on_close: bool,
    first_run: bool,
    copy_only: ToolInstall)

  /** The fields `initialization` refreshes. */
  datatype Maintained = Maintained(
    debug: bool,
    elevated: bool,
    run_as_admin: bool,
    system_drive_letter: string,
    user_sid: string,
    username: string,
    color: string,
    installation: Installation)

  /** The defaults of the user's choices; copied tools go to the home directory, or `C:\`, and on `PATH`. */
  function DefaultChoices(env: Environment): Choices {
    Choices(En, System, true, false, false, true, ToolInstall(UnwrapOr(env.home, "C:\\"), true))
  }

  /**
   * `Default` of `implement.rs`: the drive letter of `windir` or "C", the
   * user name or "user", elevation or `false`.
   */
  function DefaultMaintained(env: Environment, debugBuild: bool): Maintained
    requires WindirUsable(env)
  {
    var drive := if env.windir.Some? then DriveOf(env.windir.value) else "C";
    var user := UnwrapOr(env.username, "user");
    Maintained(
      debugBuild, if env.elevated.Ok? then env.elevated.value else false, false,
      drive, "", user, "", DefaultInstallation(drive, user))
  }

  /**
   * The defaults: first run, English, system theme, context menu on,
   * start-up and tray off, not run as administrator; the paths are the
   * drive's and user's defaults, with "C" and "user" standing in for a
   * missing variable, and need no filling; copied tools go on `PATH`.
   */
  lemma DefaultsSpec(env: Environment, debugBuild: bool)
    requires WindirUsable(env)
    ensures var c := DefaultChoices(env);
      && c.first_run && c.context_menu && !c.auto_startup && !c.minimize_to_tray_on_close
      && c.language == En && c.theme == System
      && c.copy_only.add_to_path && (env.home.None? ==> c.copy_only.install_path == "C:\\")
    ensures var m := DefaultMaintained(env, debugBuild);
      && !m.run_as_admin && m.debug == debugBuild && m.color == "" && m.user_sid == ""
      && (env.windir.None? ==> m.system_drive_letter == "C")
      && (env.windir.Some? ==> m.system_drive_letter == [env.windir.value[0]])
      && (env.username.None? ==> m.username == "user")
      && (env.username.Some? ==> m.username == env.username.value)
      && (env.elevated.Err? ==> !m.elevated)
      && m.installation == DefaultInstallation(m.system_drive_letter, m.username)
      && FillInstallPaths(m.installation, m.system_drive_letter, m.username) == m.installation
  {
  }

  /**
   * `create_default` of `settings.rs`: the same defaults, but a missing
   * `windir` or `USERNAME`, a failed elevation check or a failed write of
   * the file is an error. This version of the record has no context-menu,
   * start-up or copy-only fields; they hold their type's zero value.
   */
  function CreateDefault(env: Environment, debugBuild: bool, written: Result<()>): Result<(Choices, Maintained)>
    requires WindirUsable(env)
  {
    if env.windir.None? then Err(VarMissing)
    else if env.username.None? then Err(VarMissing)
    else if env.elevated.Err? then Err(env.elevated.error)
    else if written.Err? then Err(written.error)
    else
      var drive := DriveOf(env.windir.value);
      Ok((Choices(En, System, false, false, false, true, ToolInstall("", false)),
          Maintained(debugBuild, env.elevated.value, false, drive, "", env.username.value, "",
                     DefaultInstallation(drive, env.username.value))))
  }

  /**
   * `create_default` succeeds exactly when both variables are set, the
   * elevation check answers and the file is written; it then agrees with
   * `Default` on every field both versions have.
   */
  lemma CreateDefaultSpec(env: Environment, debugBuild: bool, written: Result<()>)
    requires WindirUsable(env)
    ensures CreateDefault(env, debugBuild, written).Ok?
      <==> env.windir.Some? && env.username.Some? && env.elevated.Ok? && written.Ok?
    ensures CreateDefault(env, debugBuild, written).Ok? ==>
      var (c, m) := CreateDefault(env, debugBuild, written).value;
      && m == DefaultMaintained(env, debugBuild)
      && c.(context_menu := true, copy_only := DefaultChoices(env).copy_only) == DefaultChoices(env)
    ensures env.windir.None? || env.username.None? ==> CreateDefault(env, debugBuild, written) == Err(VarMissing)
  {
  }

  /**
   * The first half of `initialization` from the fields `m`: the debug
   * flag, the elevation, the SID and the run-as-administrator flag (read
   * under the new SID) are set in this order, a failure stopping the rest.
   */
  function Identified(m: Maintained, env: Environment, debugBuild: bool, sid: Result<string>, runAsAdmin: string -> Result<bool>)
    : (Result<()>, Maintained)
  {
    var m := m.(debug := debugBuild);
    if env.elevated.Err? then (Err(env.elevated.error), m)
    else
      var m := m.(elevated := env.elevated.value);
      if sid.Err? then (Err(sid.error), m)
      else
        var m := m.(user_sid := sid.value);
        var admin := runAsAdmin(sid.value);
        if admin.Err? then (Err(admin.error), m) else (Ok(()), m.(run_as_admin := admin.value))
  }

  /** `update_system_info`: the drive letter of `windir`, then the user name; a missing variable stops it. */
  function SystemInfoStep(m: Maintained, env: Environment): (Result<()>, Maintained)
    requires WindirUsable(env)
  {
    if env.windir.None? then (Err(VarMissing), m)
    else
      var m := m.(system_drive_letter := DriveOf(env.windir.value));
      if env.username.None? then (Err(VarMissing), m) else (Ok(()), m.(username := env.username.value))
  }

  /** `update_color_settings`: the converted colour, or the registry read's error. */
  function ColorStep(m: Maintained, accent: Result<nat>): (Result<()>, Maintained)
    requires accent.Ok? ==> accent.value < 0x1_0000_0000
  {
    if accent.Err? then (Err(accent.error), m) else (Ok(()), m.(color := AccentColor(accent.value)))
  }

  /**
   * The second half: the drive letter and user name, the accent colour
   * and the install paths, in this order, a failure stopping the rest;
   * then the file is written.
   */
  function Refreshed(m: Maintained, env: Environment, accent: Result<nat>, saved: Result<()>): (Result<()>, Maintained)
    requires WindirUsable(env)
    requires accent.Ok? ==> accent.value < 0x1_0000_0000
  {
    var info := SystemInfoStep(m, env);
    if info.0.Err? then info
    else
      var c := ColorStep(info.1, accent);
      if c.0.Err? then c
      else
        var t := c.1.(installation := FillInstallPaths(c.1.installation, c.1.system_drive_letter, c.1.username));
        if saved.Err? then (Err(saved.error), t) else (Ok(()), t)
  }

  /** The outcome of `initialization` from the fields `m`: both halves, the second only when the first succeeds. */
  function Initialized(
    m: Maintained, env: Environment, debugBuild: bool, sid: Result<string>,
    runAsAdmin: string -> Result<bool>, accent: Result<nat>, saved: Result<()>): (Result<()>, Maintained)
    requires WindirUsable(env)
    requires accent.Ok? ==> accent.value < 0x1_0000_0000
  {
    var first := Identified(m, env, debugBuild, sid, runAsAdmin);
    if first.0.Err? then first else Refreshed(first.1, env, accent, saved)
  }

  lemma IdentifiedOk(m: Maintained, env: Environment, debugBuild: bool, sid: Result<string>, runAsAdmin: string -> Result<bool>)
    ensures var (r, t) := Identified(m, env, debugBuild, sid, runAsAdmin);
      r.Ok? ==> (env.elevated.Ok? && sid.Ok? && runAsAdmin(sid.value).Ok?
        && t == m.(debug := debugBuild, elevated := env.elevated.value, user_sid := sid.value,
                   run_as_admin := runAsAdmin(sid.value).value))
  {
  }

  lemma RefreshedOk(m: Maintained, env: Environment, accent: Result<nat>, saved: Result<()>)
    requires WindirUsable(env)
    requires accent.Ok? ==> accent.value < 0x1_0000_0000
    ensures var (r, t) := Refreshed(m, env, accent, saved);
      r.Ok? ==> (env.windir.Some? && env.username.Some? && accent.Ok?
        && t == m.(system_drive_letter := DriveOf(env.windir.value), username := env.username.value,
                   color := AccentColor(accent.value),
                   installation := FillInstallPaths(m.installation, DriveOf(env.windir.value), env.username.value)))
  {
  }

  /**
   * The install paths are filled only after the drive letter and user name
   * are refreshed, so a successful run fills them from the current
   * environment, with the converted colour and the new SID.
   */
  lemma InitializedSuccess(
    m: Maintained, env: Environment, debugBuild: bool, sid: Result<string>,
    runAsAdmin: string -> Result<bool>, accent: Result<nat>, saved: Result<()>)
    requires WindirUsable(env)
    requires accent.Ok? ==> accent.value < 0x1_0000_0000
    ensures var (r, t) := Initialized(m, env, debugBuild, sid, runAsAdmin, accent, saved);
      r.Ok? ==> (env.windir.Some? && env.username.Some? && accent.Ok? && sid.Ok? && env.elevated.Ok?
        && t == Maintained(
             debugBuild, env.elevated.value, runAsAdmin(sid.value).value,
             DriveOf(env.windir.value), sid.value, env.username.value, AccentColor(accent.value),
             FillInstallPaths(m.installation, DriveOf(env.windir.value), env.username.value)))
  {
    var first := Identified(m, env, debugBuild, sid, runAsAdmin);
    IdentifiedOk(m, env, debugBuild, sid, runAsAdmin);
    RefreshedOk(first.1, env, accent, saved);
  }

  /** A failure before the final write leaves the install paths as they were. */
  lemma InitializedFailureKeepsPaths(
    m: Maintained, env: Environment, debugBuild: bool, sid: Result<string>,
    runAsAdmin: string -> Result<bool>, accent: Result<nat>, saved: Result<()>)
    requires WindirUsable(env)
    requires accent.Ok? ==> accent.value < 0x1_0000_0000
    ensures var (r, t) := Initialized(m, env, debugBuild, sid, runAsAdmin, accent, saved);
      r.Err? && saved.Ok? ==> t.installation == m.installation
  {
  }

  /** The settings file, `Settings` of `configs/settings.rs` with the fields `implement.rs` adds. */
  class Settings {
    var language: Language
    var theme: Theme
    var context_menu: bool
    var auto_startup: bool
    var minimize_to_tray_on_close: bool
    var first_run: bool
    var color: string
    var debug: bool
    var elevated: bool
    var run_as_admin: bool
    var system_drive_letter: string
    var user_sid: string
    var username: string
    var installation: Installation
    var copy_only: ToolInstall

    /** The user's choices. */
    function ChoicesOf(): Choices
      reads this
    {
      Choices(language, theme, context_menu, auto_startup, minimize_to_tray_on_close, first_run, copy_only)
    }

    /** The fields `initialization` refreshes. */
    function MaintainedOf(): Maintained
      reads this
    {
      Maintained(debug, elevated, run_as_admin, system_drive_letter, user_sid, username, color, installation)
    }

    /** `Default` of `implement.rs`. */
    constructor Default(env: Environment, debugBuild: bool)
      requires WindirUsable(env)
      ensures ChoicesOf() == DefaultChoices(env)
      ensures MaintainedOf() == DefaultMaintained(env, debugBuild)
    {
      var drive := if env.windir.Some? then DriveOf(env.windir.value) else "C";
      var user := UnwrapOr(env.username, "user");
      language, theme, context_menu, auto_startup := En, System, true, false;
      minimize_to_tray_on_close, first_run, color, debug := false, true, "", debugBuild;
      elevated := if env.elevated.Ok? then env.elevated.value else false;
      run_as_admin, system_drive_letter, user_sid, username := false, drive, "", user;
      installation := DefaultInstallation(drive, user);
      copy_only := ToolInstall(UnwrapOr(env.home, "C:\\"), true);
    }

    /** `update_install_paths`: fills the empty install paths from the stored drive and user. */
    method UpdateInstallPaths()
      modifies this
      ensures installation == FillInstallPaths(old(installation), system_drive_letter, username)
      ensures MaintainedOf() == old(MaintainedOf()).(installation := installation)
      ensures ChoicesOf() == old(ChoicesOf())
    {
      var inst := installation;
      if inst.all_users.install_path == "" {
        inst := inst.(all_users := inst.all_users.(install_path := AllUsersPath(system_drive_letter)));
      }
      if inst.current_user.install_path == "" {
        inst := inst.(current_user := inst.current_user.(install_path := CurrentUserPath(system_drive_letter, username)));
      }
      installation := inst;
    }

    /** `update_system_info`. */
    method UpdateSystemInfo(env: Environment) returns (r: Result<()>)
      requires WindirUsable(env)
      modifies this
      ensures r == SystemInfoStep(old(MaintainedOf()), env).0
      ensures MaintainedOf() == SystemInfoStep(old(MaintainedOf()), env).1
      ensures ChoicesOf() == old(ChoicesOf())
    {
      if env.windir.None? {
        return Err(VarMissing);
      }
      system_drive_letter := DriveOf(env.windir.value);
      if env.username.None? {
        return Err(VarMissing);
      }
      username := env.username.value;
      r := Ok(());
    }

    /** `update_color_settings`: `accent` is the registry's `AccentColorMenu` value, or the read's error. */
    method UpdateColorSettings(accent: Result<nat>) returns (r: Result<()>)
      requires accent.Ok? ==> accent.value < 0x1_0000_0000
      modifies this
      ensures r == ColorStep(old(MaintainedOf()), accent).0
      ensures MaintainedOf() == ColorStep(old(MaintainedOf()), accent).1
      ensures ChoicesOf() == old(ChoicesOf())
    {
      if accent.Err? {
        return Err(accent.error);
      }
      color := AccentColor(accent.value);
      r := Ok(());
    }

    /** The first half of `initialization`. */
    method Identify(env: Environment, debugBuild: bool, sid: Result<string>, runAsAdmin: string -> Result<bool>)
      returns (r: Result<()>)
      modifies this
      ensures r == Identified(old(MaintainedOf()), env, debugBuild, sid, runAsAdmin).0
      ensures MaintainedOf() == Identified(old(MaintainedOf()), env, debugBuild, sid, runAsAdmin).1
      ensures ChoicesOf() == old(ChoicesOf())
    {
      debug := debugBuild;
      if env.elevated.Err? {
        return Err(env.elevated.error);
      }
      elevated := env.elevated.value;
      if sid.Err? {
        return Err(sid.error);
      }
      user_sid := sid.value;
      var admin := runAsAdmin(user_sid);
      if admin.Err? {
        return Err(admin.error);
      }
      run_as_admin := admin.value;
      r := Ok(());
    }

    /** The second half of `initialization`. */
    method Refresh(env: Environment, accent: Result<nat>, saved: Result<()>) returns (r: Result<()>)
      requires WindirUsable(env)
      requires accent.Ok? ==> accent.value < 0x1_0000_0000
      modifies this
      ensures r == Refreshed(old(MaintainedOf()), env, accent, saved).0
      ensures MaintainedOf() == Refreshed(old(MaintainedOf()), env, accent, saved).1
      ensures ChoicesOf() == old(ChoicesOf())
    {
      r := UpdateSystemInfo(env);
      if r.Err? {
        return;
      }
      r := UpdateColorSettings(accent);
      if r.Err? {
        return;
      }
      UpdateInstallPaths();
      if saved.Err? {
        return Err(saved.error);
      }
    }

    /**
     * `initialization`: `sid` is the PowerShell answer, `runAsAdmin` the
     * registry check for a SID, `accent` the registry colour and `saved`
     * the outcome of writing the file. The user's choices are kept.
     */
    method Initialization(
      env: Environment, debugBuild: bool, sid: Result<string>,
      runAsAdmin: string -> Result<bool>, accent: Result<nat>, saved: Result<()>) returns (r: Result<()>)
      requires WindirUsable(env)
      requires accent.Ok? ==> accent.value < 0x1_0000_0000
      modifies this
      ensures r == Initialized(old(MaintainedOf()), env, debugBuild, sid, runAsAdmin, accent, saved).0
      ensures MaintainedOf() == Initialized(old(MaintainedOf()), env, debugBuild, sid, runAsAdmin, accent, saved).1
      ensures ChoicesOf() == old(ChoicesOf())
    {
      r := Identify(env, debugBuild, sid, runAsAdmin);
      if r.Ok? {
        r := Refresh(env, accent, saved);
      }
    }
  }
}
