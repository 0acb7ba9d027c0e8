/**
 * The Windows locations the back-end composes by string formatting: the
 * per-app install directory, the uninstall registry key, the environment key
 * holding PATH, and the shortcut files.
 */
module WinPaths {
  import opened Text
  import opened Base

  /** The registry roots the program writes under. */
  datatype Hive = CurrentUser | LocalMachine

  /** `"{install_path}\{name with spaces turned into dashes}"`, the directory an app is extracted to. */
  function AppDirectory(installPath: string, name: string): (d: string)
    ensures installPath + "\\" <= d
    ensures ' ' !in d[|installPath| + 1..]
    ensures |d| == |installPath| + 1 + |name|
  {
    var dashed := ReplaceChar(name, ' ', '-');
    ReplaceCharRemoves(name, ' ', '-');
    assert (installPath + "\\" + dashed)[|installPath| + 1..] == dashed;
    installPath + "\\" + dashed
  }

  /** The install directory adds exactly one path component, the dashed name, below the install path. */
  lemma AppDirectoryComponents(installPath: string, name: string)
    requires '\\' !in name
    ensures Split(AppDirectory(installPath, name), '\\')
         == Split(installPath, '\\') + [ReplaceChar(name, ' ', '-')]
  {
    var dashed := ReplaceChar(name, ' ', '-');
    assert '\\' !in dashed by {
      forall i | 0 <= i < |dashed| ensures dashed[i] != '\\' {
        assert name[i] != '\\';
      }
    }
    SplitAppend(installPath, dashed, '\\');
    SplitNoSep(dashed, '\\');
    assert AppDirectory(installPath, name) == installPath + ['\\'] + dashed;
  }

  /** The parent keys of the uninstall entries, per user (HKCU) and machine-wide (HKLM). */
  const UserUninstallRoot: string := "Software\\Microsoft\\Windows\\CurrentVersion\\Uninstall\\"
  const MachineUninstallRoot: string := "SOFTWARE\\Microsoft\\Windows\\CurrentVersion\\Uninstall\\"

  /** The uninstall entry of an app: per-user under HKCU, machine-wide under HKLM. */
  function UninstallKey(currentUserOnly: bool, name: string): (Hive, string) {
    if currentUserOnly then (CurrentUser, UserUninstallRoot + name)
    else (LocalMachine, MachineUninstallRoot + name)
  }

  /** The `Comments` value the installer writes into an app's uninstall key. */
  const InstalledComment := "Installed with AppPorter"

  /**
   * What the registry reports for a key: its `Comments` value, or `None`
   * when the key cannot be opened or the value read.
   */
  type Comments = ((Hive, string)) -> Option<string>

  const MachineEnvironment: string := "SYSTEM\\CurrentControlSet\\Control\\Session Manager\\Environment"

  /** The key that holds the PATH variable for one scope. */
  function EnvironmentKey(currentUserOnly: bool): (Hive, string) {
    if currentUserOnly then (CurrentUser, "Environment") else (LocalMachine, MachineEnvironment)
  }

  /** The PATH value is read and written as "Path" per user and as "path" machine-wide. */
  function PathValueName(currentUserOnly: bool): string {
    if currentUserOnly then "Path" else "path"
  }

  /** The profile part of the start-menu location: the user's roaming profile, or ProgramData. */
  function StartMenuRoot(user: string, currentUserOnly: bool): string {
    if currentUserOnly then "Users\\" + user + RoamingProfile else "ProgramData\\"
  }

  const RoamingProfile: string := "\\AppData\\Roaming\\"

  const StartMenuPrograms: string := "Microsoft\\Windows\\Start Menu\\Programs"

  /**
   * The start-menu shortcut of an app:
   * `{drive}:\Users\{user}\AppData\Roaming\Microsoft\Windows\Start Menu\Programs\{name}.lnk`
   * for the current user, `{drive}:\ProgramData\Microsoft\Windows\Start Menu\Programs\{name}.lnk` otherwise.
   */
  function StartMenuLink(drive: string, user: string, name: string, currentUserOnly: bool): string {
    drive + ":\\" + StartMenuRoot(user, currentUserOnly) + StartMenuPrograms + "\\" + name + ".lnk"
  }

  /**
   * A start-menu link sits on the system drive, in the user's roaming profile or
   * in ProgramData, and its last component is the link named after the app.
   */
  lemma StartMenuLinkShape(drive: string, user: string, name: string, currentUserOnly: bool)
    ensures var l := StartMenuLink(drive, user, name, currentUserOnly);
      var root := drive + ":\\" + (if currentUserOnly then "Users\\" + user + RoamingProfile else "ProgramData\\");
      root <= l && |l| >= |name| + 5 && l[|l| - |name| - 5..] == "\\" + name + ".lnk"
  {
    var l := StartMenuLink(drive, user, name, currentUserOnly);
    var root := drive + ":\\" + StartMenuRoot(user, currentUserOnly);
    var tail := "\\" + name + ".lnk";
    assert l == root + (StartMenuPrograms + tail);
    assert l == (root + StartMenuPrograms) + tail;
    assert l[|l| - |tail|..] == tail;
  }

  /** The per-user and the all-users link of the same app are different files. */
  lemma StartMenuLinkScopesDiffer(drive: string, user: string, name: string)
    ensures StartMenuLink(drive, user, name, true) != StartMenuLink(drive, user, name, false)
  {
    assert StartMenuLink(drive, user, name, true)[|drive| + 2] == 'U';
    assert StartMenuLink(drive, user, name, false)[|drive| + 2] == 'P';
  }

  /** `"{desktop}\{name}.lnk"`. */
  function DesktopLink(desktopDir: string, name: string): string {
    desktopDir + "\\" + name + ".lnk"
  }
}
