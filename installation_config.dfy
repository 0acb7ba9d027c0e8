/**
 * The wizard's `installation_config` store: the chosen archive, the
 * installation options and the application metadata, plus the wizard page
 * the navigation guards read. `$reset` restores the initial state;
 * `resetConfig` does the same but keeps the archive path.
 */
module InstallationConfig {

  datatype Wizard = Wizard(
    zip_path: string,
    current_user_only: bool,
    create_desktop_shortcut: bool,
    create_registry_key: bool,
    create_start_menu_shortcut: bool,
    install_path: string,
    executable_path: string,
    app_icon: string,
    app_name: string,
    app_publisher: string,
    app_version: string,
    page: string)

  /** The page the wizard starts on. */
  const HomePage := "Home"

  /** The store's initial state. */
  function Initial(): Wizard {
    Wizard("", false, false, true, true, "", "", "", "", "", "", HomePage)
  }

  /** The store after `resetConfig()`: the initial state with the archive path kept. */
  function AfterResetConfig(w: Wizard): Wizard {
    Initial().(zip_path := w.zip_path)
  }

  /**
   * `resetConfig` keeps the archive path and puts every other field back to
   * its initial value; applying it twice is applying it once.
   */
  lemma ResetConfigSpec(w: Wizard)
    ensures AfterResetConfig(w).zip_path == w.zip_path
    ensures AfterResetConfig(w).(zip_path := "") == Initial()
    ensures AfterResetConfig(AfterResetConfig(w)) == AfterResetConfig(w)
    ensures AfterResetConfig(w) == Initial() <==> w.zip_path == ""
  {
  }

  /** Initially the registry key and start-menu shortcut are on, the other options off, every string empty. */
  lemma InitialSpec()
    ensures var w := Initial();
      && w.create_registry_key && w.create_start_menu_shortcut
      && !w.current_user_only && !w.create_desktop_shortcut
      && w.zip_path == w.install_path == w.executable_path == ""
      && w.app_icon == w.app_name == w.app_publisher == w.app_version == ""
  {
  }

  /** The pinia store, one field per state property. */
  class Store {
    var zip_path: string
    var current_user_only: bool
    var create_desktop_shortcut: bool
    var create_registry_key: bool
    var create_start_menu_shortcut: bool
    var install_path: string
    var executable_path: string
    var app_icon: string
    var app_name: string
    var app_publisher: string
    var app_version: string
    var page: string

    function State(): Wizard
      reads this
    {
      Wizard(zip_path, current_user_only, create_desktop_shortcut, create_registry_key,
             create_start_menu_shortcut, install_path, executable_path, app_icon, app_name,
             app_publisher, app_version, page)
    }

    constructor ()
      ensures State() == Initial()
    {
      zip_path := "";
      current_user_only, create_desktop_shortcut := false, false;
      create_registry_key, create_start_menu_shortcut := true, true;
      install_path, executable_path := "", "";
      app_icon, app_name, app_publisher, app_version := "", "", "", "";
      page := HomePage;
    }

    /** Pinia's `$reset`: every field back to its initial value. */
    method Reset()
      modifies this
      ensures State() == Initial()
    {
      zip_path := "";
      current_user_only, create_desktop_shortcut := false, false;
      create_registry_key, create_start_menu_shortcut := true, true;
      install_path, executable_path := "", "";
      app_icon, app_name, app_publisher, app_version := "", "", "", "";
      page := HomePage;
    }

    /** `resetConfig`: saves the archive path, resets the store, then restores the path. */
    method ResetConfig()
      modifies this
      ensures State() == AfterResetConfig(old(State()))
    {
      var zipPath := zip_path;
      Reset();
      zip_path := zipPath;
    }
  }
}
