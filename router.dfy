/**
 * The navigation guard of `src/router.ts`: the wizard hub `/Installation`
 * redirects to the page the store records, and entering the home page
 * resets the store.
 */
module MainRouter {
  import opened Base
  import opened Routing
  import InstallationConfig

  /** The route table. */
  function Routes(): seq<Route> {
    [Route(Root, Some(Hub)), Route(Hub, None), Route(HomeRoute, None), Route(ConfigRoute, None),
     Route(ProgressRoute, None), Route(AppListRoute, None), Route(SettingsRoute, None), Route(AboutRoute, None)]
  }

  /** The hub's redirect target for the recorded wizard page; an unknown page gives the empty path. */
  function HubTarget(page: string): string {
    if page == "Home" then HomeRoute
    else if page == "Config" then ConfigRoute
    else if page == "Progress" then ProgressRoute
    else ""
  }

  /** The guard's answer for a move `from` → `to` while the store records `page`. */
  function Decide(page: string, to: string, from: string): Outcome {
    if to == from then Approve
    else if to == Hub then Redirect(HubTarget(page))
    else Approve
  }

  /** Whether the guard resets the store on that move. */
  predicate Resets(to: string, from: string) {
    to != from && to == HomeRoute
  }

  /** A move to the current route is approved without touching the store. */
  lemma SameRouteApproved(page: string, path: string)
    ensures Decide(page, path, path) == Approve && !Resets(path, path)
  {
  }

  /**
   * The guard redirects exactly the moves into the hub, to a target chosen
   * by the page alone (not by where the move came from); it never denies,
   * and it never resets on a redirect.
   */
  lemma RedirectsOnlyHub(page: string, to: string, from: string, other: string)
    ensures Decide(page, to, from).Redirect? <==> to == Hub && from != Hub
    ensures Decide(page, to, from) != Deny
    ensures to == Hub && from != Hub && other != Hub ==> Decide(page, to, from) == Decide(page, to, other)
    ensures Decide(page, to, from).Redirect? ==> Decide(page, to, from).path == HubTarget(page) && !Resets(to, from)
  {
  }

  /** Home, Config and Progress each lead to their own page; any other page to the empty path. */
  lemma HubTargetSpec(page: string)
    ensures page == "Home" <==> HubTarget(page) == HomeRoute
    ensures page == "Config" <==> HubTarget(page) == ConfigRoute
    ensures page == "Progress" <==> HubTarget(page) == ProgressRoute
    ensures page != "Home" && page != "Config" && page != "Progress" <==> HubTarget(page) == ""
  {
  }

  /**
   * Following a redirect ends the chain: the target is not the hub, so the
   * guard approves the next move; and a non-empty target is a route of the
   * table that does not redirect itself.
   */
  lemma RedirectSettles(page: string, to: string, from: string)
    requires Decide(page, to, from).Redirect?
    ensures var t := Decide(page, to, from).path;
      Decide(page, t, to) == Approve
      && (t != "" ==> Lookup(Routes(), t).Some? && Resolve(Routes(), t) == t)
  {
  }

  /** The root redirects to the hub; every other route of the table stays where it is. */
  lemma RoutesResolve(path: string)
    ensures Resolve(Routes(), Root) == Hub
    ensures path != Root ==> Resolve(Routes(), path) == path
  {
  }

  /** The `beforeEach` guard: decides the move and resets the store when entering the home page. */
  method Guard(store: InstallationConfig.Store, to: string, from: string) returns (r: Outcome)
    modifies store
    ensures r == Decide(old(store.page), to, from)
    ensures store.State() == if Resets(to, from) then InstallationConfig.Initial() else old(store.State())
  {
    if to == from {
      return Approve;
    }
    if to == Hub {
      return Redirect(HubTarget(store.page));
    }
    if to == HomeRoute {
      store.Reset();
    }
    return Approve;
  }
}
