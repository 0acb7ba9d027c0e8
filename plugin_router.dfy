/**
 * The navigation guard of `src/plugin/router.ts`: leaving the options page
 * for anywhere but the progress page asks the user to confirm; an approved
 * move to the hub or the settings page resets the store. The user's answer
 * to the dialog is an input (`accept`).
 */
module PluginRouter {
  import opened Base
  import opened Routing
  import InstallationConfig

  /** The route table. */
  function Routes(): seq<Route> {
    [Route(Root, Some(Hub)), Route(Hub, None), Route(ConfigRoute, None), Route(ProgressRoute, None),
     Route(SettingsRoute, None)]
  }

  /** Whether the move asks for confirmation. */
  predicate Prompts(to: string, from: string) {
    to != from && from == ConfigRoute && to != ProgressRoute
  }

  /** The guard's answer, given the user's answer to the dialog when one is shown. */
  function Decide(to: string, from: string, accept: bool): Outcome {
    if to == from then Approve
    else if Prompts(to, from) && !accept then Deny
    else Approve
  }

  /** Whether the guard resets the store on that move. */
  predicate Resets(to: string, from: string, accept: bool) {
    Decide(to, from, accept) == Approve && to != from && (to == Hub || to == SettingsRoute)
  }

  /** A move to the current route is approved with no prompt and no reset. */
  lemma SameRouteApproved(path: string, accept: bool)
    ensures Decide(path, path, accept) == Approve && !Prompts(path, path) && !Resets(path, path, accept)
  {
  }

  /**
   * Only a move away from the options page, to anywhere but the progress
   * page, prompts; it is denied exactly when the user rejects, and a denied
   * move leaves the store alone.
   */
  lemma PromptRule(to: string, from: string, accept: bool)
    ensures from != ConfigRoute ==> !Prompts(to, from) && Decide(to, from, accept) == Approve
    ensures Decide(to, from, accept) == Deny <==> Prompts(to, from) && !accept
    ensures Decide(to, from, accept) == Deny ==> !Resets(to, from, accept)
    ensures !Decide(to, from, accept).Redirect?
  {
  }

  /** Options → progress goes ahead with no prompt and no reset. */
  lemma ConfigToProgress(accept: bool)
    ensures !Prompts(ProgressRoute, ConfigRoute)
    ensures Decide(ProgressRoute, ConfigRoute, accept) == Approve && !Resets(ProgressRoute, ConfigRoute, accept)
  {
  }

  /** An approved move resets the store exactly when it enters the hub or the settings page. */
  lemma ResetRule(to: string, from: string, accept: bool)
    requires to != from && Decide(to, from, accept) == Approve
    ensures Resets(to, from, accept) <==> to == Hub || to == SettingsRoute
  {
  }

  /** The root redirects to the hub; every other route of the table stays where it is. */
  lemma RoutesResolve(path: string)
    ensures Resolve(Routes(), Root) == Hub
    ensures path != Root ==> Resolve(Routes(), path) == path
  {
  }

  /**
   * The `beforeEach` guard. `prompts` counts the confirmation dialogs
   * opened; the dialog's accept and reject callbacks become `accept`.
   */
  method Guard(store: InstallationConfig.Store, to: string, from: string, accept: bool)
    returns (r: Outcome, prompts: nat)
    modifies store
    ensures r == Decide(to, from, accept)
    ensures prompts == if Prompts(to, from) then 1 else 0
    ensures store.State() == if Resets(to, from, accept) then InstallationConfig.Initial() else old(store.State())
  {
    prompts := 0;
    if to == from {
      return Approve, prompts;
    }
    if from == ConfigRoute && to != ProgressRoute {
      prompts := prompts + 1;
      if !accept {
        return Deny, prompts;
      }
    }
    if to == Hub || to == SettingsRoute {
      store.Reset();
    }
    return Approve, prompts;
  }
}
