/**
 * What a `vue-router` navigation guard can answer, and the route tables of
 * the three router snapshots.
 */
module Routing {
  import opened Base

  /** `true`, a redirect `{ path }`, or `false`. */
  datatype Outcome = Approve | Redirect(path: string) | Deny

  /** A route record: a path and, for the root, the path it redirects to. */
  datatype Route = Route(path: string, redirect: Option<string>)

  const Root := "/"
  const Hub := "/Installation"
  const HomeRoute := "/Installation/Home"
  const ConfigRoute := "/Installation/Config"
  const ProgressRoute := "/Installation/Progress"
  const AppListRoute := "/AppList"
  const SettingsRoute := "/Settings"
  const AboutRoute := "/About"

  /** The first route with the given path. */
  function Lookup(routes: seq<Route>, path: string): (r: Option<Route>)
    ensures r.Some? ==> r.value in routes && r.value.path == path
    ensures r.None? ==> forall i :: 0 <= i < |routes| ==> routes[i].path != path
  {
    if routes == [] then None
    else if routes[0].path == path then Some(routes[0])
    else Lookup(routes[1..], path)
  }

  /** The paths of a route table. */
  function RoutePaths(routes: seq<Route>): (r: seq<string>)
    ensures |r| == |routes| && forall i :: 0 <= i < |r| ==> r[i] == routes[i].path
  {
    seq(|routes|, i requires 0 <= i < |routes| => routes[i].path)
  }

  /** Where the table sends `path`: its redirect if it has one, else `path` itself. */
  function Resolve(routes: seq<Route>, path: string): string {
    match Lookup(routes, path)
    case Some(Route(_, Some(target))) => target
    case _ => path
  }
}
