/** The route guards: the `useRouteGuard` hook
    (src/router/hooks/useRouteGuard.ts) and the PrivateRoute, PublicRoute
    and RoleRoute components (src/router/guards/). Each reads the auth
    state, which is passed in here. */
module Guards {
  import opened Basics
  import AuthStore

  // ---------------------------------------------------------------------
  // useRouteGuard

  /** The hook's options; a field left `None` takes its default. */
  datatype GuardOptions = GuardOptions(
    requireAuth: Option<bool>, requireRoles: Option<seq<string>>,
    redirectTo: Option<string>, hasOnUnauthorized: bool)

  const DashboardPath := "/dashboard"

  /** What one run of the guard's effect does, in order. */
  datatype GuardEffect =
    | CallOnUnauthorized
    | Navigate(to: string, replace: bool, fromPath: Option<string>)

  function RequireAuth(o: GuardOptions): bool { o.requireAuth.GetOr(false) }

  function RequireRoles(o: GuardOptions): seq<string> { o.requireRoles.GetOr([]) }

  function RedirectTo(o: GuardOptions): string { o.redirectTo.GetOr("/login") }

  function Unauthorized(o: GuardOptions): seq<GuardEffect> {
    if o.hasOnUnauthorized then [CallOnUnauthorized] else []
  }

  /** The effect (useRouteGuard.ts:26-51). */
  function GuardRun(isLoading: bool, isAuthenticated: bool, user: Option<AuthStore.User>,
                    o: GuardOptions, pathname: string): (effects: seq<GuardEffect>)
    ensures isLoading ==> effects == []
    ensures !isLoading && RequireAuth(o) && !isAuthenticated ==>
      effects == Unauthorized(o) + [Navigate(RedirectTo(o), true, Some(pathname))]
    ensures !isLoading && !(RequireAuth(o) && !isAuthenticated) ==>
      effects == (if |RequireRoles(o)| > 0 && user.Some? && user.value.role !in RequireRoles(o)
                  then Unauthorized(o) + [Navigate(DashboardPath, true, None)] else [])
  {
    if isLoading then []
    else if RequireAuth(o) && !isAuthenticated then
      Unauthorized(o) + [Navigate(RedirectTo(o), true, Some(pathname))]
    else if |RequireRoles(o)| > 0 && user.Some? && user.value.role !in RequireRoles(o) then
      Unauthorized(o) + [Navigate(DashboardPath, true, None)]
    else []
  }

  /** The hook's `isAllowed`: roles play no part. */
  function IsAllowed(isAuthenticated: bool, o: GuardOptions): (r: bool)
    ensures r <==> isAuthenticated || !RequireAuth(o)
  {
    isAuthenticated || !RequireAuth(o)
  }

  /** An empty role list never causes a role redirect, and without
      options a signed-out visitor is sent to /login. */
  lemma GuardDefaults(isAuthenticated: bool, user: Option<AuthStore.User>, pathname: string, requireAuth: bool)
    ensures var o := GuardOptions(Some(requireAuth), Some([]), None, false);
      GuardRun(false, isAuthenticated, user, o, pathname) ==
        if requireAuth && !isAuthenticated then [Navigate("/login", true, Some(pathname))] else []
    ensures GuardRun(false, true, user, GuardOptions(None, None, None, true), pathname) == []
  {
  }

  /** The effect calls `onUnauthorized` at most once, and only together with
      a navigation it is followed by. */
  lemma UnauthorizedThenNavigate(isLoading: bool, isAuthenticated: bool, user: Option<AuthStore.User>,
                                 o: GuardOptions, pathname: string)
    ensures var e := GuardRun(isLoading, isAuthenticated, user, o, pathname);
      && |e| <= 2
      && (CallOnUnauthorized in e <==> o.hasOnUnauthorized && e != [])
      && (e != [] ==> e[|e| - 1].Navigate? && e[|e| - 1].replace)
  {
  }

  /** `isAllowed` can hold while the effect redirects for a missing role. */
  lemma AllowedButRedirected(u: AuthStore.User, pathname: string)
    requires u.role != "admin"
    ensures var o := GuardOptions(Some(true), Some(["admin"]), None, false);
      && IsAllowed(true, o)
      && GuardRun(false, true, Some(u), o, pathname) == [Navigate(DashboardPath, true, None)]
  {
  }

  // ---------------------------------------------------------------------
  // The route components

  /** What a guard component renders. `Redirect` is a `<Navigate replace>`. */
  datatype Screen = Loading | Outlet | Redirect(path: string)

  /** PrivateRoute (PrivateRoute.tsx:8-22). */
  function PrivateRoute(isLoading: bool, isAuthenticated: bool, redirectTo: Option<string>): (s: Screen)
    ensures isLoading ==> s == Loading
    ensures !isLoading && isAuthenticated ==> s == Outlet
    ensures !isLoading && !isAuthenticated ==> s == Redirect(redirectTo.GetOr("/login"))
  {
    if isLoading then Loading
    else if isAuthenticated then Outlet
    else Redirect(redirectTo.GetOr("/login"))
  }

  /** PublicRoute (PublicRoute.tsx:9-28). */
  function PublicRoute(isLoading: bool, isAuthenticated: bool, redirectTo: Option<string>,
                       restrictWhenAuthenticated: Option<bool>): (s: Screen)
    ensures isLoading ==> s == Loading
    ensures !isLoading ==>
      (s.Redirect? <==> restrictWhenAuthenticated.GetOr(false) && isAuthenticated)
    ensures s.Redirect? ==> s.path == redirectTo.GetOr("/dashboard")
    ensures !isLoading && !isAuthenticated ==> s == Outlet
  {
    if isLoading then Loading
    else if restrictWhenAuthenticated.GetOr(false) && isAuthenticated then Redirect(redirectTo.GetOr("/dashboard"))
    else Outlet
  }

  /** RoleRoute (RoleRoute.tsx:10-30). */
  function RoleRoute(isLoading: bool, isAuthenticated: bool, user: Option<AuthStore.User>,
                     allowedRoles: seq<string>, redirectTo: Option<string>): (s: Screen)
    ensures isLoading ==> s == Loading
    ensures !isLoading && !isAuthenticated ==> s == Redirect("/login")
    ensures !isLoading && isAuthenticated ==>
      (s == Outlet <==> user.Some? && user.value.role in allowedRoles)
    ensures !isLoading && isAuthenticated && s != Outlet ==> s == Redirect(redirectTo.GetOr("/dashboard"))
  {
    if isLoading then Loading
    else if !isAuthenticated then Redirect("/login")
    else if user.Some? && user.value.role in allowedRoles then Outlet
    else Redirect(redirectTo.GetOr("/dashboard"))
  }

  /** No role list grants access to nobody, and a signed-out visitor is
      sent to /login whatever `redirectTo` says. */
  lemma RoleRouteEdges(user: Option<AuthStore.User>, isAuthenticated: bool, redirectTo: Option<string>)
    ensures RoleRoute(false, isAuthenticated, user, [], redirectTo) != Outlet
    ensures RoleRoute(false, false, user, ["admin"], Some("/elsewhere")) == Redirect("/login")
  {
  }

  /** Only an authenticated, loaded session reaches PrivateRoute's outlet;
      RoleRoute's outlet implies PrivateRoute's. */
  lemma RoleOutletImpliesPrivate(isLoading: bool, isAuthenticated: bool, user: Option<AuthStore.User>,
                                 allowedRoles: seq<string>, redirectTo: Option<string>)
    requires RoleRoute(isLoading, isAuthenticated, user, allowedRoles, redirectTo) == Outlet
    ensures PrivateRoute(isLoading, isAuthenticated, redirectTo) == Outlet
  {
  }
}
