/**
 * The route tables of utils/auth.ts and `hasRouteAccess`.
 *
 * A route "matches" a pathname when they are equal or the pathname starts
 * with the route, exactly as the `.some(...)` callbacks in the source do.
 * Because `'/'` is itself a public route, every pathname that begins with
 * `'/'` is public, and `hasRouteAccess` only ever depends on the role for
 * pathnames that do not.
 */
module Routes {
  import opened Wrappers
  import opened Roles

  /** `PROTECTED_ROUTES`. */
  const ProtectedRoutes: seq<string> := ["/dashboard", "/dashboard/article", "/dashboard/editor", "/api/admin"]

  /** `PUBLIC_ROUTES`. */
  const PublicRoutes: seq<string> := ["/", "/api/auth", "/login"]

  /** JavaScript's `s.startsWith(prefix)`. */
  predicate StartsWith(s: string, prefix: string) {
    prefix <= s
  }

  /** One `.some` callback: `pathname === route || pathname.startsWith(route)`. */
  predicate Matches(pathname: string, route: string) {
    pathname == route || StartsWith(pathname, route)
  }

  /** `routes.some(route => Matches(pathname, route))`, scanning left to right. */
  function AnyMatch(pathname: string, routes: seq<string>): (r: bool)
    ensures r <==> exists i :: 0 <= i < |routes| && Matches(pathname, routes[i])
  {
    if |routes| == 0 then false
    else if Matches(pathname, routes[0]) then true
    else
      AnyMatch(pathname, routes[1..])
  }

  /** The pathname is one the public table lets through. */
  predicate IsPublic(pathname: string)
    ensures IsPublic(pathname) <==> StartsWith(pathname, "/")
  {
    AnyMatch(pathname, PublicRoutes)
  }

  /**
   * `hasRouteAccess`: the public check first, then the protected check,
   * then the default; both later branches answer "is the role non-null".
   * What this amounts to: access is granted exactly when the pathname
   * begins with `'/'` or the role is not null.
   */
  function HasRouteAccess(pathname: string, role: UserRole): (r: bool)
    ensures r <==> StartsWith(pathname, "/") || role.Some?
    ensures IsPublic(pathname) ==> r
  {
    if IsPublic(pathname) then true
    else if AnyMatch(pathname, ProtectedRoutes) then role.Some?
    else role.Some?
  }

  /** A pathname is public exactly when it begins with `'/'`. */
  lemma PublicIffSlash(pathname: string)
    ensures IsPublic(pathname) <==> StartsWith(pathname, "/")
  {
  }

  /** A public pathname is open to every role, `null` included. */
  lemma PublicOpenToEveryRole(pathname: string, role: UserRole)
    requires IsPublic(pathname)
    ensures HasRouteAccess(pathname, role)
  {
  }

  /** Every `'/'`-leading pathname is accessible whatever the role: `hasRouteAccess` is constant there. */
  lemma SlashPathsAlwaysAccessible(pathname: string, role: UserRole)
    requires StartsWith(pathname, "/")
    ensures HasRouteAccess(pathname, role)
    ensures HasRouteAccess(pathname, role) == HasRouteAccess(pathname, None)
  {
  }

  /** Off the public table the answer is `role != null`, whether or not a protected route matches. */
  lemma NonPublicNeedsRole(pathname: string, role: UserRole)
    requires !IsPublic(pathname)
    ensures HasRouteAccess(pathname, role) <==> role.Some?
    ensures AnyMatch(pathname, ProtectedRoutes) ==> (HasRouteAccess(pathname, role) <==> role.Some?)
  {
  }

  /** Every protected route is also matched by the public route `'/'`: the tables overlap. */
  lemma ProtectedRoutesArePublic()
    ensures forall i :: 0 <= i < |ProtectedRoutes| ==> IsPublic(ProtectedRoutes[i])
  {
  }
}
