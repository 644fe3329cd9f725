/** The route guard that runs before every page request (src/middleware.ts).
    It classifies the path and looks only at whether a `token` cookie is present;
    the token itself is never verified here. */
module RouteGuard {
  import opened Js

  /** Routes that require a session: matched by prefix. */
  const ProtectedRoutes: seq<string> := ["/dashboard"]

  /** Routes that send a logged-in user to the dashboard: matched exactly. */
  const AuthRoutes: seq<string> := ["/login", "/register"]

  const LoginPath := "/login"
  const DashboardPath := "/dashboard"

  /** What the guard does with a request. */
  datatype Decision =
    | Next                               // NextResponse.next(): the request is unchanged
    | RedirectToLogin(redirect: string)  // to /login with ?redirect=<original pathname>
    | RedirectToDashboard                // to /dashboard

  /** `routes.some(route => path.startsWith(route))`. */
  function SomePrefix(routes: seq<string>, path: string): bool {
    if routes == [] then false else StartsWith(path, routes[0]) || SomePrefix(routes[1..], path)
  }

  /** `routes.some(route => path === route)`. */
  function SomeEqual(routes: seq<string>, path: string): bool {
    if routes == [] then false else path == routes[0] || SomeEqual(routes[1..], path)
  }

  /** `!token` is false: a cookie is present and is not the empty string. */
  predicate HasToken(token: Option<string>) {
    Truthy(token)
  }

  predicate IsProtectedRoute(pathname: string) {
    SomePrefix(ProtectedRoutes, pathname)
  }

  predicate IsAuthRoute(pathname: string) {
    SomeEqual(AuthRoutes, pathname)
  }

  /** The guard itself. `token` is the value of the `token` cookie, if any. Its contract
      is the full decision table, stated over the path text and the cookie. */
  function Middleware(pathname: string, token: Option<string>): (r: Decision)
    ensures r.RedirectToLogin? <==> StartsWith(pathname, "/dashboard") && !Truthy(token)
    ensures r.RedirectToLogin? ==> r.redirect == pathname
    ensures r == RedirectToDashboard <==>
              (pathname == "/login" || pathname == "/register") && Truthy(token)
    ensures r == Next <==>
              !(StartsWith(pathname, "/dashboard") && !Truthy(token)) &&
              !((pathname == "/login" || pathname == "/register") && Truthy(token))
  {
    Classification(pathname);
    ProtectedAndAuthAreDisjoint(pathname);
    if IsProtectedRoute(pathname) && !HasToken(token) then
      RedirectToLogin(pathname)
    else if IsAuthRoute(pathname) && HasToken(token) then
      RedirectToDashboard
    else
      Next
  }

  /** `some` with a prefix test holds exactly when one of the routes is a prefix. */
  lemma {:induction false} SomePrefixSpec(routes: seq<string>, path: string)
    ensures SomePrefix(routes, path) <==> exists i :: 0 <= i < |routes| && StartsWith(path, routes[i])
  {
    if routes != [] {
      SomePrefixSpec(routes[1..], path);
      if SomePrefix(routes[1..], path) {
        var i :| 0 <= i < |routes[1..]| && StartsWith(path, routes[1..][i]);
        assert StartsWith(path, routes[i + 1]);
      }
      if exists i :: 0 <= i < |routes| && StartsWith(path, routes[i]) {
        var i :| 0 <= i < |routes| && StartsWith(path, routes[i]);
        if i > 0 {
          assert routes[1..][i - 1] == routes[i];
        }
      }
    }
  }

  /** `some` with an equality test holds exactly when the path is one of the routes. */
  lemma {:induction false} SomeEqualSpec(routes: seq<string>, path: string)
    ensures SomeEqual(routes, path) <==> path in routes
  {
    if routes != [] {
      SomeEqualSpec(routes[1..], path);
      assert routes == [routes[0]] + routes[1..];
    }
  }

  /** The classification in plain terms: protected means "starts with /dashboard",
      auth means "is exactly /login or /register". */
  lemma Classification(pathname: string)
    ensures IsProtectedRoute(pathname) <==> StartsWith(pathname, "/dashboard")
    ensures IsAuthRoute(pathname) <==> pathname == "/login" || pathname == "/register"
  {
    SomePrefixSpec(ProtectedRoutes, pathname);
    SomeEqualSpec(AuthRoutes, pathname);
  }

  /** No path is both protected and an auth route, so the two redirects never compete
      and the order of the two tests does not matter. */
  lemma ProtectedAndAuthAreDisjoint(pathname: string)
    ensures !(IsProtectedRoute(pathname) && IsAuthRoute(pathname))
  {
    Classification(pathname);
    if pathname == "/login" {
      assert pathname[1] != "/dashboard"[1];
    } else if pathname == "/register" {
      assert pathname[1] != "/dashboard"[1];
    }
  }

  /** A protected path without a token goes to the login page, which is told where to return. */
  lemma ProtectedWithoutTokenGoesToLogin(pathname: string, token: Option<string>)
    requires StartsWith(pathname, "/dashboard") && !Truthy(token)
    ensures Middleware(pathname, token) == RedirectToLogin(pathname)
  {
    Classification(pathname);
  }

  /** A logged-in user asking for /login or /register is sent to the dashboard. */
  lemma AuthRouteWithTokenGoesToDashboard(pathname: string, token: Option<string>)
    requires pathname == "/login" || pathname == "/register"
    requires Truthy(token)
    ensures Middleware(pathname, token) == RedirectToDashboard
  {
  }

  /** With a token present a protected path is never redirected to login: any non-empty
      cookie value passes, verified or not. */
  lemma TokenIsNeverVerified(pathname: string, v: string, w: string)
    requires v != "" && w != ""
    ensures !Middleware(pathname, Some(v)).RedirectToLogin?
    ensures Middleware(pathname, Some(v)) == Middleware(pathname, Some(w))
  {
  }

  /** An empty cookie value counts as no cookie at all. */
  lemma EmptyTokenIsNoToken(pathname: string)
    ensures Middleware(pathname, Some("")) == Middleware(pathname, None)
  {
  }

  /** Auth routes match exactly and protected routes by prefix: /login/x is not an
      auth route, while /dashboard-anything is protected. */
  lemma MatchingIsExactAndPrefix()
    ensures !IsAuthRoute("/login/x") && !IsProtectedRoute("/login/x")
    ensures Middleware("/login/x", Some("t")) == Next
    ensures IsProtectedRoute("/dashboard-anything")
    ensures Middleware("/dashboard-anything", None) == RedirectToLogin("/dashboard-anything")
  {
    Classification("/login/x");
    assert "/login/x"[1] != "/dashboard"[1];
    Classification("/dashboard-anything");
    assert "/dashboard-anything"[..10] == "/dashboard";
  }
}
