/**
  The session gate run before every matched request: anonymous visitors are
  sent to the sign-in page unless the route is public, and signed-in users are
  sent from the sign-in pages to the dashboard.
 */
module SessionMiddleware {
  import opened JsRuntime

  const SignInPath := "/authn"
  const DashboardPath := "/dashboard"

  datatype Decision = Redirect(target: string) | Next

  /** The public routes `'/authn(.*)'` and `'/'`, read as a prefix test and an equality. */
  predicate IsPublicRoute(pathname: string): (r: bool)
    ensures pathname == "/" ==> r
    ensures StartsWith(pathname, SignInPath) ==> r
    ensures r && pathname != "/" ==> |pathname| >= |SignInPath| && pathname[..|SignInPath|] == SignInPath
  {
    StartsWith(pathname, SignInPath) || pathname == "/"
  }

  /** The middleware callback, given the session's `userId` and the request's pathname. */
  function Gate(userId: JsVal, pathname: string): (d: Decision)
    ensures d == Redirect(SignInPath) <==> !Truthy(userId) && !IsPublicRoute(pathname)
    ensures d == Redirect(DashboardPath) <==> Truthy(userId) && StartsWith(pathname, SignInPath)
    ensures d.Redirect? ==> d.target == SignInPath || d.target == DashboardPath
    ensures d == Next <==>
      (!Truthy(userId) && IsPublicRoute(pathname)) ||
      (Truthy(userId) && !StartsWith(pathname, SignInPath))
  {
    if !Truthy(userId) && !IsPublicRoute(pathname) then Redirect(SignInPath)
    else if Truthy(userId) && IsPublicRoute(pathname) && StartsWith(pathname, SignInPath) then
      Redirect(DashboardPath)
    else Next
  }

  /** A signed-in user on the root page and an anonymous user on any public page pass through. */
  lemma PublicPagesPass(userId: JsVal, pathname: string)
    ensures Gate(userId, "/") == Next
    ensures !Truthy(userId) && IsPublicRoute(pathname) ==> Gate(userId, pathname) == Next
  {
  }

  /**
    No redirect loop: following a redirect with the same session lands on a
    page the gate lets through.
   */
  lemma RedirectTargetPasses(userId: JsVal, pathname: string)
    ensures Gate(userId, pathname).Redirect? ==>
      Gate(userId, Gate(userId, pathname).target) == Next
  {
    var d := Gate(userId, pathname);
    if d == Redirect(SignInPath) {
      assert StartsWith(SignInPath, SignInPath);
    } else if d == Redirect(DashboardPath) {
      assert !StartsWith(DashboardPath, SignInPath) by {
        assert DashboardPath[..|SignInPath|][1] != SignInPath[1];
      }
    }
  }
}
