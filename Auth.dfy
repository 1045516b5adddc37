/** The dashboard's password gate: the login route issues an `auth=true`
    cookie when the submitted password equals the configured one, and the
    middleware sends any `/dashboard` request without that exact cookie back
    to the home page. */
module Auth {
  import opened Schema

  /** A cookie as the login route sets it. */
  datatype Cookie = Cookie(name: string, value: string, httpOnly: bool, secure: bool,
                           sameSite: string, maxAge: int)

  /** The login route's answer: status, `success` flag and cookie, if any. */
  datatype LoginReply = LoginReply(status: int, success: bool, cookie: Option<Cookie>)

  /** The cookie a successful login sets: valid for an hour, hidden from
      scripts, HTTPS only, never sent cross-site. */
  const SessionCookie: Cookie := Cookie("auth", "true", true, true, "strict", 3600)

  /** `POST /api/auth`: `password === process.env.DASHBOARD_PASSWORD`, where
      an absent field and an unset variable are both `None`. */
  function Login(password: Option<string>, configured: Option<string>): (r: LoginReply)
    ensures r.success <==> password == configured
    ensures r.success ==> r.status == 200 && r.cookie == Some(SessionCookie)
    ensures !r.success ==> r.status == 401 && r.cookie.None?
  {
    if password == configured then LoginReply(200, true, Some(SessionCookie))
    else LoginReply(401, false, None)
  }

  /** What the middleware does with a request. */
  datatype Decision = Next | RedirectHome

  predicate StartsWith(s: string, prefix: string) {
    |prefix| <= |s| && s[..|prefix|] == prefix
  }

  const DashboardPrefix: string := "/dashboard"

  /** The middleware body, on the path and the `auth` cookie's value. */
  function Guard(path: string, auth: Option<string>): (d: Decision)
    ensures auth == Some("true") ==> d == Next
    ensures d == RedirectHome <==> StartsWith(path, DashboardPrefix) && auth != Some("true")
  {
    if StartsWith(path, DashboardPrefix) && auth != Some("true") then RedirectHome else Next
  }

  /** The matcher `/dashboard/:path*`: the dashboard itself or anything below it. */
  predicate Matched(path: string) {
    path == DashboardPrefix || StartsWith(path, DashboardPrefix + "/")
  }

  /** A request as the site handles it: the middleware runs only on matched paths. */
  function Middleware(path: string, auth: Option<string>): (d: Decision)
    ensures auth == Some("true") ==> d == Next
    ensures !StartsWith(path, DashboardPrefix) ==> d == Next
  {
    if Matched(path) then Guard(path, auth) else Next
  }

  // ----------------------------------------------------------- properties

  /** A matched path is redirected exactly when the cookie is not exactly
      `true` (missing, or any other value); every other path passes. */
  lemma MiddlewareDecision(path: string, auth: Option<string>)
    ensures Middleware(path, auth) == RedirectHome <==> Matched(path) && auth != Some("true")
  {
    if Matched(path) && path != DashboardPrefix {
      assert (DashboardPrefix + "/")[..|DashboardPrefix|] == DashboardPrefix;
      assert path[..|DashboardPrefix|] == path[..|DashboardPrefix| + 1][..|DashboardPrefix|];
    }
  }

  /** The cookie a successful login sets opens every dashboard path. */
  lemma LoginCookieAdmits(password: Option<string>, configured: Option<string>, path: string)
    requires password == configured
    ensures Login(password, configured).cookie.Some?
    ensures Middleware(path, Some(Login(password, configured).cookie.value.value)) == Next
    ensures Login(password, configured).cookie.value.name == "auth"
  {
  }

  /** A failed login sets no cookie, so a browser without one stays locked out. */
  lemma FailedLoginLocksOut(password: Option<string>, configured: Option<string>, path: string)
    requires password != configured && Matched(path)
    ensures Login(password, configured).cookie.None?
    ensures Middleware(path, None) == RedirectHome
  {
    MiddlewareDecision(path, None);
  }

  /** With no password configured, a login body without a password field
      is accepted. */
  lemma UnsetPasswordAcceptsEmptyBody()
    ensures Login(None, None).success
    ensures !Login(Some(""), None).success
  {
  }

  /** The guard tests a bare prefix, so on its own it would also catch
      `/dashboards`; the matcher keeps the middleware off such paths. */
  lemma PrefixWiderThanMatcher()
    ensures Guard("/dashboards", None) == RedirectHome
    ensures Middleware("/dashboards", None) == Next
  {
    assert "/dashboards"[..|DashboardPrefix|] == DashboardPrefix;
    assert "/dashboards"[10] == 's' && (DashboardPrefix + "/")[10] == '/';
  }
}
