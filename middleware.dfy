/** The access guard run before every request: a routing decision from the
    path and whether a session is present. */
module Middleware {
  import opened Strings
  import Session

  const ProtectedRoutes: seq<string> := ["/dashboard", "/events", "/calendar", "/prospects", "/sales-funnel", "/payments", "/financials"]
  const LoginPath := "/login"
  const DashboardPath := "/dashboard"

  datatype Decision = Next | RedirectToLogin(redirectedFrom: string) | RedirectToDashboard

  /** Framework assets, API routes and images skip the guard. */
  predicate IsBypassed(pathname: string) {
    || StartsWith(pathname, "/_next/")
    || StartsWith(pathname, "/api/")
    || StartsWith(pathname, "/static/")
    || EndsWith(pathname, ".ico")
    || EndsWith(pathname, ".png")
    || EndsWith(pathname, ".jpg")
  }

  /** `routes.some((route) => pathname.startsWith(route))` */
  function SomePrefix(routes: seq<string>, pathname: string): (b: bool)
    ensures b <==> exists i :: 0 <= i < |routes| && StartsWith(pathname, routes[i])
    decreases |routes|
  {
    if routes == [] then false
    else StartsWith(pathname, routes[0]) || SomePrefix(routes[1..], pathname)
  }

  /** A path is protected when a protected route is a prefix of it. */
  predicate IsProtected(pathname: string) {
    SomePrefix(ProtectedRoutes, pathname)
  }

  /** `middleware`, once the session has been read. */
  function Guard(pathname: string, hasSession: bool): (d: Decision)
    ensures IsBypassed(pathname) ==> d == Next
    ensures d.RedirectToLogin? <==> (!IsBypassed(pathname) && !hasSession && exists r :: r in ProtectedRoutes && StartsWith(pathname, r))
    ensures d.RedirectToLogin? ==> d.redirectedFrom == pathname
    ensures d == RedirectToDashboard <==> !IsBypassed(pathname) && hasSession && pathname == LoginPath
  {
    if IsBypassed(pathname) then Next
    else if !hasSession && IsProtected(pathname) then RedirectToLogin(pathname)
    else if hasSession && pathname == LoginPath then RedirectToDashboard
    else Next
  }

  /** The path a redirect sends the browser to. */
  function Target(d: Decision): string
    requires d != Next
  {
    match d
    case RedirectToLogin(_) => LoginPath
    case RedirectToDashboard => DashboardPath
  }

  /** No redirect loop: the guard passes its own redirect target through, for
      the same session state that caused the redirect. */
  lemma RedirectTargetPasses(pathname: string, hasSession: bool)
    requires Guard(pathname, hasSession) != Next
    ensures Guard(Target(Guard(pathname, hasSession)), hasSession) == Next
  {
    UnprotectedByShape(LoginPath);
  }

  /** A path that differs from every protected route at its second or
      third character is not protected. */
  lemma UnprotectedByShape(pathname: string)
    requires |pathname| >= 3
    requires forall r :: r in ProtectedRoutes ==> pathname[1] != r[1] || pathname[2] != r[2]
    ensures !IsProtected(pathname)
  {
    forall i | 0 <= i < |ProtectedRoutes| ensures !StartsWith(pathname, ProtectedRoutes[i]) {
      assert ProtectedRoutes[i] in ProtectedRoutes;
    }
  }

  /** A path whose characters rule out each bypass prefix and suffix is
      not bypassed. */
  lemma NotBypassedByShape(pathname: string)
    requires |pathname| >= 6
    requires pathname[1] != '_' && pathname[4] != '/'
    requires |pathname| >= 8 ==> pathname[6] != 'c'
    requires pathname[|pathname| - 1] != 'o' && pathname[|pathname| - 1] != 'g'
    ensures !IsBypassed(pathname)
  {
  }

  /** Prefix matching makes `/eventsX` protected, and a sub-path of a
      protected route redirects to login without a session. */
  lemma PrefixMatchExamples()
    ensures IsProtected("/eventsX")
    ensures Guard("/events/42", false) == RedirectToLogin("/events/42")
  {
    assert StartsWith("/eventsX", ProtectedRoutes[1]);
    assert StartsWith("/events/42", ProtectedRoutes[1]);
    assert !IsBypassed("/events/42") by { NotBypassedByShape("/events/42"); }
  }

  /** `/appointments` and `/settings` are not in the protected list, so
      they pass through without a session. */
  lemma AppointmentsPass()
    ensures Guard("/appointments", false) == Next
  {
    assert !IsProtected("/appointments") by { UnprotectedByShape("/appointments"); }
    assert !IsBypassed("/appointments") by { NotBypassedByShape("/appointments"); }
  }

  lemma SettingsPass()
    ensures Guard("/settings", false) == Next
  {
    assert !IsProtected("/settings") by { UnprotectedByShape("/settings"); }
    assert !IsBypassed("/settings") by { NotBypassedByShape("/settings"); }
  }

  /** The route matcher (`config.matcher`) keeps paths under `/api`,
      `/_next/static`, `/_next/image` and `/favicon.ico` away from the guard;
      the guard would have passed them through anyway. */
  lemma MatcherExclusionsPass(pathname: string, hasSession: bool)
    requires || StartsWith(pathname, "/api") || StartsWith(pathname, "/_next/static")
             || StartsWith(pathname, "/_next/image") || StartsWith(pathname, "/favicon.ico")
    ensures Guard(pathname, hasSession) == Next
  {
    assert pathname[1] == 'a' || pathname[1] == '_' || (pathname[1] == 'f' && pathname[2] == 'a');
    assert !IsProtected(pathname) by { UnprotectedByShape(pathname); }
    assert pathname != LoginPath by { assert LoginPath[1] == 'l'; }
  }

  /** The request path: the guard reads the session (which may delete a stale
      cookie) only for paths it does not bypass. */
  method HandleRequest(jar: Session.CookieJar, pathname: string, now: int) returns (d: Decision)
    modifies jar
    ensures d == Guard(pathname, Session.CurrentSession(old(jar.session), jar.secret, now).Some?)
    ensures IsBypassed(pathname) ==> jar.session == old(jar.session)
    ensures !IsBypassed(pathname) ==> jar.session == Session.CookieAfterRead(old(jar.session), jar.secret, now)
  {
    if IsBypassed(pathname) {
      return Next;
    }
    var session := jar.GetSession(now);
    var isProtected := IsProtected(pathname);
    if session.None? && isProtected {
      return RedirectToLogin(pathname);
    }
    if session.Some? && pathname == LoginPath {
      return RedirectToDashboard;
    }
    return Next;
  }
}
