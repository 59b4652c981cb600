/** The Next.js middleware that runs before every page its matcher selects:
    it sends visitors without a session to the login page and signed-in
    visitors away from the login and registration pages. API routes, Next.js
    assets and the favicon bypass it. */
module RouteGuard {
  import opened Wrappers
  import opened Text

  const LoginPath: string := "/login"
  const RegisterPath: string := "/register"
  const DashboardPath: string := "/dashboard"

  /** Pages reachable without a session. */
  const PublicPaths: seq<string> := [LoginPath, RegisterPath]

  const SessionCookie: string := "session_token"

  /** The parts of a request the middleware reads: the path and the cookie jar. */
  datatype Request = Request(pathname: string, cookies: map<string, string>)

  /** `NextResponse.next()` or `NextResponse.redirect` to a path on the same origin. */
  datatype Response = Next | Redirect(location: string)

  /** The beginnings of a path, after its leading "/", that the matcher's
      negative lookahead excludes. */
  const ExcludedPrefixes: seq<string> := ["api", "_next/static", "_next/image"]

  /** The matcher's `favicon.ico` is a regular expression, so its dot stands
      for any one character. */
  predicate FaviconLike(rest: string) {
    |rest| >= 11 && rest[..7] == "favicon" && rest[8..11] == "ico"
  }

  /** `config.matcher`: the path is "/" followed by anything that does not
      begin with an excluded prefix or the favicon pattern. */
  predicate Matched(pathname: string) {
    && pathname != []
    && pathname[0] == '/'
    && (forall p | p in ExcludedPrefixes :: !StartsWith(pathname[1..], p))
    && !FaviconLike(pathname[1..])
  }

  /** A path is public when it starts with one of the public paths; this is a
      prefix test, so "/login-help" and "/registered" are public too. */
  predicate IsPublicPath(pathname: string) {
    exists path | path in PublicPaths :: StartsWith(pathname, path)
  }

  /** The session cookie's value, if the cookie is set. */
  function SessionToken(req: Request): Option<string> {
    if SessionCookie in req.cookies then Some(req.cookies[SessionCookie]) else None
  }

  /** A token is present only when the cookie is set to a non-empty value. */
  predicate HasToken(req: Request) {
    SessionToken(req).GetOr("") != ""
  }

  /** The middleware as deployed: requests the matcher does not select pass
      untouched. */
  function Middleware(req: Request): (r: Response)
    ensures !Matched(req.pathname) ==> r == Next
    ensures r == Redirect(LoginPath) <==>
      Matched(req.pathname) && !IsPublicPath(req.pathname) && !HasToken(req)
    ensures r == Redirect(DashboardPath) <==>
      Matched(req.pathname) && IsPublicPath(req.pathname) && HasToken(req)
    ensures r == Next <==>
      !Matched(req.pathname) || (IsPublicPath(req.pathname) <==> !HasToken(req))
  {
    if !Matched(req.pathname) then Next
    else
      var isPublic := IsPublicPath(req.pathname);
      var token := HasToken(req);
      if !isPublic && !token then Redirect(LoginPath)
      else if isPublic && token then Redirect(DashboardPath)
      else Next
  }

  /** The matcher skips exactly the paths beginning with "/api",
      "/_next/static", "/_next/image" or "/favicon?ico" (any character at "?"),
      and anything not starting with "/". */
  lemma MatchedIff(pathname: string)
    ensures Matched(pathname) <==>
      && StartsWith(pathname, "/")
      && !StartsWith(pathname, "/api")
      && !StartsWith(pathname, "/_next/static")
      && !StartsWith(pathname, "/_next/image")
      && !(|pathname| >= 12 && pathname[1..8] == "favicon" && pathname[9..12] == "ico")
  {
    assert ExcludedPrefixes[0] == "api" && ExcludedPrefixes[1] == "_next/static"
      && ExcludedPrefixes[2] == "_next/image";
    if pathname != [] && pathname[0] == '/' {
      var rest := pathname[1..];
      assert pathname == "/" + rest;
      PrefixUnderSlash(rest, "api");
      PrefixUnderSlash(rest, "_next/static");
      PrefixUnderSlash(rest, "_next/image");
      assert "/" + "api" == "/api" && "/" + "_next/static" == "/_next/static"
        && "/" + "_next/image" == "/_next/image";
      assert (forall p | p in ExcludedPrefixes :: !StartsWith(rest, p)) <==>
        !StartsWith(rest, "api") && !StartsWith(rest, "_next/static") && !StartsWith(rest, "_next/image");
      if |pathname| >= 12 {
        assert rest[..7] == pathname[1..8] && rest[8..11] == pathname[9..12];
      }
    }
  }

  lemma PrefixUnderSlash(rest: string, p: string)
    ensures p <= rest <==> "/" + p <= "/" + rest
  {
    if "/" + p <= "/" + rest {
      assert forall i | 0 <= i < |p| :: p[i] == ("/" + p)[i + 1];
    }
  }

  /** API routes bypass the guard whatever the cookies say. */
  lemma ApiBypassesGuard(rest: string, cookies: map<string, string>)
    ensures Middleware(Request("/api" + rest, cookies)) == Next
  {
    MatchedIff("/api" + rest);
    assert ("/api" + rest)[..4] == "/api";
  }

  lemma PagesAreMatched()
    ensures Matched(LoginPath) && Matched(DashboardPath)
  {
    MatchedIff(LoginPath);
    MatchedIff(DashboardPath);
    assert LoginPath[1] == 'l' && DashboardPath[1] == 'd';
  }

  /** The public paths are exactly the prefixes "/login" and "/register". */
  lemma PublicPathIff(pathname: string)
    ensures IsPublicPath(pathname) <==> StartsWith(pathname, "/login") || StartsWith(pathname, "/register")
  {
    assert PublicPaths[0] == "/login" && PublicPaths[1] == "/register";
  }

  lemma LoginIsPublic()
    ensures IsPublicPath(LoginPath)
  {
    assert LoginPath in PublicPaths && StartsWith(LoginPath, LoginPath);
  }

  lemma DashboardIsNotPublic()
    ensures !IsPublicPath(DashboardPath)
  {
    assert DashboardPath[1] == 'd';
    assert LoginPath[1] == 'l' && RegisterPath[1] == 'r';
    PublicPathIff(DashboardPath);
  }

  /** Following a redirect never redirects again: the browser repeats the
      request at the new location with the same cookies, and that request passes. */
  lemma {:induction false} NoRedirectLoop(req: Request)
    ensures Middleware(req).Redirect? ==>
      Middleware(req.(pathname := Middleware(req).location)) == Next
  {
    PagesAreMatched();
    LoginIsPublic();
    DashboardIsNotPublic();
  }

  /** The only places the middleware redirects to are the login page and the dashboard. */
  lemma RedirectTargets(req: Request)
    ensures Middleware(req).Redirect? ==>
      Middleware(req).location == LoginPath || Middleware(req).location == DashboardPath
  {
  }

  /** The decision depends on the path and on whether a token is present, never
      on the token's content or on other cookies. */
  lemma TokenContentIgnored(a: Request, b: Request)
    requires a.pathname == b.pathname
    requires HasToken(a) == HasToken(b)
    ensures Middleware(a) == Middleware(b)
  {
  }

  /** A session cookie set to the empty string counts as no cookie at all. */
  lemma EmptyCookieIsNoToken(pathname: string, cookies: map<string, string>)
    ensures Middleware(Request(pathname, cookies[SessionCookie := ""]))
         == Middleware(Request(pathname, cookies - {SessionCookie}))
  {
  }
}
