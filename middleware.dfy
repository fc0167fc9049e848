/** The route guard: paths under a fixed list of public prefixes pass
    untouched; every other request passes only with a signed-in user and is
    otherwise redirected to the sign-in page, also when `auth()` throws. */
module Middleware {
  import opened JsValues
  import Auth

  /** The prefixes that are always public. */
  const PublicPaths: seq<string> := [
    "/api/",
    "/_next/",
    "/img/",
    "/favicon.ico",
    "/robots.txt",
    "/sitemap.xml",
    "/signin",
    "/auth/callback"
  ]

  const SignInPath: string := "/signin"

  /** An incoming request: the origin of its URL and its path name. */
  datatype Request = Request(origin: string, pathname: string)

  /** A URL built relative to the request, as `new URL(path, request.url)` does. */
  datatype Url = Url(origin: string, pathname: string)

  /** `NextResponse.next()` or `NextResponse.redirect(url)`. */
  datatype Response = Next | Redirect(location: Url)

  /** How the call to `auth()` ended: it threw, or it returned a user or null. */
  datatype AuthOutcome = AuthThrew | AuthReturned(data: Option<Auth.AuthData>)

  /** `s.startsWith(prefix)`. */
  predicate StartsWith(s: string, prefix: string) {
    prefix <= s
  }

  /** `prefixes.some(p => path.startsWith(p))`, scanning the list in order. */
  function AnyStartsWith(prefixes: seq<string>, path: string): (b: bool)
    ensures b <==> exists i :: 0 <= i < |prefixes| && StartsWith(path, prefixes[i])
  {
    if |prefixes| == 0 then false
    else if StartsWith(path, prefixes[0]) then true
    else
      var rest := AnyStartsWith(prefixes[1..], path);
      assert forall i :: 1 <= i < |prefixes| ==> prefixes[i] == prefixes[1..][i - 1];
      rest
  }

  predicate IsPublic(path: string) {
    AnyStartsWith(PublicPaths, path)
  }

  function SignInUrl(request: Request): Url {
    Url(request.origin, SignInPath)
  }

  /** The `middleware` decision for one request. */
  function Middleware(request: Request, auth: AuthOutcome): (r: Response)
    ensures IsPublic(request.pathname) ==> r == Next
    ensures !IsPublic(request.pathname) ==>
              (r == Next <==> auth.AuthReturned? && auth.data.Some?)
    ensures r == Next || r == Redirect(Url(request.origin, "/signin"))
  {
    if IsPublic(request.pathname) then Next
    else
      match auth
      case AuthThrew => Redirect(SignInUrl(request))
      case AuthReturned(None) => Redirect(SignInUrl(request))
      case AuthReturned(Some(_)) => Next
  }

  /** Whether a prefix list admits a path depends only on which prefixes it
      holds, not on their order or repetition. */
  lemma PublicIgnoresOrder(ps: seq<string>, qs: seq<string>, path: string)
    requires forall p :: p in ps <==> p in qs
    ensures AnyStartsWith(ps, path) == AnyStartsWith(qs, path)
  {
    if AnyStartsWith(ps, path) {
      var i :| 0 <= i < |ps| && StartsWith(path, ps[i]);
      assert ps[i] in qs;
      var j :| 0 <= j < |qs| && qs[j] == ps[i];
    }
    if AnyStartsWith(qs, path) {
      var j :| 0 <= j < |qs| && StartsWith(path, qs[j]);
      assert qs[j] in ps;
      var i :| 0 <= i < |ps| && ps[i] == qs[j];
    }
  }

  /** A public path is decided without looking at the outcome of `auth()`. */
  lemma PublicIgnoresAuth(request: Request, a: AuthOutcome, b: AuthOutcome)
    requires IsPublic(request.pathname)
    ensures Middleware(request, a) == Middleware(request, b) == Next
  {
  }

  /** Matching is a literal prefix test: the sign-in page, anything below it
      and anything merely starting with its name are public; the root and the
      dashboard are not. */
  lemma PrefixExamples()
    ensures IsPublic("/signin") && IsPublic("/signin/x") && IsPublic("/signinfoo")
    ensures !IsPublic("/") && !IsPublic("/dashboard")
  {
    assert StartsWith("/signin", PublicPaths[6]);
    assert StartsWith("/signin/x", PublicPaths[6]);
    assert StartsWith("/signinfoo", PublicPaths[6]);
    forall i | 0 <= i < |PublicPaths|
      ensures !StartsWith("/", PublicPaths[i]) && !StartsWith("/dashboard", PublicPaths[i])
    {
      assert |PublicPaths[i]| > 1 && PublicPaths[i][1] != "/dashboard"[1];
    }
  }

  /** Without a session, the dashboard redirects to the sign-in page on the
      request's own origin, and the sign-in page is reachable whatever
      `auth()` does. */
  lemma GuardScenarios(origin: string, auth: AuthOutcome)
    ensures Middleware(Request(origin, "/dashboard"), AuthReturned(Auth.Auth(None))) ==
              Redirect(Url(origin, "/signin"))
    ensures Middleware(Request(origin, "/"), AuthThrew) == Redirect(Url(origin, "/signin"))
    ensures Middleware(Request(origin, "/signin"), auth) == Next
  {
    PrefixExamples();
  }

  /** The guard asks only whether `auth()` returned a user, never what the
      user's tokens are. So IF the session library still builds a session
      from the `{}` token a failed refresh leaves (which depends on the
      library, not on this code), that session passes the guard: whether such
      a user is sent to sign in is decided by the library alone. */
  lemma ClearedTokenStillPasses(request: Request, session: Auth.Session)
    ensures Middleware(request, AuthReturned(Auth.Auth(Some(Auth.SessionCallback(session, Auth.EmptyJwt))))) == Next
  {
  }
}
