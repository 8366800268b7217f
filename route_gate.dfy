/**
 * The request gate that runs before every matched page request: a pure decision
 * from the request path and the presence of a session to "let through",
 * "redirect to login, remembering where the visitor was going" or "redirect to
 * the profile page". Beside it, the matcher that decides which paths reach the
 * gate at all.
 */
module RouteGate {

  datatype Decision = Allow | RedirectToLogin(callbackUrl: string) | RedirectToProfile

  const ProtectedRoutes: seq<string> := ["/profile"]
  const AuthRoutes: seq<string> := ["/login", "/signup"]
  /** Declared beside the other two lists but never consulted by the gate. */
  const PublicRoutes: seq<string> := ["/", "/api/auth"]

  const LoginPath: string := "/login"
  const ProfilePath: string := "/profile"

  /** `s.startsWith(prefix)`. */
  predicate StartsWith(s: string, prefix: string) {
    prefix <= s
  }

  /** `routes.some(route => path.startsWith(route))`. */
  function MatchesAny(routes: seq<string>, path: string): (b: bool)
    ensures b <==> exists i :: 0 <= i < |routes| && StartsWith(path, routes[i])
  {
    if routes == [] then false
    else StartsWith(path, routes[0]) || MatchesAny(routes[1..], path)
  }

  /** The gate's rule for any two route lists: the protected check is tried first. */
  function Gate(protectedRoutes: seq<string>, authRoutes: seq<string>, path: string, hasSession: bool): Decision {
    if MatchesAny(protectedRoutes, path) && !hasSession then RedirectToLogin(path)
    else if MatchesAny(authRoutes, path) && hasSession then RedirectToProfile
    else Allow
  }

  /** `middleware`: the gate with the application's route lists. */
  function Middleware(path: string, hasSession: bool): Decision {
    Gate(ProtectedRoutes, AuthRoutes, path, hasSession)
  }

  predicate IsProtectedRoute(path: string) {
    MatchesAny(ProtectedRoutes, path)
  }

  predicate IsAuthRoute(path: string) {
    MatchesAny(AuthRoutes, path)
  }

  /** The path a decision sends the browser to, if it redirects. */
  function Target(d: Decision): (p: string)
    requires d != Allow
    ensures d.RedirectToLogin? ==> IsAuthRoute(p) && !IsProtectedRoute(p)
    ensures d.RedirectToProfile? ==> IsProtectedRoute(p) && !IsAuthRoute(p)
  {
    if d.RedirectToLogin? then
      assert !StartsWith(LoginPath, ProtectedRoutes[0]) by { assert LoginPath[1] != ProtectedRoutes[0][1]; }
      LoginPath
    else
      assert !StartsWith(ProfilePath, AuthRoutes[0]) by { assert ProfilePath[1] != AuthRoutes[0][1]; }
      assert !StartsWith(ProfilePath, AuthRoutes[1]) by { assert ProfilePath[1] != AuthRoutes[1][1]; }
      ProfilePath
  }

  /**
   * Precedence for arbitrary route lists, even overlapping ones: the first rule
   * that fires decides, and nothing else redirects.
   */
  lemma GatePrecedence(protectedRoutes: seq<string>, authRoutes: seq<string>, path: string, hasSession: bool)
    ensures var d := Gate(protectedRoutes, authRoutes, path, hasSession);
      && (d.RedirectToLogin? <==> (exists i :: 0 <= i < |protectedRoutes| && StartsWith(path, protectedRoutes[i])) && !hasSession)
      && (d.RedirectToLogin? ==> d.callbackUrl == path)
      && (d.RedirectToProfile? <==> (exists i :: 0 <= i < |authRoutes| && StartsWith(path, authRoutes[i])) && hasSession)
  {
  }

  /** The protected list is exactly the `/profile` prefix. */
  lemma ProtectedRouteIff(path: string)
    ensures IsProtectedRoute(path) <==> StartsWith(path, "/profile")
  {
    if StartsWith(path, "/profile") {
      assert StartsWith(path, ProtectedRoutes[0]);
    }
  }

  /** The auth-only list is exactly the `/login` and `/signup` prefixes. */
  lemma AuthRouteIff(path: string)
    ensures IsAuthRoute(path) <==> StartsWith(path, "/login") || StartsWith(path, "/signup")
  {
    if StartsWith(path, "/login") {
      assert StartsWith(path, AuthRoutes[0]);
    }
    if StartsWith(path, "/signup") {
      assert StartsWith(path, AuthRoutes[1]);
    }
  }

  /** With the application's lists no path is both protected and auth-only. */
  lemma RouteClassesDisjoint(path: string)
    ensures !(IsProtectedRoute(path) && IsAuthRoute(path))
  {
    ProtectedRouteIff(path);
    AuthRouteIff(path);
    if StartsWith(path, "/profile") {
      assert path[1] == 'p';
      assert !StartsWith(path, "/login") by { assert "/login"[1] == 'l'; }
      assert !StartsWith(path, "/signup") by { assert "/signup"[1] == 's'; }
    }
  }

  /** A protected path without a session goes to login, carrying the original path. */
  lemma ProtectedWithoutSession(path: string)
    requires StartsWith(path, "/profile")
    ensures Middleware(path, false) == RedirectToLogin(path)
  {
    ProtectedRouteIff(path);
  }

  /** A protected path with a session is let through. */
  lemma ProtectedWithSession(path: string)
    requires StartsWith(path, "/profile")
    ensures Middleware(path, true) == Allow
  {
    ProtectedRouteIff(path);
    RouteClassesDisjoint(path);
  }

  /** A login or signup path with a session goes to the profile page. */
  lemma AuthWithSession(path: string)
    requires StartsWith(path, "/login") || StartsWith(path, "/signup")
    ensures Middleware(path, true) == RedirectToProfile
  {
    AuthRouteIff(path);
  }

  /** A login or signup path without a session is let through. */
  lemma AuthWithoutSession(path: string)
    requires StartsWith(path, "/login") || StartsWith(path, "/signup")
    ensures Middleware(path, false) == Allow
  {
    AuthRouteIff(path);
    RouteClassesDisjoint(path);
  }

  /** A path under neither list is let through whatever the session. */
  lemma UnclassifiedAllowed(path: string, hasSession: bool)
    requires !StartsWith(path, "/profile")
    requires !StartsWith(path, "/login") && !StartsWith(path, "/signup")
    ensures Middleware(path, hasSession) == Allow
  {
    ProtectedRouteIff(path);
    AuthRouteIff(path);
  }

  /**
   * The public list does not take part: every rooted path matches its `/` entry,
   * yet protected paths are still redirected.
   */
  lemma PublicRoutesNotConsulted(path: string)
    requires StartsWith(path, "/profile")
    ensures MatchesAny(PublicRoutes, path)
    ensures Middleware(path, false) != Allow
  {
    assert StartsWith(path, PublicRoutes[0]);
    ProtectedWithoutSession(path);
  }

  /** Matching is by prefix, not by path segment. */
  lemma PrefixNotSegment()
    ensures Middleware("/profile/edit", false) == RedirectToLogin("/profile/edit")
    ensures Middleware("/profiles", false) == RedirectToLogin("/profiles")
    ensures Middleware("/signupX", true) == RedirectToProfile
  {
    ProtectedWithoutSession("/profile/edit");
    ProtectedWithoutSession("/profiles");
    AuthWithSession("/signupX");
  }

  // ---------------------------------------------------------------------------
  // The matcher `/((?!api/auth|_next/static|_next/image|favicon.ico|.*\.).*)`,
  // anchored at both ends, decides which paths reach the gate.

  /** Characters the regular-expression `.` does not match. */
  predicate IsLineTerminator(c: char) {
    c == '\n' || c == '\r' || c as int == 0x2028 || c as int == 0x2029
  }

  /** `favicon.ico` as a pattern: its `.` is unescaped and matches any one character. */
  predicate FaviconPattern(rest: string) {
    |rest| >= 11 && rest[..7] == "favicon" && !IsLineTerminator(rest[7]) && rest[8..11] == "ico"
  }

  /** `.*\.` as a pattern: a literal dot after any run of non-terminator characters. */
  predicate DotAfterAnything(rest: string) {
    exists i :: 0 <= i < |rest| && rest[i] == '.' && forall j :: 0 <= j < i ==> !IsLineTerminator(rest[j])
  }

  /** The negative lookahead: one of its alternatives matches at the start of the remainder. */
  predicate LookaheadHits(rest: string) {
    || StartsWith(rest, "api/auth")
    || StartsWith(rest, "_next/static")
    || StartsWith(rest, "_next/image")
    || FaviconPattern(rest)
    || DotAfterAnything(rest)
  }

  /** `.*` can consume the whole of `s`. */
  predicate NoTerminator(s: string) {
    forall j :: 0 <= j < |s| ==> !IsLineTerminator(s[j])
  }

  /** The matcher read literally: `/`, then a remainder the lookahead rejects, then `.*` to the end. */
  predicate MatcherAccepts(path: string) {
    && |path| >= 1 && path[0] == '/'
    && !LookaheadHits(path[1..])
    && NoTerminator(path[1..])
  }

  /** The same set of paths, stated plainly: which requests the gate sees. */
  predicate Gated(path: string) {
    && |path| >= 1 && path[0] == '/'
    && '.' !in path
    && NoTerminator(path)
    && !StartsWith(path, "/api/auth")
    && !StartsWith(path, "/_next/static")
    && !StartsWith(path, "/_next/image")
    && !(|path| >= 12 && path[..8] == "/favicon" && path[9..12] == "ico")
  }

  lemma StartsWithTail(path: string, p: string)
    requires |path| >= 1 && path[0] == '/'
    ensures StartsWith(path[1..], p) <==> StartsWith(path, "/" + p)
  {
    if StartsWith(path[1..], p) {
      assert path[..|p| + 1] == "/" + p;
    }
    if StartsWith(path, "/" + p) {
      assert path[1..][..|p|] == ("/" + p)[1..];
    }
  }

  /** Without line terminators, `.*\.` finds a dot exactly when there is one. */
  lemma DotAfterAnythingIff(rest: string)
    requires NoTerminator(rest)
    ensures DotAfterAnything(rest) <==> '.' in rest
  {
    if '.' in rest {
      var i :| 0 <= i < |rest| && rest[i] == '.';
      assert forall j :: 0 <= j < i ==> !IsLineTerminator(rest[j]);
    }
  }

  /** Without line terminators, the unescaped `favicon.ico` is `/favicon`, any character, `ico`. */
  lemma FaviconPatternIff(path: string)
    requires |path| >= 1 && path[0] == '/' && NoTerminator(path)
    ensures FaviconPattern(path[1..]) <==> (|path| >= 12 && path[..8] == "/favicon" && path[9..12] == "ico")
  {
    var rest := path[1..];
    if |rest| >= 11 {
      assert rest[..7] == path[1..8];
      assert rest[8..11] == path[9..12];
      assert path[..8] == "/favicon" <==> rest[..7] == "favicon" by {
        assert path[..8] == [path[0]] + path[1..8];
      }
      assert rest[7] == path[8];
    }
  }

  lemma NoTerminatorTail(path: string)
    requires |path| >= 1 && !IsLineTerminator(path[0])
    ensures NoTerminator(path[1..]) <==> NoTerminator(path)
  {
    if NoTerminator(path[1..]) {
      forall j | 0 <= j < |path| ensures !IsLineTerminator(path[j]) {
        if j > 0 { assert path[j] == path[1..][j - 1]; }
      }
    }
  }

  lemma DotTail(path: string)
    requires |path| >= 1 && path[0] == '/'
    ensures '.' in path <==> '.' in path[1..]
  {
    assert path == [path[0]] + path[1..];
  }

  /** The literal reading of the matcher and the plain one agree on every path. */
  lemma MatcherAcceptsIffGated(path: string)
    ensures MatcherAccepts(path) <==> Gated(path)
  {
    if |path| >= 1 && path[0] == '/' {
      var rest := path[1..];
      StartsWithTail(path, "api/auth");
      StartsWithTail(path, "_next/static");
      StartsWithTail(path, "_next/image");
      assert "/" + "api/auth" == "/api/auth";
      assert "/" + "_next/static" == "/_next/static";
      assert "/" + "_next/image" == "/_next/image";
      NoTerminatorTail(path);
      DotTail(path);
      if NoTerminator(rest) {
        DotAfterAnythingIff(rest);
        FaviconPatternIff(path);
      }
    }
  }

  /** What the application does with a request: the gate for matched paths, pass-through otherwise. */
  function Route(path: string, hasSession: bool): Decision {
    if MatcherAccepts(path) then Middleware(path, hasSession) else Allow
  }

  /** Asset requests never redirect: a dot anywhere in the path bypasses the gate. */
  lemma AssetsNeverRedirect(path: string, hasSession: bool)
    requires '.' in path
    ensures Route(path, hasSession) == Allow
  {
    MatcherAcceptsIffGated(path);
  }

  /** The session provider's own endpoints and the framework's static files bypass the gate. */
  lemma ExcludedPrefixesBypass(path: string, hasSession: bool)
    requires StartsWith(path, "/api/auth") || StartsWith(path, "/_next/static") || StartsWith(path, "/_next/image")
    ensures Route(path, hasSession) == Allow
  {
    MatcherAcceptsIffGated(path);
  }

  /** Pages under the two lists do reach the gate. */
  lemma ApplicationPagesGated()
    ensures MatcherAccepts("/profile") && MatcherAccepts("/login") && MatcherAccepts("/signup")
  {
    MatcherAcceptsIffGated("/profile");
    MatcherAcceptsIffGated("/login");
    MatcherAcceptsIffGated("/signup");
  }

  /** Redirects never loop: following one under the same session is let through. */
  lemma NoRedirectLoop(path: string, hasSession: bool)
    requires Route(path, hasSession) != Allow
    ensures Route(Target(Route(path, hasSession)), hasSession) == Allow
  {
    ApplicationPagesGated();
    var d := Route(path, hasSession);
    if d.RedirectToLogin? {
      AuthWithoutSession(LoginPath);
    } else {
      ProtectedWithSession(ProfilePath);
    }
  }
}
