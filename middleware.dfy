/**
 * The route guard that runs in front of every page request: it sorts the
 * request path into protected pages and sign-in pages by string prefix and
 * decides whether to redirect.
 */
module Middleware {

  /** What the guard answers for one request. */
  datatype Decision = RedirectToSignIn | RedirectToHome | PassThrough

  /** The session lookup either throws or tells whether a session exists. */
  datatype SessionLookup = LookupThrew | LookupDone(hasSession: bool)

  /** Pages that need a session. */
  const ProtectedRoutes: seq<string> := ["/create", "/profile", "/settings"]

  /** Pages that make no sense with a session. */
  const AuthRoutes: seq<string> := ["/signin", "/signup"]

  /** `s.startsWith(prefix)`. */
  predicate StartsWith(s: string, prefix: string)
  {
    |prefix| <= |s| && s[..|prefix|] == prefix
  }

  /** `routes.some((p) => path.startsWith(p))`, scanning left to right. */
  predicate AnyPrefix(routes: seq<string>, path: string)
    decreases |routes|
  {
    |routes| > 0 && (StartsWith(path, routes[0]) || AnyPrefix(routes[1..], path))
  }

  /** The scan finds a prefix exactly when some listed route is a prefix of the path. */
  lemma {:induction false} AnyPrefixIff(routes: seq<string>, path: string)
    ensures AnyPrefix(routes, path) <==> exists i :: 0 <= i < |routes| && StartsWith(path, routes[i])
    decreases |routes|
  {
    if |routes| > 0 {
      AnyPrefixIff(routes[1..], path);
      if AnyPrefix(routes[1..], path) {
        var i :| 0 <= i < |routes[1..]| && StartsWith(path, routes[1..][i]);
        assert StartsWith(path, routes[i + 1]);
      }
      if exists i :: 0 <= i < |routes| && StartsWith(path, routes[i]) {
        var i :| 0 <= i < |routes| && StartsWith(path, routes[i]);
        if i > 0 {
          assert StartsWith(path, routes[1..][i - 1]);
        }
      }
    }
  }

  predicate IsProtectedRoute(path: string)
  {
    AnyPrefix(ProtectedRoutes, path)
  }

  predicate IsAuthRoute(path: string)
  {
    AnyPrefix(AuthRoutes, path)
  }

  /** The guard body, after the session lookup; a throwing lookup lets the request through. */
  function Guard(path: string, lookup: SessionLookup): Decision
  {
    match lookup
    case LookupThrew => PassThrough
    case LookupDone(hasSession) =>
      if IsProtectedRoute(path) && !hasSession then RedirectToSignIn
      else if IsAuthRoute(path) && hasSession then RedirectToHome
      else PassThrough
  }

  /** A character matched by `.` in a JavaScript regular expression (anything but a line terminator). */
  predicate RegexDot(c: char)
  {
    c != '\n' && c != '\r' && c != '\U{2028}' && c != '\U{2029}'
  }

  /**
   * The negative lookahead `(?!api|_next/static|_next/image|favicon.ico)` of
   * the matcher, applied to the path after its leading `/`. The `.` in
   * `favicon.ico` is a regular-expression wildcard.
   */
  predicate ExcludedByMatcher(rest: string)
  {
    || StartsWith(rest, "api")
    || StartsWith(rest, "_next/static")
    || StartsWith(rest, "_next/image")
    || (|rest| >= 11 && rest[..7] == "favicon" && RegexDot(rest[7]) && rest[8..11] == "ico")
  }

  /** The matcher `/((?!api|_next/static|_next/image|favicon.ico).*)`: which paths reach the guard. */
  predicate Inspected(path: string)
  {
    && |path| > 0 && path[0] == '/' && !ExcludedByMatcher(path[1..])
    && forall k :: 1 <= k < |path| ==> RegexDot(path[k])
  }

  /** What a request to `path` gets: uninspected paths are passed on untouched. */
  function HandleRequest(path: string, lookup: SessionLookup): Decision
  {
    if Inspected(path) then Guard(path, lookup) else PassThrough
  }

  /** A path is protected iff it starts with one of the three protected prefixes. */
  lemma ProtectedRouteIff(path: string)
    ensures IsProtectedRoute(path) <==>
      StartsWith(path, "/create") || StartsWith(path, "/profile") || StartsWith(path, "/settings")
  {
    AnyPrefixIff(ProtectedRoutes, path);
    if StartsWith(path, "/create") { assert StartsWith(path, ProtectedRoutes[0]); }
    if StartsWith(path, "/profile") { assert StartsWith(path, ProtectedRoutes[1]); }
    if StartsWith(path, "/settings") { assert StartsWith(path, ProtectedRoutes[2]); }
  }

  /** A path is a sign-in page iff it starts with `/signin` or `/signup`. */
  lemma AuthRouteIff(path: string)
    ensures IsAuthRoute(path) <==> StartsWith(path, "/signin") || StartsWith(path, "/signup")
  {
    AnyPrefixIff(AuthRoutes, path);
    if StartsWith(path, "/signin") { assert StartsWith(path, AuthRoutes[0]); }
    if StartsWith(path, "/signup") { assert StartsWith(path, AuthRoutes[1]); }
  }

  /** Matching is by prefix, not by path segment. */
  lemma PrefixNotSegment()
    ensures IsProtectedRoute("/createX") && IsProtectedRoute("/profile/42")
    ensures IsAuthRoute("/signupnow")
    ensures !IsProtectedRoute("/") && !IsAuthRoute("/")
  {
    ProtectedRouteIff("/createX");
    ProtectedRouteIff("/profile/42");
    ProtectedRouteIff("/");
    AuthRouteIff("/signupnow");
    AuthRouteIff("/");
  }

  /** No path is both protected and a sign-in page. */
  lemma RouteClassesDisjoint(path: string)
    ensures !(IsProtectedRoute(path) && IsAuthRoute(path))
  {
    ProtectedRouteIff(path);
    AuthRouteIff(path);
    if IsAuthRoute(path) {
      assert |path| > 2 && path[1] == 's' && path[2] == 'i';
    }
  }

  /** The guard's full decision table for an inspected path. */
  lemma DecisionTable(path: string, lookup: SessionLookup)
    requires Inspected(path)
    ensures HandleRequest(path, lookup) == RedirectToSignIn <==>
      lookup == LookupDone(false) &&
      (StartsWith(path, "/create") || StartsWith(path, "/profile") || StartsWith(path, "/settings"))
    ensures HandleRequest(path, lookup) == RedirectToHome <==>
      lookup == LookupDone(true) && (StartsWith(path, "/signin") || StartsWith(path, "/signup"))
    ensures HandleRequest(path, lookup) == PassThrough <==>
      lookup == LookupThrew ||
      (lookup == LookupDone(false) && !IsProtectedRoute(path)) ||
      (lookup == LookupDone(true) && !IsAuthRoute(path))
  {
    ProtectedRouteIff(path);
    AuthRouteIff(path);
  }

  /** A request the matcher excludes, or one whose session lookup throws, is passed on. */
  lemma PassThroughCases(path: string, lookup: SessionLookup)
    ensures !Inspected(path) ==> HandleRequest(path, lookup) == PassThrough
    ensures lookup == LookupThrew ==> HandleRequest(path, lookup) == PassThrough
  {
  }

  /** API, Next.js asset and favicon paths never reach the guard, whatever their session. */
  lemma MatcherExclusions(rest: string, lookup: SessionLookup)
    requires StartsWith(rest, "api") || StartsWith(rest, "_next/static") ||
             StartsWith(rest, "_next/image") || StartsWith(rest, "favicon.ico")
    ensures !Inspected("/" + rest)
    ensures HandleRequest("/" + rest, lookup) == PassThrough
  {
    assert ("/" + rest)[1..] == rest;
    if StartsWith(rest, "favicon.ico") {
      assert rest[..11] == "favicon.ico";
      assert rest[..7] == rest[..11][..7] && rest[8..11] == rest[..11][8..11];
    }
  }

  /** A string that differs from `prefix` at some position inside both does not start with it. */
  lemma DifferAt(s: string, prefix: string, k: nat)
    requires k < |s| && k < |prefix| && s[k] != prefix[k]
    ensures !StartsWith(s, prefix)
    ensures |s| >= |prefix| ==> s[..|prefix|] != prefix
  {
    if |prefix| <= |s| {
      assert s[..|prefix|][k] == s[k];
    }
  }

  /** `/signin` reaches the guard. */
  lemma SignInInspected()
    ensures Inspected("/signin")
  {
    assert "/signin"[1..] == "signin";
    DifferAt("signin", "api", 0);
    DifferAt("signin", "_next/static", 0);
    DifferAt("signin", "_next/image", 0);
    DifferAt("signin", "favicon", 0);
  }

  /** Following a redirect under the same session never triggers another redirect. */
  lemma NoRedirectLoop(path: string, lookup: SessionLookup)
    ensures HandleRequest(path, lookup) == RedirectToSignIn ==> HandleRequest("/signin", lookup) == PassThrough
    ensures HandleRequest(path, lookup) == RedirectToHome ==> HandleRequest("/", lookup) == PassThrough
  {
    if HandleRequest(path, lookup) == RedirectToSignIn {
      assert lookup == LookupDone(false);
      RedirectTargetsPass(false);
    }
    if HandleRequest(path, lookup) == RedirectToHome {
      assert lookup == LookupDone(true);
      RedirectTargetsPass(true);
    }
  }

  /** The two redirect targets themselves pass through on the session that sends a user there. */
  lemma RedirectTargetsPass(hasSession: bool)
    ensures HandleRequest("/signin", LookupDone(false)) == PassThrough
    ensures HandleRequest("/", LookupDone(hasSession)) == PassThrough
  {
    SignInInspected();
    ProtectedRouteIff("/signin");
    ProtectedRouteIff("/");
    AuthRouteIff("/");
    assert "/signin"[1..] == "signin";
    assert "/"[1..] == "";
  }
}
