/** The page-request gate of middleware.ts: which pathnames reach it (the
    `config.matcher` regular expression) and what it answers once reached
    (the abuse filter's response, a redirect to the sign-in page, or
    pass-through). The abuse filter and the cookie reader are foreign code;
    their results are inputs here. */
module RequestGate {
  import opened Wrappers

  // ---------------------------------------------------------------------
  // The path matcher  /((?!api|_next/static|_next/image|favicon.ico|sign-in|assets).*)
  // ---------------------------------------------------------------------

  /** The alternatives of the negative lookahead, as written in the matcher. */
  const Alternatives: seq<string> :=
    ["api", "_next/static", "_next/image", "favicon.ico", "sign-in", "assets"]

  /** Characters that a JavaScript regular-expression `.` does not match. */
  predicate LineTerminator(c: char) {
    c == '\n' || c == '\r' || c == '\U{2028}' || c == '\U{2029}'
  }

  /** The text character `c` is matched by the pattern character `a` of an
      alternative: `.` is the wildcard, every other character stands for itself. */
  predicate Fits(a: char, c: char) {
    if a == '.' then !LineTerminator(c) else c == a
  }

  /** The alternative `alt`, read as a regular expression, matches a prefix of
      `s` (what a lookahead tests). */
  predicate StartsWithPattern(alt: string, s: string) {
    |alt| <= |s| && forall i :: 0 <= i < |alt| ==> Fits(alt[i], s[i])
  }

  /** The negative lookahead succeeds at `rest` (no alternative starts it). */
  predicate LookaheadPasses(rest: string) {
    forall k :: 0 <= k < |Alternatives| ==> !StartsWithPattern(Alternatives[k], rest)
  }

  /** `.*` consumes all of `rest`, as the anchored match requires. */
  predicate DotStarMatches(rest: string) {
    forall i :: 0 <= i < |rest| ==> !LineTerminator(rest[i])
  }

  /** The pathname is matched by the whole matcher, so the gate runs on it. */
  predicate Gated(path: string) {
    |path| >= 1 && path[0] == '/' && LookaheadPasses(path[1..]) && DotStarMatches(path[1..])
  }

  /** `favicon.ico` with its `.` read as a wildcard. */
  predicate FaviconLike(s: string) {
    "favicon" <= s && |s| >= 8 && !LineTerminator(s[7]) && "ico" <= s[8..]
  }

  /** The text after the leading `/` starts with one of the excluded prefixes. */
  predicate ExcludedPrefix(rest: string) {
    "api" <= rest || "_next/static" <= rest || "_next/image" <= rest
    || FaviconLike(rest) || "sign-in" <= rest || "assets" <= rest
  }

  /** An alternative without `.` is a plain prefix test. */
  lemma LiteralMatch(alt: string, s: string)
    requires forall i :: 0 <= i < |alt| ==> alt[i] != '.'
    ensures StartsWithPattern(alt, s) <==> alt <= s
  {
    if StartsWithPattern(alt, s) {
      assert alt == s[..|alt|];
    }
  }

  /** `favicon.ico` tests seven literal characters, one wildcard, then three more. */
  lemma FaviconMatch(s: string)
    ensures StartsWithPattern("favicon.ico", s) <==> FaviconLike(s)
  {
    var alt := "favicon.ico";
    if StartsWithPattern(alt, s) {
      assert s[..7] == alt[..7];
      assert s[8..11] == alt[8..];
      assert Fits(alt[7], s[7]);
    }
    if FaviconLike(s) {
      forall i | 0 <= i < |alt| ensures Fits(alt[i], s[i]) {
        if i < 7 { assert s[..7][i] == s[i]; }
        else if i > 7 { assert s[8..][i - 8] == s[i]; }
      }
    }
  }

  /** The `k`-th alternative, read as the prefix test it amounts to. */
  predicate StartsWithAlternative(k: nat, rest: string)
    requires k < |Alternatives|
  {
    if k == 3 then FaviconLike(rest) else Alternatives[k] <= rest
  }

  lemma AlternativeMatch(k: nat, rest: string)
    requires k < |Alternatives|
    ensures StartsWithPattern(Alternatives[k], rest) <==> StartsWithAlternative(k, rest)
  {
    if k == 3 {
      FaviconMatch(rest);
    } else {
      LiteralMatch(Alternatives[k], rest);
    }
  }

  /** The matcher's exclusion is a prefix test on the text after the leading
      `/`, with `favicon.ico`'s `.` as a wildcard; every other pathname
      starting with `/` and free of line terminators is gated. */
  lemma GatedIff(path: string)
    ensures Gated(path) <==>
            |path| >= 1 && path[0] == '/' && !ExcludedPrefix(path[1..]) && DotStarMatches(path[1..])
  {
    if |path| >= 1 {
      var rest := path[1..];
      forall k | 0 <= k < |Alternatives|
        ensures StartsWithPattern(Alternatives[k], rest) <==> StartsWithAlternative(k, rest)
      {
        AlternativeMatch(k, rest);
      }
      if ExcludedPrefix(rest) {
        if "api" <= rest { assert StartsWithAlternative(0, rest); }
        else if "_next/static" <= rest { assert StartsWithAlternative(1, rest); }
        else if "_next/image" <= rest { assert StartsWithAlternative(2, rest); }
        else if FaviconLike(rest) { assert StartsWithAlternative(3, rest); }
        else if "sign-in" <= rest { assert StartsWithAlternative(4, rest); }
        else { assert StartsWithAlternative(5, rest); }
      }
    }
  }

  /** The exclusion is by prefix, not by path segment. */
  lemma ExclusionIsByPrefix()
    ensures !Gated("/apiary") && !Gated("/assets-old") && !Gated("/sign-in-help")
    ensures !Gated("/api/auth/session") && !Gated("/_next/static/chunk.js")
    ensures !Gated("/faviconXico")
  {
    GatedIff("/apiary");
    assert "api" <= "apiary";
    GatedIff("/assets-old");
    assert "assets" <= "assets-old";
    GatedIff("/sign-in-help");
    assert "sign-in" <= "sign-in-help";
    GatedIff("/api/auth/session");
    assert "api" <= "api/auth/session";
    GatedIff("/_next/static/chunk.js");
    assert "_next/static" <= "_next/static/chunk.js";
    GatedIff("/faviconXico");
    assert FaviconLike("faviconXico");
  }

  /** No alternative starts with a character other than `a`, `_`, `f` or `s`. */
  lemma FirstCharacterClears(rest: string)
    requires rest == [] || rest[0] !in {'a', '_', 'f', 's'}
    ensures !ExcludedPrefix(rest)
  {
    if rest != [] {
      assert "api"[0] == 'a' && "_next/static"[0] == '_' && "_next/image"[0] == '_';
      assert "favicon"[0] == 'f' && "sign-in"[0] == 's' && "assets"[0] == 'a';
    }
  }

  /** The root path and ordinary pages are gated (`.*` matches the empty string). */
  lemma PagesAreGated()
    ensures Gated("/") && Gated("/upload") && Gated("/video/v1")
  {
    GatedIff("/");
    FirstCharacterClears("");
    GatedIff("/upload");
    FirstCharacterClears("upload");
    GatedIff("/video/v1");
    FirstCharacterClears("video/v1");
  }

  // ---------------------------------------------------------------------
  // The gate itself
  // ---------------------------------------------------------------------

  /** A URL as far as the redirect needs it. */
  datatype Url = Url(origin: string, pathname: string, search: string, hash: string)

  const SignInPath := "/sign-in"

  /** `new URL("/sign-in", request.url)`: an absolute path resolved against
      the request URL. It stays on the request's origin, carries no return-to
      query, and its pathname is one the matcher excludes. */
  function SignInUrl(requestUrl: Url): (u: Url)
    ensures u.origin == requestUrl.origin && u.search == ""
    ensures !Gated(u.pathname)
  {
    GatedIff(SignInPath);
    assert "sign-in" <= SignInPath[1..];
    Url(requestUrl.origin, SignInPath, "", "")
  }

  /** What the gate answers: the filter's own response, a redirect, or pass-through. */
  datatype Outcome<R> = FilterResponse(response: R) | Redirect(location: Url) | Next

  /** JavaScript truthiness of the session value: absent and empty both fail `!session`. */
  predicate HasSession(session: Option<string>) {
    session.Some? && session.value != ""
  }

  /** The gate for one request: `filter` is what the abuse filter returned,
      `session` what the cookie reader returned. */
  function Middleware<R>(filter: Option<R>, session: Option<string>, requestUrl: Url): (o: Outcome<R>)
    ensures o.FilterResponse? <==> filter.Some?
    ensures o.FilterResponse? ==> o.response == filter.value
    ensures o.Redirect? <==> filter.None? && !HasSession(session)
    ensures o.Redirect? ==> o.location == SignInUrl(requestUrl)
    ensures o.Next? <==> filter.None? && HasSession(session)
  {
    if filter.Some? then FilterResponse(filter.value)
    else if !HasSession(session) then Redirect(SignInUrl(requestUrl))
    else Next
  }

  /** A filter response is returned whatever the session cookie says. */
  lemma FilterShortCircuits<R>(r: R, s1: Option<string>, s2: Option<string>, u: Url)
    ensures Middleware(Some(r), s1, u) == Middleware(Some(r), s2, u) == FilterResponse(r)
  {
  }

  /** How a request is served: without the gate, or with the gate's outcome. */
  datatype Admission<R> = Bypassed | Gate(outcome: Outcome<R>)

  /** A request: the pathname of its URL decides whether the gate runs at all. */
  function Admit<R>(requestUrl: Url, filter: Option<R>, session: Option<string>): (a: Admission<R>)
    ensures !Gated(requestUrl.pathname) <==> a.Bypassed?
    ensures a.Gate? ==> a.outcome == Middleware(filter, session, requestUrl)
  {
    if Gated(requestUrl.pathname) then Gate(Middleware(filter, session, requestUrl)) else Bypassed
  }

  /** A bypassed request is decided without the filter's result or the cookie. */
  lemma BypassConsultsNothing<R>(u: Url, f1: Option<R>, f2: Option<R>, s1: Option<string>, s2: Option<string>)
    requires !Gated(u.pathname)
    ensures Admit(u, f1, s1) == Admit(u, f2, s2) == Bypassed
  {
  }

  /** The request that follows a redirect bypasses the gate, whatever the
      filter and the cookie say then, so the gate never redirects in a loop. */
  lemma RedirectNeverReentersGate<R>(filter: Option<R>, session: Option<string>, u: Url,
                                     nextFilter: Option<R>, nextSession: Option<string>)
    ensures var o := Middleware(filter, session, u);
            o.Redirect? ==> Admit(o.location, nextFilter, nextSession) == Bypassed
  {
  }
}
