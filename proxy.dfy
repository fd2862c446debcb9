/** The request middleware of `src/proxy.ts`: after the locale middleware it only decides
    whether to refresh the `NEXT_LOCALE` cookie, and it never blocks a request. The
    locale middleware's answer and the configured locales are parameters. */
module Proxy {

  import opened Wrappers
  import opened Browser
  import opened Http
  import Text
  import CookieManager
  import LegalCookies

  /** Declared for the routes behind the legal gate, and consulted nowhere. */
  const ProtectedRoutes: seq<string> := ["/onboarding", "/payment"]

  /** The path fragments that make a page a legal page, anywhere in the path. */
  const LegalFragments: seq<string> :=
    ["/privacy-policy", "/cookie-policy", "/data-protection", "/terms-of-service", "/legal"]

  const LocaleMaxAge: nat := 60 * 60 * 24 * 365

  /** A `response.cookies.set(name, value, { path, sameSite, maxAge })`. */
  datatype SetCookie = SetCookie(name: string, value: string, path: string, sameSite: string, maxAge: nat)

  datatype Outcome =
    /** The locale middleware's own response, passed on as it is. */
    | Delegated(response: Response)
    /** `NextResponse.next()`, with the cookie it sets, if any. */
    | Next(setCookie: Option<SetCookie>)

  predicate IsLegalPage(pathname: string) {
    exists i :: 0 <= i < |LegalFragments| && Text.Contains(pathname, LegalFragments[i])
  }

  /** `pathname.split('/')[1]`, `undefined` when the path has no `/`. */
  function FirstSegment(pathname: string): Option<string> {
    var parts := Text.Split(pathname, '/');
    if |parts| >= 2 then Some(parts[1]) else None
  }

  /** `request.cookies.get('legal_accepted')?.value` is neither missing nor empty. */
  predicate HasLegalAcceptance(cookies: seq<Cookie>) {
    match Lookup(cookies, CookieManager.LegalCookie)
    case None => false
    case Some(v) => v != ""
  }

  /** `proxy(request)`, with `intl` what the locale middleware returned for it. */
  function Handle(pathname: string, cookies: seq<Cookie>, intl: Option<Response>, locales: set<string>): Outcome {
    if intl.Some? then Delegated(intl.value)
    else if IsLegalPage(pathname) then Next(None)
    else if HasLegalAcceptance(cookies) && FirstSegment(pathname).Some? && FirstSegment(pathname).value in locales then
      Next(Some(SetCookie(LegalCookies.LocaleCookie, FirstSegment(pathname).value, "/", "lax", LocaleMaxAge)))
    else Next(None)
  }

  // ---------------------------------------------------------------------------------
  // Properties

  /** A response of the locale middleware is returned unchanged; otherwise the request
      always goes through, with or without legal acceptance and whatever the route, the
      protected ones included. */
  lemma NeverBlocks(pathname: string, cookies: seq<Cookie>, intl: Option<Response>, locales: set<string>)
    ensures intl.Some? ==> Handle(pathname, cookies, intl, locales) == Delegated(intl.value)
    ensures intl.None? ==> Handle(pathname, cookies, intl, locales).Next?
  {
  }

  /** The locale cookie is set exactly when the page is not a legal page, the legal
      cookie is present and not empty, and the first segment is a configured locale; it
      then holds that segment for a year on every path. */
  lemma LocaleCookieExactly(pathname: string, cookies: seq<Cookie>, locales: set<string>)
    ensures var o := Handle(pathname, cookies, None, locales);
      && (o.setCookie.Some? <==>
            !IsLegalPage(pathname) && HasLegalAcceptance(cookies)
            && FirstSegment(pathname).Some? && FirstSegment(pathname).value in locales)
      && (o.setCookie.Some? ==>
            o.setCookie.value == SetCookie("NEXT_LOCALE", FirstSegment(pathname).value, "/", "lax", 365 * 24 * 60 * 60))
  {
  }

  /** A legal page never touches the locale cookie, so a visitor can read the policies
      before choosing. */
  lemma LegalPagesKeepLocale(pathname: string, cookies: seq<Cookie>, locales: set<string>)
    requires IsLegalPage(pathname)
    ensures Handle(pathname, cookies, None, locales) == Next(None)
  {
  }

  /** A path containing a fragment at some position is a legal page. */
  lemma FragmentMakesLegal(pathname: string, i: nat, k: nat)
    requires i < |LegalFragments| && k <= |pathname| && LegalFragments[i] <= pathname[k..]
    ensures IsLegalPage(pathname)
  {
    Text.ContainsAt(pathname, LegalFragments[i], k);
  }

  /** The first segment of `/<l>` and of `/<l>/...` is `l`. */
  lemma FirstSegmentOfPrefixed(l: string, rest: string)
    requires '/' !in l && (rest == "" || rest[0] == '/')
    ensures FirstSegment("/" + l + rest) == Some(l)
  {
    Text.SplitWithout(l, '/');
    if rest == "" {
      assert "/" + l + rest == "" + ['/'] + l;
      Text.SplitAt("", l, '/');
    } else {
      assert l + rest == l + ['/'] + rest[1..];
      Text.SplitAt(l, rest[1..], '/');
      assert "/" + l + rest == "" + ['/'] + (l + rest);
      Text.SplitAt("", l + rest, '/');
    }
  }

  /** The server and the browser read the legal cookie alike on the browser's own store,
      except for a value that starts with `=`, which only the server accepts. */
  lemma ServerAgreesWithBrowser(cs: seq<Cookie>)
    requires WellFormed(cs)
    ensures LegalCookies.HasLegalAcceptance(Render(cs)) ==> HasLegalAcceptance(cs)
    ensures HasLegalAcceptance(cs) && Lookup(cs, CookieManager.LegalCookie).value[0] != '=' ==>
      LegalCookies.HasLegalAcceptance(Render(cs))
  {
    LegalCookies.LegalAcceptanceOfStore(cs);
  }
}
