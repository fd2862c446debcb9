/** The first-visit language selector of `src/components/LanguageSelectorPopup.tsx`: it
    appears half a second after mount while the legal cookie is absent, guesses from the
    time zone whether to show the GDPR links, and on a choice stores the language and the
    acceptance time and reloads the page under the chosen locale. */
module LanguagePopup {

  import opened Wrappers
  import opened Browser
  import opened ConsentRecord
  import CookieManager
  import LegalCookies
  import LocalePath
  import Geo
  import Proxy

  /** The time zones the selector counts as European, as written: they include zones of
      countries outside the EU. */
  const EUTimezones: seq<string> := [
    "Europe/Amsterdam", "Europe/Andorra", "Europe/Athens", "Europe/Belgrade", "Europe/Berlin",
    "Europe/Bratislava", "Europe/Brussels", "Europe/Bucharest", "Europe/Budapest",
    "Europe/Chisinau", "Europe/Copenhagen", "Europe/Dublin", "Europe/Gibraltar",
    "Europe/Guernsey", "Europe/Helsinki", "Europe/Isle_of_Man", "Europe/Istanbul",
    "Europe/Jersey", "Europe/Kaliningrad", "Europe/Kiev", "Europe/Lisbon", "Europe/Ljubljana",
    "Europe/London", "Europe/Luxembourg", "Europe/Madrid", "Europe/Malta", "Europe/Mariehamn",
    "Europe/Minsk", "Europe/Monaco", "Europe/Moscow", "Europe/Nicosia", "Europe/Oslo",
    "Europe/Paris", "Europe/Podgorica", "Europe/Prague", "Europe/Riga", "Europe/Rome",
    "Europe/San_Marino", "Europe/Sarajevo", "Europe/Simferopol", "Europe/Skopje",
    "Europe/Sofia", "Europe/Stockholm", "Europe/Tallinn", "Europe/Tirane", "Europe/Tiraspol",
    "Europe/Uzhgorod", "Europe/Vaduz", "Europe/Vatican", "Europe/Vienna", "Europe/Vilnius",
    "Europe/Warsaw", "Europe/Zagreb", "Europe/Zaporozhye", "Europe/Zurich"]

  /** `isInEU()`, with `timeZone` the resolved time zone, `None` when resolving it throws
      or yields nothing: exact, case-sensitive membership. */
  predicate IsInEU(timeZone: Option<string>) {
    timeZone.Some? && timeZone.value in EUTimezones
  }

  /** The policy links under the buttons: privacy and cookies always, terms and data
      protection only with the GDPR wording. */
  function PolicyLinks(locale: string, showGdpr: bool): seq<string> {
    ["/" + locale + "/privacy-policy", "/" + locale + "/cookie-policy"]
    + if showGdpr then ["/" + locale + "/terms-of-service", "/" + locale + "/data-protection"] else []
  }

  /** The two cookies a choice writes, both for a year. */
  function ChoiceWrites(cs: seq<Cookie>, locale: string, acceptedAt: string, yearLater: int, now: nat): seq<Cookie> {
    Store(Store(cs, LegalCookies.LocaleCookie, locale, yearLater, now), CookieManager.LegalCookie, acceptedAt, yearLater, now)
  }

  lemma LocaleCookieName()
    ensures IsName(LegalCookies.LocaleCookie) && LegalCookies.LocaleCookie != CookieManager.LegalCookie
  {
    assert LegalCookies.LocaleCookie[0] != CookieManager.LegalCookie[0];
  }

  lemma LanguageValue(l: string)
    requires l in LocalePath.Languages
    ensures IsValue(l)
  {
  }

  class Selector {

    const win: Window
    /** What `useHasLegalAcceptance` returned on the last render. */
    var hasAccepted: bool
    var isVisible: bool
    var showGdpr: bool
    var currentLocale: string
    /** The 500 ms timer is running. */
    var timerPending: bool

    /** The first render: nothing accepted yet, hidden, English. */
    constructor (win: Window)
      ensures this.win == win
      ensures !hasAccepted && !isVisible && !showGdpr && currentLocale == LocalePath.DefaultLocale && !timerPending
    {
      this.win := win;
      hasAccepted := false;
      isVisible := false;
      showGdpr := false;
      currentLocale := LocalePath.DefaultLocale;
      timerPending := false;
    }

    /** The mount effects, from `location` (`window.location.pathname`): the acceptance
        hook reads the cookie string; the selector takes any two-letter first segment as
        its locale, even one it does not offer, and, when acceptance is absent, starts the
        timer (the re-render that brings acceptance clears it again). */
    method Mount(location: string)
      modifies this
      ensures hasAccepted == LegalCookies.HasLegalAcceptance(win.jar.DocumentCookie())
      ensures currentLocale == LocalePath.LocaleSegment(location).GetOr(old(currentLocale))
      ensures timerPending == !hasAccepted
      ensures isVisible == old(isVisible) && showGdpr == old(showGdpr)
    {
      hasAccepted := LegalCookies.HasLegalAcceptance(win.jar.DocumentCookie());
      match LocalePath.LocaleSegment(location) {
        case Some(l) => currentLocale := l;
        case None =>
      }
      timerPending := !hasAccepted;
    }

    /** The timer fires: the selector shows, with the GDPR links for a European zone. */
    method TimerFires(timeZone: Option<string>)
      requires timerPending
      modifies this
      ensures isVisible && showGdpr == IsInEU(timeZone) && !timerPending
      ensures hasAccepted == old(hasAccepted) && currentLocale == old(currentLocale)
    {
      isVisible := true;
      showGdpr := IsInEU(timeZone);
      timerPending := false;
    }

    /** Whether anything is rendered. */
    predicate Shown()
      reads this
    {
      !hasAccepted && isVisible
    }

    /** `handleLanguageSelect(locale)`, on the page `pathname` (without its locale) and
        with `acceptedAt` the ISO text of the current time. */
    method Select(locale: string, pathname: string, acceptedAt: string, yearLater: int, now: nat)
      requires locale in LocalePath.Languages && win.jar.Valid() && IsoTimestamp(acceptedAt)
      modifies this, win, win.jar
      ensures win.jar.Valid()
      ensures win.jar.cookies == ChoiceWrites(old(win.jar.cookies), locale, acceptedAt, yearLater, now)
      ensures win.effects == old(win.effects) + [Navigate("/" + locale + pathname)]
      ensures !isVisible && hasAccepted == old(hasAccepted) && currentLocale == old(currentLocale)
      ensures showGdpr == old(showGdpr) && timerPending == old(timerPending)
      ensures win.gtag == old(win.gtag) && win.fbq == old(win.fbq) && win.va == old(win.va)
      ensures win.googleTagManager == old(win.googleTagManager)
    {
      LocaleCookieName();
      LanguageValue(locale);
      CookieManager.LegalCookieName();
      IsoTimestampPlain(acceptedAt);
      win.jar.Write(LegalCookies.LocaleCookie, locale, yearLater, now);
      win.jar.Write(CookieManager.LegalCookie, acceptedAt, yearLater, now);
      isVisible := false;
      win.effects := win.effects + [Navigate("/" + locale + pathname)];
    }
  }

  // ---------------------------------------------------------------------------------
  // Properties


  /** The zone list and the country list disagree: London counts as European here while
      the United Kingdom is not an EU member for the region check. */
  lemma ZoneListBeyondEU()
    ensures IsInEU(Some("Europe/London")) && !Geo.IsEUCountry(Some("GB"))
  {
    assert EUTimezones[22] == "Europe/London";
    Geo.CodesCount();
    Geo.UpperOfLower("GB");
  }

  /** The terms and data-protection links are listed exactly with the GDPR wording, after
      the privacy and cookie links, which are always there. */
  lemma GdprLinks(locale: string, showGdpr: bool)
    ensures var links := PolicyLinks(locale, showGdpr);
      && |links| >= 2 && links[0] == "/" + locale + "/privacy-policy" && links[1] == "/" + locale + "/cookie-policy"
      && (("/" + locale + "/terms-of-service") in links <==> showGdpr)
      && (("/" + locale + "/data-protection") in links <==> showGdpr)
  {
    var k := |locale| + 2;
    var terms := "/" + locale + "/terms-of-service";
    var data := "/" + locale + "/data-protection";
    var privacy := "/" + locale + "/privacy-policy";
    var cookie := "/" + locale + "/cookie-policy";
    assert terms[k] == 't' && data[k] == 'd' && privacy[k] == 'p' && cookie[k] == 'c';
    assert terms != privacy && terms != cookie && data != privacy && data != cookie;
  }

  /** A choice leaves both cookies readable by the browser hooks and by the middleware:
      the language as chosen and the acceptance time. */
  lemma ChoiceAccepts(cs: seq<Cookie>, locale: string, acceptedAt: string, yearLater: int, now: nat)
    requires WellFormed(cs) && locale in LocalePath.Languages && IsoTimestamp(acceptedAt) && yearLater > now
    ensures var after := ChoiceWrites(cs, locale, acceptedAt, yearLater, now);
      && WellFormed(after)
      && Lookup(after, LegalCookies.LocaleCookie) == Some(locale)
      && Lookup(after, CookieManager.LegalCookie) == Some(acceptedAt)
      && LegalCookies.HasLegalAcceptance(Render(after))
      && LegalCookies.HasLanguageCookie(Render(after))
      && Proxy.HasLegalAcceptance(after)
  {
    LocaleCookieName();
    LanguageValue(locale);
    CookieManager.LegalCookieName();
    IsoTimestampPlain(acceptedAt);
    var mid := Store(cs, LegalCookies.LocaleCookie, locale, yearLater, now);
    var after := Store(mid, CookieManager.LegalCookie, acceptedAt, yearLater, now);
    StoreWellFormed(cs, LegalCookies.LocaleCookie, locale, yearLater, now);
    StoreWellFormed(mid, CookieManager.LegalCookie, acceptedAt, yearLater, now);
    StoreLookup(cs, LegalCookies.LocaleCookie, locale, yearLater, now, LegalCookies.LocaleCookie);
    StoreLookup(mid, CookieManager.LegalCookie, acceptedAt, yearLater, now, LegalCookies.LocaleCookie);
    StoreLookup(mid, CookieManager.LegalCookie, acceptedAt, yearLater, now, CookieManager.LegalCookie);
    LegalCookies.LegalAcceptanceOfStore(after);
    LegalCookies.LanguageCookieOfStore(after);
  }

  /** Once a choice is stored, the next page load finds acceptance and shows nothing. */
  lemma ChosenNotShownAgain(cs: seq<Cookie>, locale: string, acceptedAt: string, yearLater: int, now: nat)
    requires WellFormed(cs) && locale in LocalePath.Languages && IsoTimestamp(acceptedAt) && yearLater > now
    ensures LegalCookies.HasLegalAcceptance(Render(ChoiceWrites(cs, locale, acceptedAt, yearLater, now)))
  {
    ChoiceAccepts(cs, locale, acceptedAt, yearLater, now);
  }

  /** After a choice, the middleware stores the chosen language on the next ordinary page
      under that locale, when the locale is configured. */
  lemma ChoiceUnlocksLocaleCookie(cs: seq<Cookie>, locale: string, acceptedAt: string, yearLater: int, now: nat,
                                  rest: string, locales: set<string>)
    requires WellFormed(cs) && locale in LocalePath.Languages && IsoTimestamp(acceptedAt) && yearLater > now
    requires (rest == "" || rest[0] == '/') && !Proxy.IsLegalPage("/" + locale + rest) && locale in locales
    ensures Proxy.Handle("/" + locale + rest, ChoiceWrites(cs, locale, acceptedAt, yearLater, now), None, locales)
      == Proxy.Next(Some(Proxy.SetCookie(LegalCookies.LocaleCookie, locale, "/", "lax", Proxy.LocaleMaxAge)))
  {
    assert Proxy.HasLegalAcceptance(ChoiceWrites(cs, locale, acceptedAt, yearLater, now)) by {
      ChoiceAccepts(cs, locale, acceptedAt, yearLater, now);
    }
    assert '/' !in locale by {
      LocalePath.LanguagesMatch(locale);
    }
    Proxy.FirstSegmentOfPrefixed(locale, rest);
  }
}
