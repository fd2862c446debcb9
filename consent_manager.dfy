/** The `CookieManager` object of `src/lib/cookie-manager.ts`: one per page, over the
    page's window and its cookie store. Its methods write the cookies and leave the
    effects that the functions of `CookieManager` and `ConsentTrackers` specify. */
module ConsentManager {

  import opened Wrappers
  import opened Browser
  import opened ConsentRecord
  import opened CookieManager
  import opened ConsentTrackers

  /** Appending the effects of several steps in turn is appending them all at once. */
  lemma Appended<T>(s: seq<T>, a: seq<T>, b: seq<T>, c: seq<T>, d: seq<T>, e: seq<T>)
    ensures s + a + b + c + d + e == s + (a + b + c + d + e)
  {
  }

  class Manager {

    const win: Window
    const env: Env

    constructor (win: Window, env: Env)
      ensures this.win == win && this.env == env
    {
      this.win := win;
      this.env := env;
    }

    predicate Valid()
      reads win.jar
    {
      win.jar.Valid()
    }

    /** `getConsent()` */
    function GetConsent(): Option<Record>
      reads win.jar
    {
      ConsentOf(win.jar.DocumentCookie())
    }

    /** `hasConsent()`: whether the banner stays hidden. */
    function HasConsent(): bool
      reads win.jar
    {
      GetConsent().Some?
    }

    /** `isAllowed(category)` */
    function IsAllowed(k: Category): bool
      reads win.jar
    {
      AllowedIn(GetConsent(), k)
    }

    /** `setCookie(name, value, days)` at time `now`. */
    method SetCookie(name: string, value: string, days: nat, now: nat)
      requires Valid() && IsName(name) && IsValue(value)
      modifies win.jar
      ensures Valid()
      ensures win.jar.cookies == Store(old(win.jar.cookies), name, value, Expiry(now, days), now)
    {
      win.jar.Write(name, value, Expiry(now, days), now);
    }

    /** `deleteCookie(name)`: the empty value with the 1970 expiry removes the cookie. */
    method DeleteCookie(name: string, now: nat)
      requires Valid() && IsName(name)
      modifies win.jar
      ensures Valid()
      ensures win.jar.cookies == Store(old(win.jar.cookies), name, "", 0, now)
    {
      win.jar.Write(name, "", 0, now);
    }

    /** `setCategoryCookies(preferences)`: one cookie per key, in key order. */
    method SetCategoryCookies(prefs: Categories, now: nat)
      requires Valid()
      modifies win.jar
      ensures Valid()
      ensures win.jar.cookies == StoreAll(old(win.jar.cookies), CategoryEntries(prefs), Expiry(now, ExpiryDays), now)
    {
      var es := CategoryEntries(prefs);
      CategoryEntriesValid(prefs);
      var i := 0;
      while i < |es|
        invariant 0 <= i <= |es|
        invariant Valid()
        invariant win.jar.cookies == StoreAll(old(win.jar.cookies), es[..i], Expiry(now, ExpiryDays), now)
      {
        assert es[i] in es;
        assert es[..i + 1][..i] == es[..i];
        SetCookie(es[i].0, es[i].1, ExpiryDays, now);
        i := i + 1;
      }
      assert es[..|es|] == es;
    }

    /** `initializeGA4()` */
    method InitializeGA4(now: int)
      modifies win
      ensures win.effects == old(win.effects) + GA4Effects(env, old(win.gtag), now)
      ensures win.gtag == GtagAfter(env, old(win.gtag))
      ensures win.fbq == old(win.fbq) && win.va == old(win.va) && win.googleTagManager == old(win.googleTagManager)
    {
      if !IsSet(env.gaMeasurementId) {
        return;
      }
      if win.gtag {
        return;
      }
      var id := env.gaMeasurementId.value;
      win.effects := win.effects + [AppendScript(GtagScript + id)];
      win.gtag := true;
      win.effects := win.effects + [GtagCall([Values.Str("js"), Values.Date(now)])];
      win.effects := win.effects + [GtagCall([Values.Str("config"), Values.Str(id),
        Values.Obj(map["cookie_flags" := Values.Str("SameSite=Lax;Secure"), "anonymize_ip" := Values.Bool(true)])])];
    }

    /** `initializeGTM()` */
    method InitializeGTM(now: int)
      modifies win
      ensures win.effects == old(win.effects) + GTMEffects(env, old(win.googleTagManager), now)
      ensures win.gtag == old(win.gtag) && win.fbq == old(win.fbq) && win.va == old(win.va)
      ensures win.googleTagManager == old(win.googleTagManager)
    {
      if !IsSet(env.gtmId) {
        return;
      }
      if win.googleTagManager {
        return;
      }
      win.effects := win.effects + [DataLayerPush(Values.Obj(map["gtm.start" := Values.Num(now as real), "event" := Values.Str("gtm.js")]))];
      win.effects := win.effects + [AppendScript(GtmScript + env.gtmId.value)];
    }

    /** `initializeMetaPixel()` */
    method InitializeMetaPixel()
      modifies win
      ensures win.effects == old(win.effects) + PixelEffects(env, old(win.fbq))
      ensures win.fbq == FbqAfter(env, old(win.fbq))
      ensures win.gtag == old(win.gtag) && win.va == old(win.va) && win.googleTagManager == old(win.googleTagManager)
    {
      if !IsSet(env.metaPixelId) {
        return;
      }
      if win.fbq {
        return;
      }
      win.fbq := true;
      win.effects := win.effects + [AppendScript(PixelScript)];
      win.effects := win.effects + [FbqCall([Values.Str("init"), Values.Str(env.metaPixelId.value)])];
      win.effects := win.effects + [FbqCall([Values.Str("track"), Values.Str("PageView")])];
    }

    /** `initializeVercelAnalytics()` */
    method InitializeVercelAnalytics()
      modifies win
      ensures win.effects == old(win.effects) + [VercelConsent]
      ensures win.gtag == old(win.gtag) && win.fbq == old(win.fbq) && win.va == old(win.va)
      ensures win.googleTagManager == old(win.googleTagManager)
    {
      win.effects := win.effects + [VercelConsent];
    }

    /** `triggerScripts(preferences)` */
    method TriggerScripts(prefs: Categories, now: int)
      modifies win
      ensures win.effects == old(win.effects)
        + TriggerEffects(prefs, env, old(win.gtag), old(win.fbq), old(win.googleTagManager), now)
      ensures win.gtag == if Granted(prefs.analytics) then GtagAfter(env, old(win.gtag)) else old(win.gtag)
      ensures win.fbq == if Granted(prefs.marketing) then FbqAfter(env, old(win.fbq)) else old(win.fbq)
      ensures win.va == old(win.va) && win.googleTagManager == old(win.googleTagManager)
    {
      ghost var e0 := win.effects;
      ghost var a := if Granted(prefs.analytics) then GA4Effects(env, win.gtag, now) else [];
      ghost var g := if Granted(prefs.analytics) || Granted(prefs.marketing) then GTMEffects(env, win.googleTagManager, now) else [];
      ghost var p := if Granted(prefs.marketing) then PixelEffects(env, win.fbq) else [];
      ghost var v: seq<Effect> := if Granted(prefs.analytics) then [VercelConsent] else [];
      assert TriggerEffects(prefs, env, win.gtag, win.fbq, win.googleTagManager, now) == [ConsentUpdate(prefs)] + a + g + p + v;
      win.effects := win.effects + [ConsentUpdate(prefs)];
      if Granted(prefs.analytics) {
        InitializeGA4(now);
      }
      assert win.effects == e0 + [ConsentUpdate(prefs)] + a;
      if Granted(prefs.analytics) || Granted(prefs.marketing) {
        InitializeGTM(now);
      }
      assert win.effects == e0 + [ConsentUpdate(prefs)] + a + g;
      if Granted(prefs.marketing) {
        InitializeMetaPixel();
      }
      assert win.effects == e0 + [ConsentUpdate(prefs)] + a + g + p;
      if Granted(prefs.analytics) {
        InitializeVercelAnalytics();
      }
      Appended(e0, [ConsentUpdate(prefs)], a, g, p, v);
    }

    /** `clearScripts()` */
    method ClearScripts()
      modifies win
      ensures win.effects == old(win.effects) + ClearEffects(old(win.gtag), old(win.fbq))
      ensures win.gtag == old(win.gtag) && win.fbq == old(win.fbq) && win.va == old(win.va)
      ensures win.googleTagManager == old(win.googleTagManager)
    {
      if win.gtag {
        win.effects := win.effects + [GtagCall([Values.Str("consent"), Values.Str("update"),
          Values.Obj(map["analytics_storage" := Values.Str("denied"), "ad_storage" := Values.Str("denied")])])];
      }
      if win.fbq {
        win.effects := win.effects + [FbqCall([Values.Str("consent"), Values.Str("revoke")])];
      }
      win.effects := win.effects + [ConsentUpdate(EssentialOnly)];
    }

    /** `setConsent(preferences, source)` with `timestamp` the `toISOString()` of `now`.
        What the page reads back afterwards is `ConsentAfterSet` and `AllowedAfterSet` of
        the cookies this leaves. */
    method SetConsent(choice: Choice, source: Source, timestamp: string, now: nat)
      requires Valid() && IsoTimestamp(timestamp)
      modifies win, win.jar
      ensures Valid()
      ensures win.jar.cookies == ConsentWrites(old(win.jar.cookies), Record(Version, timestamp, Full(choice), source), now)
      ensures win.effects == old(win.effects)
        + TriggerEffects(Full(choice), env, old(win.gtag), old(win.fbq), old(win.googleTagManager), now)
      ensures win.gtag == if Granted(choice.analytics) then GtagAfter(env, old(win.gtag)) else old(win.gtag)
      ensures win.fbq == if Granted(choice.marketing) then FbqAfter(env, old(win.fbq)) else old(win.fbq)
      ensures win.va == old(win.va) && win.googleTagManager == old(win.googleTagManager)
    {
      var full := Full(choice);
      var record := Record(Version, timestamp, full, source);
      var before := win.jar.cookies;
      var text := Encode(record);
      assert IsName(ConsentCookie) && IsValue(text) by {
        ConsentCookieName();
        EncodeClean(record);
        CleanIsValue(text);
      }
      SetCookie(ConsentCookie, text, ExpiryDays, now);
      SetCategoryCookies(full, now);
      assert IsName(LegalCookie) && IsValue("true") by {
        LegalCookieName();
        LegalFlag();
      }
      SetCookie(LegalCookie, "true", ExpiryDays, now);
      assert win.jar.cookies == RecordWrites(before, text, CategoryEntries(full), Expiry(now, ExpiryDays), now);
      TriggerScripts(full, now);
    }

    /** `acceptAll(source)` */
    method AcceptAll(source: Source, timestamp: string, now: nat)
      requires Valid() && IsoTimestamp(timestamp)
      modifies win, win.jar
      ensures Valid()
      ensures win.jar.cookies == ConsentWrites(old(win.jar.cookies), Record(Version, timestamp, Full(AllGranted), source), now)
      ensures win.effects == old(win.effects)
        + TriggerEffects(Full(AllGranted), env, old(win.gtag), old(win.fbq), old(win.googleTagManager), now)
      ensures win.gtag == GtagAfter(env, old(win.gtag)) && win.fbq == FbqAfter(env, old(win.fbq))
      ensures win.va == old(win.va) && win.googleTagManager == old(win.googleTagManager)
    {
      SetConsent(AllGranted, source, timestamp, now);
    }

    /** `rejectAll(source)`: only the consent event is dispatched. */
    method RejectAll(source: Source, timestamp: string, now: nat)
      requires Valid() && IsoTimestamp(timestamp)
      modifies win, win.jar
      ensures Valid()
      ensures win.jar.cookies == ConsentWrites(old(win.jar.cookies), Record(Version, timestamp, Full(NoneGranted), source), now)
      ensures win.effects == old(win.effects) + [ConsentUpdate(Full(NoneGranted))]
      ensures win.gtag == old(win.gtag) && win.fbq == old(win.fbq) && win.va == old(win.va)
      ensures win.googleTagManager == old(win.googleTagManager)
    {
      TriggerRejected(Full(NoneGranted), env, win.gtag, win.fbq, win.googleTagManager, now);
      SetConsent(NoneGranted, source, timestamp, now);
    }

    /** `withdraw()`: the consent cookies go and the trackers are told to stop;
        `WithdrawLookup` says `legal_accepted` stays and `ConsentAfterWithdraw` that the
        banner shows again. */
    method Withdraw(now: nat)
      requires Valid()
      modifies win, win.jar
      ensures Valid()
      ensures win.jar.cookies == WithdrawWrites(old(win.jar.cookies), now)
      ensures win.effects == old(win.effects) + ClearEffects(old(win.gtag), old(win.fbq))
      ensures win.gtag == old(win.gtag) && win.fbq == old(win.fbq) && win.va == old(win.va)
      ensures win.googleTagManager == old(win.googleTagManager)
    {
      assert IsName(ConsentCookie) && IsName("consent_essential") && IsName("consent_functional")
        && IsName("consent_analytics") && IsName("consent_marketing") by {
        ConsentCookieName();
        EssentialCookieName();
        FunctionalCookieName();
        AnalyticsCookieName();
        MarketingCookieName();
      }
      DeleteCookie(ConsentCookie, now);
      DeleteCookie("consent_essential", now);
      DeleteCookie("consent_functional", now);
      DeleteCookie("consent_analytics", now);
      DeleteCookie("consent_marketing", now);
      ClearScripts();
    }
  }
}
