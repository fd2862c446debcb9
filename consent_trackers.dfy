/** What `triggerScripts` and `clearScripts` of `src/lib/cookie-manager.ts` do to the
    page: the events they dispatch, the tracker scripts they load and the tracker calls
    they make, as a function of the consent categories, the build settings and which
    tracker globals the window already has. */
module ConsentTrackers {

  import opened Wrappers
  import opened Values
  import opened Browser
  import opened ConsentRecord

  const ConsentEvent: string := "cookieConsentUpdate"
  const VercelEvent: string := "vercelAnalyticsConsent"
  const GtagScript: string := "https://www.googletagmanager.com/gtag/js?id="
  const GtmScript: string := "https://www.googletagmanager.com/gtm.js?id="
  const PixelScript: string := "https://connect.facebook.net/en_US/fbevents.js"

  /** `if (preferences.k)`: only a present `true` flag is truthy. */
  predicate Granted(o: Option<bool>) {
    o == Some(true)
  }

  function OptionalField(key: string, o: Option<bool>): map<string, Value> {
    match o
    case None => map[]
    case Some(b) => map[key := Bool(b)]
  }

  /** The preferences object as an event carries it: `essential` and exactly the optional
      keys the categories have, each with its flag. */
  function PrefsValue(c: Categories): Value {
    Obj(PrefsMap(c))
  }

  function PrefsMap(c: Categories): map<string, Value> {
    map[KeyOf(Essential) := Bool(c.essential)]
    + OptionalField(KeyOf(Functional), c.functional)
    + OptionalField(KeyOf(Analytics), c.analytics)
    + OptionalField(KeyOf(Marketing), c.marketing)
  }

  lemma PrefsFields(c: Categories)
    ensures PrefsValue(c).Obj? && PrefsValue(c).fields == PrefsMap(c)
    ensures forall k :: KeyOf(k) in PrefsMap(c) <==> Get(c, k).Some?
    ensures forall k :: Get(c, k).Some? ==> PrefsMap(c)[KeyOf(k)] == Bool(Get(c, k).value)
  {
    KeysDistinct();
    forall k
      ensures KeyOf(k) in PrefsMap(c) <==> Get(c, k).Some?
      ensures Get(c, k).Some? ==> PrefsMap(c)[KeyOf(k)] == Bool(Get(c, k).value)
    {
      OptionalFieldsAt(c, k);
    }
  }

  lemma OptionalFieldsAt(c: Categories, k: Category)
    requires forall k, l :: KeyOf(k) == KeyOf(l) ==> k == l
    ensures KeyOf(k) in PrefsMap(c) <==> Get(c, k).Some?
    ensures Get(c, k).Some? ==> PrefsMap(c)[KeyOf(k)] == Bool(Get(c, k).value)
  {
    assert KeyOf(k) == KeyOf(Essential) ==> k == Essential;
    assert KeyOf(k) == KeyOf(Functional) ==> k == Functional;
    assert KeyOf(k) == KeyOf(Analytics) ==> k == Analytics;
    assert KeyOf(k) == KeyOf(Marketing) ==> k == Marketing;
  }

  /** The property name of each category in `CookiePreferences`. */
  function KeyOf(k: Category): string {
    match k
    case Essential => "essential"
    case Functional => "functional"
    case Analytics => "analytics"
    case Marketing => "marketing"
  }

  lemma KeysDistinct()
    ensures forall k, l :: KeyOf(k) == KeyOf(l) ==> k == l
  {
    forall k, l | KeyOf(k) == KeyOf(l) ensures k == l {
      assert KeyOf(k)[0] == KeyOf(l)[0];
    }
  }

  /** `new CustomEvent('cookieConsentUpdate', { detail: { preferences } })` */
  function ConsentUpdate(c: Categories): Effect {
    Dispatch(ConsentEvent, Obj(map["preferences" := PrefsValue(c)]))
  }

  /** `initializeGA4`: nothing without a measurement id or once `window.gtag` exists;
      otherwise the gtag.js script, then `gtag('js', new Date())` and the `config` call
      with the SameSite cookie flags and IP anonymisation. */
  function GA4Effects(env: Env, gtag: bool, now: int): seq<Effect> {
    if !IsSet(env.gaMeasurementId) || gtag then []
    else
      var id := env.gaMeasurementId.value;
      [ AppendScript(GtagScript + id),
        GtagCall([Str("js"), Date(now)]),
        GtagCall([Str("config"), Str(id),
                  Obj(map["cookie_flags" := Str("SameSite=Lax;Secure"), "anonymize_ip" := Bool(true)])]) ]
  }

  /** Whether `window.gtag` is defined after `initializeGA4`. */
  function GtagAfter(env: Env, gtag: bool): bool {
    gtag || IsSet(env.gaMeasurementId)
  }

  /** `initializeGTM`: nothing without a container id or once `window.google_tag_manager`
      exists; otherwise the `gtm.js` start entry on the data layer, then the gtm.js script.
      The guard global is one the loaded script defines, not this code. */
  function GTMEffects(env: Env, googleTagManager: bool, now: int): seq<Effect> {
    if !IsSet(env.gtmId) || googleTagManager then []
    else
      [ DataLayerPush(Obj(map["gtm.start" := Num(now as real), "event" := Str("gtm.js")])),
        AppendScript(GtmScript + env.gtmId.value) ]
  }

  /** `initializeMetaPixel`: nothing without a pixel id or once `window.fbq` exists;
      otherwise the fbevents.js script, then `fbq('init', id)` and `fbq('track', 'PageView')`. */
  function PixelEffects(env: Env, fbq: bool): seq<Effect> {
    if !IsSet(env.metaPixelId) || fbq then []
    else
      [ AppendScript(PixelScript),
        FbqCall([Str("init"), Str(env.metaPixelId.value)]),
        FbqCall([Str("track"), Str("PageView")]) ]
  }

  /** Whether `window.fbq` is defined after `initializeMetaPixel`. */
  function FbqAfter(env: Env, fbq: bool): bool {
    fbq || IsSet(env.metaPixelId)
  }

  /** `initializeVercelAnalytics`: the `vercelAnalyticsConsent` event, granted. */
  const VercelConsent: Effect := Dispatch(VercelEvent, Obj(map["granted" := Bool(true)]))

  /** What each tracker's set-up can emit, and how much: GA4 a script and gtag calls,
      GTM a data-layer entry and a script, the Meta Pixel a script and fbq calls; each
      either everything or, without its setting or once its global exists, nothing. */
  lemma TrackerShapes(env: Env, gtag: bool, fbq: bool, googleTagManager: bool, now: int)
    ensures forall e :: e in GA4Effects(env, gtag, now) ==> e.AppendScript? || e.GtagCall?
    ensures |GA4Effects(env, gtag, now)| == if !IsSet(env.gaMeasurementId) || gtag then 0 else 3
    ensures forall e :: e in GTMEffects(env, googleTagManager, now) ==> e.DataLayerPush? || e.AppendScript?
    ensures |GTMEffects(env, googleTagManager, now)| == if !IsSet(env.gtmId) || googleTagManager then 0 else 2
    ensures forall e :: e in PixelEffects(env, fbq) ==> e.AppendScript? || e.FbqCall?
    ensures |PixelEffects(env, fbq)| == if !IsSet(env.metaPixelId) || fbq then 0 else 3
  {
  }

  /** `triggerScripts(preferences)`: the consent event, then GA4 on analytics, GTM on
      analytics or marketing, the Meta Pixel on marketing, Vercel on analytics. */
  function TriggerEffects(c: Categories, env: Env, gtag: bool, fbq: bool, googleTagManager: bool, now: int): seq<Effect> {
    [ConsentUpdate(c)]
    + (if Granted(c.analytics) then GA4Effects(env, gtag, now) else [])
    + (if Granted(c.analytics) || Granted(c.marketing) then GTMEffects(env, googleTagManager, now) else [])
    + (if Granted(c.marketing) then PixelEffects(env, fbq) else [])
    + (if Granted(c.analytics) then [VercelConsent] else [])
  }

  /** The two ends of `triggerScripts`' dispatch order: the consent event always comes
      first, and the Vercel event closes the sequence exactly when analytics is granted
      (the GTM and Pixel steps, which may come last otherwise, never dispatch it). */
  lemma TriggerEnds(c: Categories, env: Env, gtag: bool, fbq: bool, googleTagManager: bool, now: int)
    ensures var es := TriggerEffects(c, env, gtag, fbq, googleTagManager, now);
      && es[0] == ConsentUpdate(c)
      && (es[|es| - 1] == VercelConsent <==> Granted(c.analytics))
  {
    var g := if Granted(c.analytics) || Granted(c.marketing) then GTMEffects(env, googleTagManager, now) else [];
    var p := if Granted(c.marketing) then PixelEffects(env, fbq) else [];
    var es := TriggerEffects(c, env, gtag, fbq, googleTagManager, now);
    if !Granted(c.analytics) {
      assert es == [ConsentUpdate(c)] + g + p;
      assert ConsentUpdate(c) != VercelConsent by {
        assert ConsentEvent[0] != VercelEvent[0];
      }
      TrackerShapes(env, gtag, fbq, googleTagManager, now);
      assert es[|es| - 1] in [ConsentUpdate(c)] || es[|es| - 1] in g || es[|es| - 1] in p;
    }
  }

  /** The preferences `clearScripts` announces: essential only. */
  const EssentialOnly: Categories := Categories(true, Some(false), Some(false), Some(false))

  /** `clearScripts`: deny both Google storages if `window.gtag` exists, revoke the Meta
      Pixel if `window.fbq` exists, then announce essential-only preferences. */
  function ClearEffects(gtag: bool, fbq: bool): seq<Effect> {
    (if gtag then [GtagCall([Str("consent"), Str("update"),
                             Obj(map["analytics_storage" := Str("denied"), "ad_storage" := Str("denied")])])]
     else [])
    + (if fbq then [FbqCall([Str("consent"), Str("revoke")])] else [])
    + [ConsentUpdate(EssentialOnly)]
  }

  // ---------------------------------------------------------------------------------
  // Properties of the tracker gate

  /** No tracker runs without its category: a gtag call needs analytics, a Meta Pixel
      call needs marketing, and a script or data-layer entry needs one of the two. The
      consent event always comes first. */
  lemma TriggerGated(c: Categories, env: Env, gtag: bool, fbq: bool, googleTagManager: bool, now: int)
    ensures var es := TriggerEffects(c, env, gtag, fbq, googleTagManager, now);
      && es[0] == ConsentUpdate(c)
      && (forall e :: e in es && e.GtagCall? ==> Granted(c.analytics))
      && (forall e :: e in es && e.FbqCall? ==> Granted(c.marketing))
      && (forall e :: e in es && (e.AppendScript? || e.DataLayerPush?) ==> Granted(c.analytics) || Granted(c.marketing))
      && (forall e :: e in es && e.Dispatch? && e.name == VercelEvent ==> Granted(c.analytics))
      && (forall e :: e in es ==> !e.Fetch? && !e.Navigate? && !e.VaCall?)
  {
    var a := if Granted(c.analytics) then GA4Effects(env, gtag, now) else [];
    var g := if Granted(c.analytics) || Granted(c.marketing) then GTMEffects(env, googleTagManager, now) else [];
    var p := if Granted(c.marketing) then PixelEffects(env, fbq) else [];
    var v: seq<Effect> := if Granted(c.analytics) then [VercelConsent] else [];
    var es := TriggerEffects(c, env, gtag, fbq, googleTagManager, now);
    TrackerShapes(env, gtag, fbq, googleTagManager, now);
    assert es == [ConsentUpdate(c)] + a + g + p + v;
    forall e | e in es
      ensures e.GtagCall? ==> Granted(c.analytics)
      ensures e.FbqCall? ==> Granted(c.marketing)
      ensures (e.AppendScript? || e.DataLayerPush?) ==> Granted(c.analytics) || Granted(c.marketing)
      ensures e.Dispatch? && e.name == VercelEvent ==> Granted(c.analytics)
      ensures !e.Fetch? && !e.Navigate? && !e.VaCall?
    {
      assert e == ConsentUpdate(c) || e in a || e in g || e in p || e in v;
    }
  }

  /** Rejecting every optional category loads nothing: the consent event is all. */
  lemma TriggerRejected(c: Categories, env: Env, gtag: bool, fbq: bool, googleTagManager: bool, now: int)
    requires !Granted(c.analytics) && !Granted(c.marketing)
    ensures TriggerEffects(c, env, gtag, fbq, googleTagManager, now) == [ConsentUpdate(c)]
  {
  }

  /** Accepting every category with every setting present and no tracker yet on the page
      loads all three tracker scripts and announces Vercel consent. */
  lemma TriggerAccepted(c: Categories, env: Env, now: int)
    requires Granted(c.analytics) && Granted(c.marketing)
    requires IsSet(env.gaMeasurementId) && IsSet(env.gtmId) && IsSet(env.metaPixelId)
    ensures var es := TriggerEffects(c, env, false, false, false, now);
      && AppendScript(GtagScript + env.gaMeasurementId.value) in es
      && AppendScript(GtmScript + env.gtmId.value) in es
      && AppendScript(PixelScript) in es
      && FbqCall([Str("init"), Str(env.metaPixelId.value)]) in es
      && VercelConsent in es
      && |es| == 10
  {
    var es := TriggerEffects(c, env, false, false, false, now);
    TrackerShapes(env, false, false, false, now);
    assert es[1] == AppendScript(GtagScript + env.gaMeasurementId.value);
    assert es[5] == AppendScript(GtmScript + env.gtmId.value);
    assert es[6] == AppendScript(PixelScript);
    assert es[7] == FbqCall([Str("init"), Str(env.metaPixelId.value)]);
    assert es[9] == VercelConsent;
  }

  /** A second `triggerScripts` after the first has defined the globals makes no further
      gtag or Meta Pixel call: GA4 and the Pixel are set up at most once per page. */
  lemma TriggerTwice(c: Categories, d: Categories, env: Env, gtag: bool, fbq: bool, googleTagManager: bool, now: int, later: int)
    ensures var g := if Granted(c.analytics) then GtagAfter(env, gtag) else gtag;
      var f := if Granted(c.marketing) then FbqAfter(env, fbq) else fbq;
      Granted(c.analytics) && Granted(d.analytics) && Granted(c.marketing) && Granted(d.marketing) ==>
        forall e :: e in TriggerEffects(d, env, g, f, googleTagManager, later) ==> !e.GtagCall? && !e.FbqCall?
  {
    var g := if Granted(c.analytics) then GtagAfter(env, gtag) else gtag;
    var f := if Granted(c.marketing) then FbqAfter(env, fbq) else fbq;
    if Granted(c.analytics) && Granted(d.analytics) && Granted(c.marketing) && Granted(d.marketing) {
      assert GA4Effects(env, g, later) == [];
      assert PixelEffects(env, f) == [];
      var es := TriggerEffects(d, env, g, f, googleTagManager, later);
      var t := GTMEffects(env, googleTagManager, later);
      TrackerShapes(env, g, f, googleTagManager, later);
      assert es == [ConsentUpdate(d)] + t + [VercelConsent];
      forall e | e in es ensures !e.GtagCall? && !e.FbqCall? {
        assert e == ConsentUpdate(d) || e in t || e == VercelConsent;
      }
    }
  }

  /** The GTM guard is a global only the loaded gtm.js defines, so until that script has
      run a second grant pushes the start entry and appends the script again. */
  lemma GTMRepeats(c: Categories, d: Categories, env: Env, gtag: bool, fbq: bool, now: int, later: int)
    requires IsSet(env.gtmId) && Granted(c.analytics) && Granted(d.analytics)
    ensures AppendScript(GtmScript + env.gtmId.value) in TriggerEffects(c, env, gtag, fbq, false, now)
    ensures AppendScript(GtmScript + env.gtmId.value) in TriggerEffects(d, env, GtagAfter(env, gtag), fbq, false, later)
  {
    var e := AppendScript(GtmScript + env.gtmId.value);
    var t1 := TriggerEffects(c, env, gtag, fbq, false, now);
    var a1 := GA4Effects(env, gtag, now);
    TrackerShapes(env, gtag, fbq, false, now);
    assert t1[1 + |a1| + 1] == e;
    var t2 := TriggerEffects(d, env, GtagAfter(env, gtag), fbq, false, later);
    assert GA4Effects(env, GtagAfter(env, gtag), later) == [];
    assert t2[2] == e;
  }

  /** `clearScripts` loads nothing and ends by announcing essential-only preferences; it
      silences exactly the trackers whose globals exist. */
  lemma ClearSilences(gtag: bool, fbq: bool)
    ensures var es := ClearEffects(gtag, fbq);
      && es[|es| - 1] == ConsentUpdate(EssentialOnly)
      && |es| == 1 + (if gtag then 1 else 0) + (if fbq then 1 else 0)
      && (forall e :: e in es ==> !e.AppendScript? && !e.DataLayerPush? && !e.Fetch?)
      && ((exists e :: e in es && e.GtagCall?) <==> gtag)
      && ((exists e :: e in es && e.FbqCall?) <==> fbq)
  {
    var es := ClearEffects(gtag, fbq);
    if gtag {
      assert es[0].GtagCall?;
    }
    if fbq {
      assert es[|es| - 2].FbqCall?;
    }
  }
}
