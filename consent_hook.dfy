/** The `useCookieConsent` hook of `src/hooks/useCookieConsent.ts`: the consent state one
    component keeps (`preferences`, `hasConsented`, `isLoading`), the decisions it forwards
    to the page's cookie manager, the extra `legal_accepted` write each decision makes, and
    the requests that tell the backend about it. */
module ConsentHook {

  import opened Wrappers
  import opened Values
  import opened Browser
  import opened ConsentRecord
  import opened CookieManager
  import opened ConsentTrackers
  import opened ConsentManager

  const ConsentApi: string := "/api/consent"

  /** The preferences the hook keeps after `savePreferences(prefs)`: every key the caller
      left out reads as `false`. */
  function Filled(c: Choice): (r: Categories)
    ensures r.essential
    ensures r.functional.Some? && r.analytics.Some? && r.marketing.Some?
    ensures forall k :: k != Essential && Get(Full(c), k).Some? ==> Get(r, k) == Get(Full(c), k)
    ensures forall k :: Get(Full(c), k).None? ==> Get(r, k) == Some(false)
  {
    Categories(true, Some(c.functional.GetOr(false)), Some(c.analytics.GetOr(false)), Some(c.marketing.GetOr(false)))
  }

  /** `syncConsentToBackend(preferences)`: a POST of the three optional flags and the
      policy version; its outcome is never read. */
  function SyncRequest(p: Categories): (e: Effect)
    ensures e.Fetch? && e.url == ConsentApi && e.verb == "POST" && e.body.Some? && e.body.value.Obj?
    ensures e.body.value.fields.Keys == {"functional", "analytics", "marketing", "version"}
    ensures e.body.value.fields["version"] == Str(Version)
    ensures e.body.value.fields["functional"] == Bool(p.functional.GetOr(false))
    ensures e.body.value.fields["analytics"] == Bool(p.analytics.GetOr(false))
    ensures e.body.value.fields["marketing"] == Bool(p.marketing.GetOr(false))
  {
    Fetch(ConsentApi, "POST", Some(Obj(map[
      "functional" := Bool(p.functional.GetOr(false)),
      "analytics" := Bool(p.analytics.GetOr(false)),
      "marketing" := Bool(p.marketing.GetOr(false)),
      "version" := Str(Version)])))
  }

  /** `notifyWithdrawal()`: a bodiless DELETE. */
  const WithdrawNotice: Effect := Fetch(ConsentApi, "DELETE", None)

  /** The local copy equals the stored record's categories exactly when the caller's object
      had all three keys. */
  lemma FilledIsFull(c: Choice)
    ensures Filled(c) == Full(c) <==> c.functional.Some? && c.analytics.Some? && c.marketing.Some?
  {
    if Filled(c) == Full(c) {
      assert Full(c).functional == Filled(c).functional;
      assert Full(c).analytics == Filled(c).analytics;
      assert Full(c).marketing == Filled(c).marketing;
    }
  }

  /** A write of any other cookie leaves the consent the manager reads unchanged. */
  lemma ConsentOfOtherWrite(cs: seq<Cookie>, name: string, value: string, expires: int, now: int)
    requires WellFormed(cs) && IsName(name) && IsValue(value) && name != ConsentCookie
    ensures WellFormed(Store(cs, name, value, expires, now))
    ensures ConsentOf(Render(Store(cs, name, value, expires, now))) == ConsentOf(Render(cs))
  {
    var after := Store(cs, name, value, expires, now);
    StoreWellFormed(cs, name, value, expires, now);
    StoreLookup(cs, name, value, expires, now, ConsentCookie);
    ConsentCookieName();
    GetCookieRender(cs, ConsentCookie);
    GetCookieRender(after, ConsentCookie);
  }

  /** The cookies a decision leaves: the manager's writes, then `legal_accepted`. */
  function DecisionWrites(cs: seq<Cookie>, r: Record, yearLater: int, now: nat): seq<Cookie> {
    Store(ConsentWrites(cs, r, now), LegalCookie, "true", yearLater, now)
  }

  /** After any of the three decisions the page reads back the record the manager wrote:
      the hook's extra `legal_accepted` write does not disturb it. */
  lemma DecisionReadBack(cs: seq<Cookie>, r: Record, yearLater: int, now: nat)
    requires WellFormed(cs) && Written(r)
    ensures WellFormed(DecisionWrites(cs, r, yearLater, now))
    ensures ConsentOf(Render(DecisionWrites(cs, r, yearLater, now))) == Some(r)
  {
    ConsentWritesLookup(cs, r, now, ConsentCookie);
    LegalCookieName();
    LegalFlag();
    ConsentOfOtherWrite(ConsentWrites(cs, r, now), LegalCookie, "true", yearLater, now);
    ConsentAfterSet(cs, r, now);
  }

  /** After `savePreferences(prefs)` the manager allows exactly what the hook's filled-in
      copy grants: a key the caller left out is refused by both. */
  lemma SavedAllows(cs: seq<Cookie>, prefs: Choice, timestamp: string, yearLater: int, now: nat, k: Category)
    requires WellFormed(cs) && IsoTimestamp(timestamp)
    ensures var r := Record(Version, timestamp, Full(prefs), Preferences);
      AllowedIn(ConsentOf(Render(DecisionWrites(cs, r, yearLater, now))), k) <==> Get(Filled(prefs), k) == Some(true)
  {
    DecisionReadBack(cs, Record(Version, timestamp, Full(prefs), Preferences), yearLater, now);
  }

  /** After `acceptAll` every category is allowed; after `rejectAll` only `essential`. */
  lemma DecidedAllows(cs: seq<Cookie>, source: Source, timestamp: string, yearLater: int, now: nat, k: Category)
    requires WellFormed(cs) && IsoTimestamp(timestamp)
    ensures AllowedIn(ConsentOf(Render(DecisionWrites(cs, Record(Version, timestamp, Full(AllGranted), source), yearLater, now))), k)
    ensures AllowedIn(ConsentOf(Render(DecisionWrites(cs, Record(Version, timestamp, Full(NoneGranted), source), yearLater, now))), k)
      <==> k == Essential
  {
    DecisionReadBack(cs, Record(Version, timestamp, Full(AllGranted), source), yearLater, now);
    DecisionReadBack(cs, Record(Version, timestamp, Full(NoneGranted), source), yearLater, now);
  }

  class Hook {

    const mgr: Manager
    var preferences: Option<Categories>
    var hasConsented: bool
    var isLoading: bool

    /** The first render: no preferences, no consent, still loading. */
    constructor (mgr: Manager)
      ensures this.mgr == mgr
      ensures preferences == None && !hasConsented && isLoading
    {
      this.mgr := mgr;
      preferences := None;
      hasConsented := false;
      isLoading := true;
    }

    /** The mount effect: adopt the stored record if there is one, and stop loading either
        way. The cookies are read here and nowhere else. */
    method Mount()
      modifies this
      ensures !isLoading
      ensures match mgr.GetConsent()
        case Some(r) => preferences == Some(r.categories) && hasConsented
        case None => preferences == old(preferences) && hasConsented == old(hasConsented)
    {
      var consent := mgr.GetConsent();
      if consent.Some? {
        preferences := Some(consent.value.categories);
        hasConsented := true;
      }
      isLoading := false;
    }

    /** What all three decisions do after the manager: `legal_accepted=true` until
        `yearLater` (one calendar year from now, to the second), then the backend sync. */
    method AcceptLegalAndSync(local: Categories, yearLater: int, now: nat)
      requires mgr.Valid()
      modifies mgr.win, mgr.win.jar
      ensures mgr.Valid()
      ensures mgr.win.jar.cookies == Store(old(mgr.win.jar.cookies), LegalCookie, "true", yearLater, now)
      ensures mgr.win.effects == old(mgr.win.effects) + [SyncRequest(local)]
      ensures mgr.win.gtag == old(mgr.win.gtag) && mgr.win.fbq == old(mgr.win.fbq)
      ensures mgr.win.va == old(mgr.win.va) && mgr.win.googleTagManager == old(mgr.win.googleTagManager)
    {
      assert IsName(LegalCookie) && IsValue("true") by {
        LegalCookieName();
        LegalFlag();
      }
      mgr.win.jar.Write(LegalCookie, "true", yearLater, now);
      mgr.win.effects := mgr.win.effects + [SyncRequest(local)];
    }

    /** The first half of a decision: the manager stores `choice` from `source` (the
        manager's `acceptAll` and `rejectAll` are `setConsent` with every category granted
        or refused) and the hook adopts `local`. */
    method Decide(choice: Choice, source: Source, local: Categories, timestamp: string, now: nat)
      requires mgr.Valid() && IsoTimestamp(timestamp)
      modifies this, mgr.win, mgr.win.jar
      ensures mgr.Valid()
      ensures preferences == Some(local) && hasConsented && isLoading == old(isLoading)
      ensures mgr.win.jar.cookies == ConsentWrites(old(mgr.win.jar.cookies), Record(Version, timestamp, Full(choice), source), now)
      ensures mgr.win.effects == old(mgr.win.effects)
        + TriggerEffects(Full(choice), mgr.env, old(mgr.win.gtag), old(mgr.win.fbq), old(mgr.win.googleTagManager), now)
      ensures mgr.win.gtag == if Granted(choice.analytics) then GtagAfter(mgr.env, old(mgr.win.gtag)) else old(mgr.win.gtag)
      ensures mgr.win.fbq == if Granted(choice.marketing) then FbqAfter(mgr.env, old(mgr.win.fbq)) else old(mgr.win.fbq)
      ensures mgr.win.va == old(mgr.win.va) && mgr.win.googleTagManager == old(mgr.win.googleTagManager)
    {
      mgr.SetConsent(choice, source, timestamp, now);
      preferences := Some(local);
      hasConsented := true;
    }

    /** `acceptAll(source)` */
    method AcceptAll(source: Source, timestamp: string, yearLater: int, now: nat)
      requires mgr.Valid() && IsoTimestamp(timestamp)
      modifies this, mgr.win, mgr.win.jar
      ensures mgr.Valid()
      ensures preferences == Some(Full(AllGranted)) && hasConsented && isLoading == old(isLoading)
      ensures mgr.win.jar.cookies == DecisionWrites(old(mgr.win.jar.cookies), Record(Version, timestamp, Full(AllGranted), source), yearLater, now)
      ensures mgr.win.effects == old(mgr.win.effects)
        + TriggerEffects(Full(AllGranted), mgr.env, old(mgr.win.gtag), old(mgr.win.fbq), old(mgr.win.googleTagManager), now)
        + [SyncRequest(Full(AllGranted))]
      ensures mgr.win.gtag == GtagAfter(mgr.env, old(mgr.win.gtag)) && mgr.win.fbq == FbqAfter(mgr.env, old(mgr.win.fbq))
      ensures mgr.win.va == old(mgr.win.va) && mgr.win.googleTagManager == old(mgr.win.googleTagManager)
    {
      Decide(AllGranted, source, Full(AllGranted), timestamp, now);
      AcceptLegalAndSync(Full(AllGranted), yearLater, now);
    }

    /** `rejectAll(source)`; `TriggerRejected` says the trackers see only the consent event. */
    method RejectAll(source: Source, timestamp: string, yearLater: int, now: nat)
      requires mgr.Valid() && IsoTimestamp(timestamp)
      modifies this, mgr.win, mgr.win.jar
      ensures mgr.Valid()
      ensures preferences == Some(EssentialOnly) && hasConsented && isLoading == old(isLoading)
      ensures mgr.win.jar.cookies == DecisionWrites(old(mgr.win.jar.cookies), Record(Version, timestamp, Full(NoneGranted), source), yearLater, now)
      ensures mgr.win.effects == old(mgr.win.effects)
        + TriggerEffects(Full(NoneGranted), mgr.env, old(mgr.win.gtag), old(mgr.win.fbq), old(mgr.win.googleTagManager), now)
        + [SyncRequest(EssentialOnly)]
      ensures mgr.win.gtag == old(mgr.win.gtag) && mgr.win.fbq == old(mgr.win.fbq)
      ensures mgr.win.va == old(mgr.win.va) && mgr.win.googleTagManager == old(mgr.win.googleTagManager)
    {
      Decide(NoneGranted, source, EssentialOnly, timestamp, now);
      AcceptLegalAndSync(EssentialOnly, yearLater, now);
    }

    /** `savePreferences(prefs)`: the manager stores the caller's object as it is, while
        the hook keeps and syncs the filled-in copy; `SavedAllows` says both allow the
        same categories. */
    method SavePreferences(prefs: Choice, timestamp: string, yearLater: int, now: nat)
      requires mgr.Valid() && IsoTimestamp(timestamp)
      modifies this, mgr.win, mgr.win.jar
      ensures mgr.Valid()
      ensures preferences == Some(Filled(prefs)) && hasConsented && isLoading == old(isLoading)
      ensures mgr.win.jar.cookies == DecisionWrites(old(mgr.win.jar.cookies), Record(Version, timestamp, Full(prefs), Preferences), yearLater, now)
      ensures mgr.win.effects == old(mgr.win.effects)
        + TriggerEffects(Full(prefs), mgr.env, old(mgr.win.gtag), old(mgr.win.fbq), old(mgr.win.googleTagManager), now)
        + [SyncRequest(Filled(prefs))]
      ensures mgr.win.gtag == if Granted(prefs.analytics) then GtagAfter(mgr.env, old(mgr.win.gtag)) else old(mgr.win.gtag)
      ensures mgr.win.fbq == if Granted(prefs.marketing) then FbqAfter(mgr.env, old(mgr.win.fbq)) else old(mgr.win.fbq)
      ensures mgr.win.va == old(mgr.win.va) && mgr.win.googleTagManager == old(mgr.win.googleTagManager)
    {
      Decide(prefs, Preferences, Filled(prefs), timestamp, now);
      AcceptLegalAndSync(Filled(prefs), yearLater, now);
    }

    /** `withdrawConsent()`: the hook shows essential-only preferences and no consent;
        the cookies are the manager's `withdraw`, which keeps `legal_accepted`. */
    method WithdrawConsent(now: nat)
      requires mgr.Valid()
      modifies this, mgr.win, mgr.win.jar
      ensures mgr.Valid()
      ensures preferences == Some(EssentialOnly) && !hasConsented && isLoading == old(isLoading)
      ensures mgr.win.jar.cookies == WithdrawWrites(old(mgr.win.jar.cookies), now)
      ensures mgr.win.effects == old(mgr.win.effects) + ClearEffects(old(mgr.win.gtag), old(mgr.win.fbq)) + [WithdrawNotice]
      ensures mgr.win.gtag == old(mgr.win.gtag) && mgr.win.fbq == old(mgr.win.fbq)
      ensures mgr.win.va == old(mgr.win.va) && mgr.win.googleTagManager == old(mgr.win.googleTagManager)
    {
      mgr.Withdraw(now);
      preferences := Some(EssentialOnly);
      hasConsented := false;
      mgr.win.effects := mgr.win.effects + [WithdrawNotice];
    }
  }
}
