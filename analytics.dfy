/** The `analytics` object of `src/lib/analytics.ts`: each call first asks the page's
    cookie manager whether its category is allowed, then calls whichever of `gtag`, `fbq`
    and `va` the window has. The functions give the calls one invocation makes, from the
    consent read, the vendor globals present and the arguments; the class performs them. */
module Tracking {

  import opened Wrappers
  import opened Values
  import opened Browser
  import opened ConsentRecord
  import opened CookieManager
  import opened ConsentManager

  /** One line of a purchase. */
  datatype Item = Item(id: string, name: string, price: real, quantity: real)

  /** The arguments of `purchase`; `None` is a property left out. */
  datatype Purchase = Purchase(transactionId: string, value: real, currency: Option<string>, items: Option<seq<Item>>)

  /** `x || fallback` on an optional string: the empty string falls back too. */
  function OrElse(o: Option<string>, fallback: string): string {
    if IsSet(o) then o.value else fallback
  }

  /** An optional number passed as a value. */
  function OptionalNum(o: Option<real>): Value {
    match o
    case Some(n) => Num(n)
    case None => Undefined
  }

  /** A call of `window.gtag(...)`, `window.fbq(...)` or `window.va(...)`, made only when
      that global is defined. */
  function Gtag(present: bool, args: seq<Value>): seq<Effect> {
    if present then [GtagCall(args)] else []
  }

  function Fbq(present: bool, args: seq<Value>): seq<Effect> {
    if present then [FbqCall(args)] else []
  }

  function Va(present: bool, args: seq<Value>): seq<Effect> {
    if present then [VaCall(args)] else []
  }

  function ItemValue(i: Item): Value {
    Obj(map["id" := Str(i.id), "name" := Str(i.name), "price" := Num(i.price), "quantity" := Num(i.quantity)])
  }

  /** `items.map((item) => item.id)` */
  function ItemIds(items: seq<Item>): seq<Value> {
    seq(|items|, i requires 0 <= i < |items| => Str(items[i].id))
  }

  function ItemValues(items: seq<Item>): seq<Value> {
    seq(|items|, i requires 0 <= i < |items| => ItemValue(items[i]))
  }

  /** `pageView(url, title)` */
  function PageViewCalls(consent: Option<Record>, gtag: bool, va: bool, url: string, title: Option<string>): seq<Effect> {
    if !AllowedIn(consent, Analytics) then []
    else
      Gtag(gtag, [Str("event"), Str("page_view"), Obj(map["page_path" := Str(url), "page_title" := OptionalValue(title)])])
      + Va(va, [Str("pageview"), Obj(map["path" := Str(url)])])
  }

  /** `event(eventName, params)`; `params` is `undefined` when not passed. */
  function EventCalls(consent: Option<Record>, gtag: bool, va: bool, name: string, params: Value): seq<Effect> {
    if !AllowedIn(consent, Analytics) then []
    else
      Gtag(gtag, [Str("event"), Str(name), params])
      + Va(va, [Str("event"), Obj(map["name" := Str(name), "data" := params])])
  }

  /** `conversion(conversionName, value, currency = 'USD')` */
  function ConversionCalls(consent: Option<Record>, env: Env, gtag: bool, fbq: bool,
                           name: string, value: Option<real>, currency: Option<string>): seq<Effect> {
    if !AllowedIn(consent, Marketing) then []
    else
      var cur := currency.GetOr("USD");
      Gtag(gtag, [Str("event"), Str("conversion"), Obj(map[
        "send_to" := OptionalValue(env.adsConversionId), "value" := OptionalNum(value),
        "currency" := Str(cur), "transaction_id" := Str("")])])
      + Fbq(fbq, [Str("track"), Str(name), Obj(map["value" := OptionalNum(value), "currency" := Str(cur)])])
  }

  /** `purchase(params)`, with `currency` defaulting to USD and `items` to none. */
  function PurchaseCalls(consent: Option<Record>, gtag: bool, fbq: bool, p: Purchase): seq<Effect> {
    if !AllowedIn(consent, Marketing) then []
    else Gtag(gtag, PurchaseGtagArgs(p)) + Fbq(fbq, PurchaseFbqArgs(p))
  }

  /** The arguments of the GA4 `purchase` event. */
  function PurchaseGtagArgs(p: Purchase): seq<Value> {
    var cur := p.currency.GetOr("USD");
    var items := p.items.GetOr([]);
    [Str("event"), Str("purchase"), Obj(map[
      "transaction_id" := Str(p.transactionId), "value" := Num(p.value),
      "currency" := Str(cur), "items" := Arr(ItemValues(items))])]
  }

  /** The arguments of the Meta Pixel `Purchase` event. */
  function PurchaseFbqArgs(p: Purchase): seq<Value> {
    var cur := p.currency.GetOr("USD");
    var items := p.items.GetOr([]);
    [Str("track"), Str("Purchase"), Obj(map[
      "value" := Num(p.value), "currency" := Str(cur),
      "content_ids" := Arr(ItemIds(items)), "content_type" := Str("product")])]
  }

  /** `signup(method)`, as written: the Meta Pixel call is gated on analytics only. */
  function SignupCalls(consent: Option<Record>, gtag: bool, fbq: bool, how: Option<string>): seq<Effect> {
    if !AllowedIn(consent, Analytics) then []
    else
      Gtag(gtag, [Str("event"), Str("sign_up"), Obj(map["method" := Str(OrElse(how, "email"))])])
      + Fbq(fbq, [Str("track"), Str("CompleteRegistration"), Obj(map["method" := OptionalValue(how)])])
  }

  /** `signup(method)` with the Meta Pixel call also gated on marketing, as every other
      Meta Pixel call of the core is. */
  function SignupCallsGated(consent: Option<Record>, gtag: bool, fbq: bool, how: Option<string>): seq<Effect> {
    if !AllowedIn(consent, Analytics) then []
    else
      Gtag(gtag, [Str("event"), Str("sign_up"), Obj(map["method" := Str(OrElse(how, "email"))])])
      + Fbq(fbq && AllowedIn(consent, Marketing),
            [Str("track"), Str("CompleteRegistration"), Obj(map["method" := OptionalValue(how)])])
  }

  /** The parameters `formSubmit` sends: `form_name`, then every field of `formData`,
      which wins on a clash. */
  function FormParams(formName: string, formData: Value): Value {
    Obj(map["form_name" := Str(formName)] + Spread(formData))
  }

  /** `formSubmit(formName, formData)`: its own gate, then `event('form_submit', ...)`. */
  function FormSubmitCalls(consent: Option<Record>, gtag: bool, va: bool, formName: string, formData: Value): seq<Effect> {
    if !AllowedIn(consent, Analytics) then []
    else EventCalls(consent, gtag, va, "form_submit", FormParams(formName, formData))
  }

  /** `buttonClick(buttonName, location)` */
  function ButtonClickCalls(consent: Option<Record>, gtag: bool, va: bool, buttonName: string, location: Option<string>): seq<Effect> {
    if !AllowedIn(consent, Analytics) then []
    else EventCalls(consent, gtag, va, "button_click",
      Obj(map["button_name" := Str(buttonName), "location" := OptionalValue(location)]))
  }

  /** `error(errorMessage, errorType)`: the type falls back to `unknown`. */
  function ErrorCalls(consent: Option<Record>, gtag: bool, va: bool, message: string, errorType: Option<string>): seq<Effect> {
    if !AllowedIn(consent, Analytics) then []
    else EventCalls(consent, gtag, va, "error",
      Obj(map["error_message" := Str(message), "error_type" := Str(OrElse(errorType, "unknown"))]))
  }

  /** The configuration `setUser` sends: `user_id`, then every field of `properties`. */
  function UserParams(userId: string, properties: Value): Value {
    Obj(map["user_id" := Str(userId)] + Spread(properties))
  }

  /** `setUser(userId, properties)`: a `config` call for the measurement id as it is set. */
  function SetUserCalls(consent: Option<Record>, env: Env, gtag: bool, userId: string, properties: Value): seq<Effect> {
    if !AllowedIn(consent, Analytics) then []
    else Gtag(gtag, [Str("config"), OptionalValue(env.gaMeasurementId), UserParams(userId, properties)])
  }

  // ---------------------------------------------------------------------------------
  // Properties

  /** An effect that is a call of one of the three vendor globals and nothing else. */
  predicate VendorCall(e: Effect, gtag: bool, fbq: bool, va: bool) {
    (e.GtagCall? && gtag) || (e.FbqCall? && fbq) || (e.VaCall? && va)
  }

  /** Without analytics consent none of the analytics calls reaches a vendor. */
  lemma AnalyticsGated(consent: Option<Record>, env: Env, gtag: bool, fbq: bool, va: bool,
                       s: string, o: Option<string>, v: Value)
    ensures !AllowedIn(consent, Analytics) ==>
      && PageViewCalls(consent, gtag, va, s, o) == []
      && EventCalls(consent, gtag, va, s, v) == []
      && SignupCalls(consent, gtag, fbq, o) == []
      && FormSubmitCalls(consent, gtag, va, s, v) == []
      && ButtonClickCalls(consent, gtag, va, s, o) == []
      && ErrorCalls(consent, gtag, va, s, o) == []
      && SetUserCalls(consent, env, gtag, s, v) == []
  {
  }

  /** Each analytics call reaches only the globals the window has, and loads nothing. */
  lemma AnalyticsVendors(consent: Option<Record>, env: Env, gtag: bool, fbq: bool, va: bool,
                         s: string, o: Option<string>, v: Value)
    ensures forall e :: e in PageViewCalls(consent, gtag, va, s, o) ==> VendorCall(e, gtag, false, va)
    ensures forall e :: e in EventCalls(consent, gtag, va, s, v) ==> VendorCall(e, gtag, false, va)
    ensures forall e :: e in FormSubmitCalls(consent, gtag, va, s, v) ==> VendorCall(e, gtag, false, va)
    ensures forall e :: e in ButtonClickCalls(consent, gtag, va, s, o) ==> VendorCall(e, gtag, false, va)
    ensures forall e :: e in ErrorCalls(consent, gtag, va, s, o) ==> VendorCall(e, gtag, false, va)
    ensures forall e :: e in SetUserCalls(consent, env, gtag, s, v) ==> VendorCall(e, gtag, false, false)
    ensures forall e :: e in SignupCalls(consent, gtag, fbq, o) ==> VendorCall(e, gtag, fbq, false)
  {
    EventVendors(consent, gtag, va, s, v);
    EventVendors(consent, gtag, va, "form_submit", FormParams(s, v));
    EventVendors(consent, gtag, va, "button_click", Obj(map["button_name" := Str(s), "location" := OptionalValue(o)]));
    EventVendors(consent, gtag, va, "error", Obj(map["error_message" := Str(s), "error_type" := Str(OrElse(o, "unknown"))]));
  }

  lemma EventVendors(consent: Option<Record>, gtag: bool, va: bool, name: string, params: Value)
    ensures forall e :: e in EventCalls(consent, gtag, va, name, params) ==> VendorCall(e, gtag, false, va)
  {
  }

  /** Without marketing consent no conversion or purchase is reported; with it, only to
      the globals the window has. */
  lemma MarketingGated(consent: Option<Record>, env: Env, gtag: bool, fbq: bool,
                       name: string, value: Option<real>, currency: Option<string>, p: Purchase)
    ensures !AllowedIn(consent, Marketing) ==>
      ConversionCalls(consent, env, gtag, fbq, name, value, currency) == [] && PurchaseCalls(consent, gtag, fbq, p) == []
    ensures forall e :: e in ConversionCalls(consent, env, gtag, fbq, name, value, currency) ==> VendorCall(e, gtag, fbq, false)
    ensures forall e :: e in PurchaseCalls(consent, gtag, fbq, p) ==> VendorCall(e, gtag, fbq, false)
  {
  }

  /** The Meta Pixel purchase lists the ids of the items in order, and both reports use
      the given currency or USD. */
  lemma PurchaseReport(consent: Option<Record>, p: Purchase)
    requires AllowedIn(consent, Marketing)
    ensures var es := PurchaseCalls(consent, true, true, p);
      var items := p.items.GetOr([]);
      && |es| == 2 && es[0].GtagCall? && es[1].FbqCall?
      && es[1].args[2].fields["content_ids"].items == ItemIds(items)
      && |ItemIds(items)| == |items|
      && (forall i :: 0 <= i < |items| ==> ItemIds(items)[i] == Str(items[i].id))
      && es[0].args[2].fields["currency"] == es[1].args[2].fields["currency"] == Str(p.currency.GetOr("USD"))
      && es[0].args[2].fields["items"].items == ItemValues(items)
  {
  }

  /** `formSubmit` reports every field of `formData` and `form_name` unless `formData`
      has one of its own. */
  lemma FormParamsFields(formName: string, formData: Value)
    ensures var f := FormParams(formName, formData).fields;
      && f.Keys == {"form_name"} + Spread(formData).Keys
      && (forall k :: k in Spread(formData) ==> f[k] == Spread(formData)[k])
      && ("form_name" !in Spread(formData) ==> f["form_name"] == Str(formName))
      && (!formData.Obj? && !formData.Arr? && !formData.Str? ==> f == map["form_name" := Str(formName)])
  {
  }

  /** `setUser` reports every field of `properties`, and `user_id` unless they have one. */
  lemma UserParamsFields(userId: string, properties: Value)
    ensures var f := UserParams(userId, properties).fields;
      && f.Keys == {"user_id"} + Spread(properties).Keys
      && (forall k :: k in Spread(properties) ==> f[k] == Spread(properties)[k])
      && ("user_id" !in Spread(properties) ==> f["user_id"] == Str(userId))
  {
  }

  /** The composite events are `event` under their fixed names once the outer gate passes:
      the inner gate asks the same question, so it never stops them. */
  lemma CompositeEvents(consent: Option<Record>, gtag: bool, va: bool, s: string, o: Option<string>, v: Value)
    requires AllowedIn(consent, Analytics) && gtag
    ensures FormSubmitCalls(consent, gtag, va, s, v)[0] == GtagCall([Str("event"), Str("form_submit"), FormParams(s, v)])
    ensures ButtonClickCalls(consent, gtag, va, s, o)[0].args[1] == Str("button_click")
    ensures ErrorCalls(consent, gtag, va, s, o)[0].args[1] == Str("error")
    ensures ErrorCalls(consent, gtag, va, s, o)[0].args[2].fields["error_type"] == Str(if IsSet(o) then o.value else "unknown")
  {
  }

  /** `sign_up` reports the method or `email` when it is missing or empty; the Meta Pixel
      gets the method exactly as passed. */
  lemma SignupMethod(consent: Option<Record>, how: Option<string>)
    requires AllowedIn(consent, Analytics)
    ensures var es := SignupCalls(consent, true, true, how);
      && |es| == 2
      && es[0].args[2].fields["method"] == Str(if how.Some? && how.value != "" then how.value else "email")
      && es[1].args[2].fields["method"] == (if how.Some? then Str(how.value) else Undefined)
  {
  }

  /** As written, `signup` reports a registration to the Meta Pixel with marketing
      refused: accept everything (the pixel loads), then keep only analytics. */
  lemma SignupReachesPixelWithoutMarketing()
    ensures var consent := Some(Record(Version, "", Categories(true, Some(false), Some(true), Some(false)), Preferences));
      && !AllowedIn(consent, Marketing)
      && FbqCall([Str("track"), Str("CompleteRegistration"), Obj(map["method" := Undefined])]) in SignupCalls(consent, false, true, None)
  {
    var consent := Some(Record(Version, "", Categories(true, Some(false), Some(true), Some(false)), Preferences));
    assert SignupCalls(consent, false, true, None)[0] == FbqCall([Str("track"), Str("CompleteRegistration"), Obj(map["method" := Undefined])]);
  }

  /** With the gate restored no Meta Pixel call happens without marketing consent, and the
      Google report is unchanged. */
  lemma SignupGatedPixel(consent: Option<Record>, gtag: bool, fbq: bool, how: Option<string>)
    ensures forall e :: e in SignupCallsGated(consent, gtag, fbq, how) && e.FbqCall? ==>
      AllowedIn(consent, Marketing) && AllowedIn(consent, Analytics)
    ensures forall e :: e in SignupCallsGated(consent, gtag, fbq, how) && e.GtagCall? ==>
      e in SignupCalls(consent, gtag, fbq, how)
    ensures AllowedIn(consent, Marketing) ==> SignupCallsGated(consent, gtag, fbq, how) == SignupCalls(consent, gtag, fbq, how)
  {
  }

  class Tracker {

    const mgr: Manager

    constructor (mgr: Manager)
      ensures this.mgr == mgr
    {
      this.mgr := mgr;
    }

    /** `analytics.pageView(url, title)` */
    method PageView(url: string, title: Option<string>)
      modifies mgr.win
      ensures mgr.win.effects == old(mgr.win.effects) + PageViewCalls(mgr.GetConsent(), mgr.win.gtag, mgr.win.va, url, title)
      ensures mgr.win.gtag == old(mgr.win.gtag) && mgr.win.fbq == old(mgr.win.fbq) && mgr.win.va == old(mgr.win.va)
      ensures mgr.win.googleTagManager == old(mgr.win.googleTagManager)
    {
      if !mgr.IsAllowed(Analytics) {
        return;
      }
      if mgr.win.gtag {
        mgr.win.effects := mgr.win.effects + [GtagCall([Str("event"), Str("page_view"),
          Obj(map["page_path" := Str(url), "page_title" := OptionalValue(title)])])];
      }
      if mgr.win.va {
        mgr.win.effects := mgr.win.effects + [VaCall([Str("pageview"), Obj(map["path" := Str(url)])])];
      }
    }

    /** `analytics.event(eventName, params)` */
    method Event(name: string, params: Value)
      modifies mgr.win
      ensures mgr.win.effects == old(mgr.win.effects) + EventCalls(mgr.GetConsent(), mgr.win.gtag, mgr.win.va, name, params)
      ensures mgr.win.gtag == old(mgr.win.gtag) && mgr.win.fbq == old(mgr.win.fbq) && mgr.win.va == old(mgr.win.va)
      ensures mgr.win.googleTagManager == old(mgr.win.googleTagManager)
    {
      if !mgr.IsAllowed(Analytics) {
        return;
      }
      if mgr.win.gtag {
        mgr.win.effects := mgr.win.effects + [GtagCall([Str("event"), Str(name), params])];
      }
      if mgr.win.va {
        mgr.win.effects := mgr.win.effects + [VaCall([Str("event"), Obj(map["name" := Str(name), "data" := params])])];
      }
    }

    /** `analytics.conversion(conversionName, value, currency)` */
    method Conversion(name: string, value: Option<real>, currency: Option<string>)
      modifies mgr.win
      ensures mgr.win.effects == old(mgr.win.effects)
        + ConversionCalls(mgr.GetConsent(), mgr.env, mgr.win.gtag, mgr.win.fbq, name, value, currency)
      ensures mgr.win.gtag == old(mgr.win.gtag) && mgr.win.fbq == old(mgr.win.fbq) && mgr.win.va == old(mgr.win.va)
      ensures mgr.win.googleTagManager == old(mgr.win.googleTagManager)
    {
      if !mgr.IsAllowed(Marketing) {
        return;
      }
      var cur := currency.GetOr("USD");
      if mgr.win.gtag {
        mgr.win.effects := mgr.win.effects + [GtagCall([Str("event"), Str("conversion"), Obj(map[
          "send_to" := OptionalValue(mgr.env.adsConversionId), "value" := OptionalNum(value),
          "currency" := Str(cur), "transaction_id" := Str("")])])];
      }
      if mgr.win.fbq {
        mgr.win.effects := mgr.win.effects + [FbqCall([Str("track"), Str(name),
          Obj(map["value" := OptionalNum(value), "currency" := Str(cur)])])];
      }
    }

    /** `analytics.purchase(params)` */
    method Purchase(p: Purchase)
      modifies mgr.win
      ensures mgr.win.effects == old(mgr.win.effects) + PurchaseCalls(mgr.GetConsent(), mgr.win.gtag, mgr.win.fbq, p)
      ensures mgr.win.gtag == old(mgr.win.gtag) && mgr.win.fbq == old(mgr.win.fbq) && mgr.win.va == old(mgr.win.va)
      ensures mgr.win.googleTagManager == old(mgr.win.googleTagManager)
    {
      if !mgr.IsAllowed(Marketing) {
        return;
      }
      if mgr.win.gtag {
        mgr.win.effects := mgr.win.effects + [GtagCall(PurchaseGtagArgs(p))];
      }
      if mgr.win.fbq {
        mgr.win.effects := mgr.win.effects + [FbqCall(PurchaseFbqArgs(p))];
      }
    }

    /** `analytics.signup(method)`, as written. */
    method Signup(how: Option<string>)
      modifies mgr.win
      ensures mgr.win.effects == old(mgr.win.effects) + SignupCalls(mgr.GetConsent(), mgr.win.gtag, mgr.win.fbq, how)
      ensures mgr.win.gtag == old(mgr.win.gtag) && mgr.win.fbq == old(mgr.win.fbq) && mgr.win.va == old(mgr.win.va)
      ensures mgr.win.googleTagManager == old(mgr.win.googleTagManager)
    {
      if !mgr.IsAllowed(Analytics) {
        return;
      }
      if mgr.win.gtag {
        mgr.win.effects := mgr.win.effects + [GtagCall([Str("event"), Str("sign_up"),
          Obj(map["method" := Str(OrElse(how, "email"))])])];
      }
      if mgr.win.fbq {
        mgr.win.effects := mgr.win.effects + [FbqCall([Str("track"), Str("CompleteRegistration"),
          Obj(map["method" := OptionalValue(how)])])];
      }
    }

    /** `analytics.formSubmit(formName, formData)` */
    method FormSubmit(formName: string, formData: Value)
      modifies mgr.win
      ensures mgr.win.effects == old(mgr.win.effects) + FormSubmitCalls(mgr.GetConsent(), mgr.win.gtag, mgr.win.va, formName, formData)
      ensures mgr.win.gtag == old(mgr.win.gtag) && mgr.win.fbq == old(mgr.win.fbq) && mgr.win.va == old(mgr.win.va)
      ensures mgr.win.googleTagManager == old(mgr.win.googleTagManager)
    {
      if !mgr.IsAllowed(Analytics) {
        return;
      }
      Event("form_submit", FormParams(formName, formData));
    }

    /** `analytics.buttonClick(buttonName, location)` */
    method ButtonClick(buttonName: string, location: Option<string>)
      modifies mgr.win
      ensures mgr.win.effects == old(mgr.win.effects) + ButtonClickCalls(mgr.GetConsent(), mgr.win.gtag, mgr.win.va, buttonName, location)
      ensures mgr.win.gtag == old(mgr.win.gtag) && mgr.win.fbq == old(mgr.win.fbq) && mgr.win.va == old(mgr.win.va)
      ensures mgr.win.googleTagManager == old(mgr.win.googleTagManager)
    {
      if !mgr.IsAllowed(Analytics) {
        return;
      }
      Event("button_click", Obj(map["button_name" := Str(buttonName), "location" := OptionalValue(location)]));
    }

    /** `analytics.error(errorMessage, errorType)` */
    method Error(message: string, errorType: Option<string>)
      modifies mgr.win
      ensures mgr.win.effects == old(mgr.win.effects) + ErrorCalls(mgr.GetConsent(), mgr.win.gtag, mgr.win.va, message, errorType)
      ensures mgr.win.gtag == old(mgr.win.gtag) && mgr.win.fbq == old(mgr.win.fbq) && mgr.win.va == old(mgr.win.va)
      ensures mgr.win.googleTagManager == old(mgr.win.googleTagManager)
    {
      if !mgr.IsAllowed(Analytics) {
        return;
      }
      Event("error", Obj(map["error_message" := Str(message), "error_type" := Str(OrElse(errorType, "unknown"))]));
    }

    /** `analytics.setUser(userId, properties)` */
    method SetUser(userId: string, properties: Value)
      modifies mgr.win
      ensures mgr.win.effects == old(mgr.win.effects) + SetUserCalls(mgr.GetConsent(), mgr.env, mgr.win.gtag, userId, properties)
      ensures mgr.win.gtag == old(mgr.win.gtag) && mgr.win.fbq == old(mgr.win.fbq) && mgr.win.va == old(mgr.win.va)
      ensures mgr.win.googleTagManager == old(mgr.win.googleTagManager)
    {
      if !mgr.IsAllowed(Analytics) {
        return;
      }
      if mgr.win.gtag {
        mgr.win.effects := mgr.win.effects + [GtagCall([Str("config"), OptionalValue(mgr.env.gaMeasurementId),
          UserParams(userId, properties)])];
      }
    }
  }
}
