# ai-dietitian core, modelled in Dafny

This project models the core of the ai-dietitian web application, a Next.js site that
sells a personalised diet plan. The core has five parts:

- **Consent engine.** The cookie consent record and its cookies (`cookie-manager.ts`), the
  tracker scripts it starts and stops, the consent hook and its server sync
  (`useCookieConsent.ts`, `api/consent/route.ts`), the preferences modal, and the
  consent-gated analytics facade (`analytics.ts`).
- **Region and legal gate.** The EU check (`geo.ts`, `api/geo/route.ts`), the legal and
  language cookies read in the browser, the middleware (`proxy.ts`), the banner wrapper,
  the first-visit language selector and the two language switchers.
- **Onboarding wizard.** The flow data (`wizard-data.ts`), the wizard hook
  (`use-wizard.ts`), the three selection inputs and the answer mapper
  (`wizard-mapper.ts`).
- **Validation and persistence.** The Zod schemas, field encryption (`crypto.ts`), the
  onboarding and submit server actions, and the Stripe webhook.
- **Messages.** The message loader of `i18n/request.ts`, including its deep merge.

The model splits into one module per source file, plus shared modules:

- `Wrappers`: `Option` and `Result`.
- `Text`: JavaScript string operations such as `split`, `trim`, `startsWith`,
  `includes`, ASCII upper case and number formatting.
- `Values`: JavaScript values and truthiness.
- `Browser`: the browser's cookie store as a `Jar` class, and a `Window` class holding
  the tracker globals and a log of effects.
- `Http`: request headers and JSON responses.

How each kind of source code is modelled:

- Code that mutates state is a class with `modifies` clauses, proved against an
  explicit specification function:
  - the cookie manager;
  - the hooks;
  - the modal;
  - the selectors and switchers;
  - the wizard hook.
- Pure decisions are functions with contracts, and lemmas relate them. Examples are
  the schemas, the mapper, the webhook dispatch and the middleware.
- Network calls, the database, the Stripe SDK, AES-GCM, time zones and timers are
  parameters: oracle functions, or the arguments of the method that models the event.

Where the natural reading of a file and its code disagree, the model follows the code.
For example, `saveProgress` stores the email in plain text and uses it as the upsert
key, while `submitWizardAction` keys its upsert on a freshly encrypted email. Because
every encryption draws a new IV (initialisation vector), a second submission of the
same address can never find the first row. `SubmitWizard.ResubmissionNeverMatches`
states this.

## Model

| member | source | states |
|---|---|---|
| ConsentRecord.Encode | src/lib/cookie-manager.ts:60-71 | `JSON.stringify` of the record, keys in the order built; `ParseEncode` and `EncodeInjective` state that it can be read back |
| ConsentRecord.Full | src/lib/cookie-manager.ts:55-58 | the stored categories set `essential` to true and copy the three optional choices exactly, absent ones staying absent |
| ConsentRecord.Parse | src/lib/cookie-manager.ts:33 | a text parses to a record only if re-encoding that record gives back the same text |
| ConsentRecord.ParseEncode | src/lib/cookie-manager.ts:60-71 | `JSON.parse` of the record's `JSON.stringify` text gives back the same record |
| ConsentRecord.EncodeInjective | src/lib/cookie-manager.ts:60-71 | two different records never encode to the same cookie text |
| ConsentRecord.UriDecodePlain | src/lib/cookie-manager.ts:33 | `decodeURIComponent` leaves a text without `%` unchanged |
| ConsentRecord.IsoTimestampPlain | src/lib/cookie-manager.ts:62 | an ISO timestamp holds no character that JSON escapes, that is a cookie separator, or that is white space |
| Browser.Lookup | src/lib/cookie-manager.ts:336-345 | the value the store holds for a name: nothing exactly when no cookie has the name, otherwise the value of a cookie of that name |
| Browser.Store | src/lib/cookie-manager.ts:350-366 | a `document.cookie` assignment: an expiry not in the future deletes, any other sets; `StoreLookup` and `StoreWellFormed` state it |
| Browser.Render | src/lib/cookie-manager.ts:336-345 | the `document.cookie` getter; `SplitRender` and `GetCookieRender` state how the readers take it apart |
| Browser.StoreLookup | src/lib/cookie-manager.ts:350-366 | after a cookie is written, reading it back gives the new value, or nothing if the expiry is past; every other cookie reads as before |
| Browser.StoreWellFormed | src/lib/cookie-manager.ts:350-366 | writing a valid name and value keeps the store free of duplicate names and of malformed entries |
| Browser.SplitRender | src/hooks/useHasLegalAcceptance.ts:9-14 | `document.cookie.split(';')` of the store's rendering gives one `name=value` piece per cookie, each after a blank except the first |
| Browser.Jar.Write | src/lib/cookie-manager.ts:350-357 | assigning `document.cookie` replaces or adds that one cookie, or deletes it when the expiry is past |
| CookieManager.GetCookie | src/lib/cookie-manager.ts:336-345 | `getCookie` on the text of `document.cookie`; `GetCookieRender` states what it returns on a rendered store |
| CookieManager.ConsentOf | src/lib/cookie-manager.ts:26-39 | `getConsent` on the text of `document.cookie`; `ConsentOfStored`, `ConsentAfterSet` and `ConsentAfterWithdraw` state it |
| CookieManager.ExpiryInFuture | src/lib/cookie-manager.ts:353-355 | a cookie set for one day or more expires after now |
| CookieManager.GetCookieRender | src/lib/cookie-manager.ts:336-345 | `getCookie(name)` on the rendered store returns the stored value, and null when the cookie is missing or its value is empty |
| CookieManager.StoreAllLookup | src/lib/cookie-manager.ts:142-150 | after the category cookies are written, each name reads as its last written value, and other names read as before |
| CookieManager.CategoryEntriesValid | src/lib/cookie-manager.ts:142-150 | the category cookies are `consent_<key>` for the keys present, with `true`/`false` values, and never touch `cookie_consent` or `legal_accepted` |
| CookieManager.EncodeClean | src/lib/cookie-manager.ts:67-71 | the JSON text of a record is a valid cookie value containing no `%` |
| CookieManager.RecordWritesLookup | src/lib/cookie-manager.ts:67-80 | after setConsent's three writes, the store reads `legal_accepted=true`, the category values, the record text under `cookie_consent`, and every other cookie as before |
| CookieManager.ConsentWritesLookup | src/lib/cookie-manager.ts:51-80 | the same read-back, stated for the record that setConsent builds |
| CookieManager.ConsentOfStored | src/lib/cookie-manager.ts:26-39 | `getConsent()` parses the stored `cookie_consent` text |
| CookieManager.ConsentAfterSet | src/lib/cookie-manager.ts:26-82 | after `setConsent`, `getConsent()` returns exactly the record that was written |
| CookieManager.AllowedAfterSet | src/lib/cookie-manager.ts:133-137 | after `setConsent`, `isAllowed(k)` holds exactly when category `k` was stored as true |
| CookieManager.DeleteLookup | src/lib/cookie-manager.ts:362-366 | `deleteCookie(name)` removes that cookie and no other |
| CookieManager.DeleteFiveLookup | src/lib/cookie-manager.ts:116-120 | five deletions in a row remove exactly those five names |
| CookieManager.WithdrawLookup | src/lib/cookie-manager.ts:115-128 | after `withdraw()`, the consent cookie and the four category cookies are gone; `legal_accepted` and the rest are kept |
| CookieManager.ConsentAfterWithdraw | src/lib/cookie-manager.ts:115-128 | after `withdraw()`, `getConsent()` returns null |
| CookieManager.AllowedAfterWithdraw | src/lib/cookie-manager.ts:133-137 | after `withdraw()`, only `essential` is allowed |
| ConsentTrackers.TriggerEffects | src/lib/cookie-manager.ts:155-184 | the effects of `triggerScripts`; `TriggerEnds`, `TriggerGated`, `TriggerRejected`, `TriggerAccepted` and `TriggerTwice` state them |
| ConsentTrackers.ClearEffects | src/lib/cookie-manager.ts:302-331 | the effects of `clearScripts`; `ClearSilences` states them |
| ConsentTrackers.PrefsFields | src/lib/cookie-manager.ts:159-163 | the event's `preferences` object has a key for each category present, holding that category's value |
| ConsentTrackers.TrackerShapes | src/lib/cookie-manager.ts:189-283 | each initializer does nothing without its id or when its global already exists; otherwise it emits GA4's three, GTM's two or the Pixel's three effects |
| ConsentTrackers.TriggerEnds | src/lib/cookie-manager.ts:155-184 | the update event is always dispatched first, and the Vercel event is last exactly when analytics is granted |
| ConsentTrackers.TriggerGated | src/lib/cookie-manager.ts:155-184 | no gtag call happens without analytics consent and no fbq call without marketing consent; no script is added without one of the two |
| ConsentTrackers.TriggerRejected | src/lib/cookie-manager.ts:155-184 | with analytics and marketing refused, only the update event is dispatched |
| ConsentTrackers.TriggerAccepted | src/lib/cookie-manager.ts:155-184 | with everything granted, all ids set and no globals yet, the three scripts load, the Pixel is initialised with its id, and ten effects result |
| ConsentTrackers.TriggerTwice | src/lib/cookie-manager.ts:189-283 | a second grant makes no further gtag or fbq call, because the globals exist |
| ConsentTrackers.GTMRepeats | src/lib/cookie-manager.ts:228 | the GTM guard reads a global the code never sets, so every grant loads the GTM script again |
| ConsentTrackers.ClearSilences | src/lib/cookie-manager.ts:302-331 | `clearScripts` denies GA storage only if gtag exists and revokes the Pixel only if fbq exists, then dispatches essential-only preferences; it loads nothing |
| ConsentManager.Manager.GetConsent | src/lib/cookie-manager.ts:26-39 | `getConsent()` of the window's store, `ConsentOf` of its rendering |
| ConsentManager.Manager.HasConsent | src/lib/cookie-manager.ts:44-46 | `hasConsent()`: a record is stored |
| ConsentManager.Manager.IsAllowed | src/lib/cookie-manager.ts:133-137 | `isAllowed(category)`; `AllowedAfterSet` and `AllowedAfterWithdraw` state it after each write |
| ConsentManager.Manager.SetCookie | src/lib/cookie-manager.ts:350-357 | the store after `setCookie` is the one write, expiring `days` later |
| ConsentManager.Manager.DeleteCookie | src/lib/cookie-manager.ts:362-366 | the store after `deleteCookie` is the write with a past expiry |
| ConsentManager.Manager.SetCategoryCookies | src/lib/cookie-manager.ts:142-150 | the store after the loop is `StoreAll` of the category entries |
| ConsentManager.Manager.InitializeGA4 | src/lib/cookie-manager.ts:189-216 | appends the GA4 effects and sets the gtag global as the guards allow; the other globals are unchanged |
| ConsentManager.Manager.InitializeGTM | src/lib/cookie-manager.ts:221-242 | appends the GTM effects; no global changes |
| ConsentManager.Manager.InitializeMetaPixel | src/lib/cookie-manager.ts:247-283 | appends the Pixel effects and sets fbq as the guards allow |
| ConsentManager.Manager.InitializeVercelAnalytics | src/lib/cookie-manager.ts:288-297 | dispatches `vercelAnalyticsConsent` and nothing else |
| ConsentManager.Manager.TriggerScripts | src/lib/cookie-manager.ts:155-184 | the effects and globals after `triggerScripts` are `TriggerEffects` of the old globals |
| ConsentManager.Manager.ClearScripts | src/lib/cookie-manager.ts:302-331 | the effects after `clearScripts` are `ClearEffects` of the old globals; no global changes |
| ConsentManager.Manager.SetConsent | src/lib/cookie-manager.ts:51-82 | the store is `ConsentWrites` of the record built from the choice, and the effects are `TriggerEffects` of the full preferences |
| ConsentManager.Manager.AcceptAll | src/lib/cookie-manager.ts:87-96 | setConsent with all three categories granted: the store holds the record, the effects are `triggerScripts`', `gtag` and `fbq` are defined afterwards exactly when they were before or their id is configured; `window.va` and `window.google_tag_manager` are unchanged |
| ConsentManager.Manager.RejectAll | src/lib/cookie-manager.ts:101-110 | setConsent with all three refused; the only effect is the update event, and all four globals are unchanged |
| ConsentManager.Manager.Withdraw | src/lib/cookie-manager.ts:115-128 | the store is `WithdrawWrites` of the old store, the effects are `ClearEffects` of the old globals, and all four globals are unchanged |
| Tracking.AnalyticsGated | src/lib/analytics.ts:14-194 | without analytics consent, pageView, event, signup, formSubmit, buttonClick, error and setUser make no call at all |
| Tracking.AnalyticsVendors | src/lib/analytics.ts:14-194 | the analytics calls reach only `gtag` and `va`, and only when the window has them; none reaches `fbq` except signup's |
| Tracking.EventVendors | src/lib/analytics.ts:36-50 | `event` calls only vendors that are present, and never the Pixel |
| Tracking.MarketingGated | src/lib/analytics.ts:55-118 | without marketing consent, conversion and purchase make no call; with it they reach only `gtag` and `fbq`, each only when present |
| Tracking.PurchaseReport | src/lib/analytics.ts:82-118 | a purchase sends GA4 the items and the Pixel the list of item ids in order, both with the given currency or `USD` |
| Tracking.FormParamsFields | src/lib/analytics.ts:146-153 | the form event's parameters are `form_name` plus every field of the form data, a form field of that name overriding it |
| Tracking.UserParamsFields | src/lib/analytics.ts:182-191 | the user parameters are `user_id` plus every given property, a property of that name overriding it |
| Tracking.CompositeEvents | src/lib/analytics.ts:146-177 | formSubmit, buttonClick and error go through `event` as `form_submit`, `button_click` and `error`, the error type defaulting to `unknown` |
| Tracking.SignupMethod | src/lib/analytics.ts:123-141 | GA4's sign-up method defaults to `email` when it is missing or empty; the Pixel gets it as given, undefined included |
| Tracking.SignupReachesPixelWithoutMarketing | src/lib/analytics.ts:123-141 | with analytics granted and marketing refused, signup still calls the Meta Pixel |
| Tracking.SignupGatedPixel | src/lib/analytics.ts:123-141 | the corrected signup calls the Pixel only with marketing consent, keeps GA4's call, and equals the original when marketing is granted |
| Tracking.Tracker.PageView | src/lib/analytics.ts:14-31 | the effects after `pageView` are `PageViewCalls` of the stored consent and the present vendors; `gtag`, `fbq`, `va` and `google_tag_manager` are all unchanged |
| Tracking.Tracker.Event | src/lib/analytics.ts:36-50 | the effects after `event` are `EventCalls`; `gtag`, `fbq`, `va` and `google_tag_manager` are all unchanged |
| Tracking.Tracker.Conversion | src/lib/analytics.ts:55-77 | the effects after `conversion` are `ConversionCalls`; `gtag`, `fbq`, `va` and `google_tag_manager` are all unchanged |
| Tracking.Tracker.Purchase | src/lib/analytics.ts:82-118 | the effects after `purchase` are `PurchaseCalls`; `gtag`, `fbq`, `va` and `google_tag_manager` are all unchanged |
| Tracking.Tracker.Signup | src/lib/analytics.ts:123-141 | the effects after `signup` are `SignupCalls`, as written; `gtag`, `fbq`, `va` and `google_tag_manager` are all unchanged |
| Tracking.Tracker.FormSubmit | src/lib/analytics.ts:146-153 | the effects after `formSubmit` are `FormSubmitCalls`; `gtag`, `fbq`, `va` and `google_tag_manager` are all unchanged |
| Tracking.Tracker.ButtonClick | src/lib/analytics.ts:158-165 | the effects after `buttonClick` are `ButtonClickCalls`; `gtag`, `fbq`, `va` and `google_tag_manager` are all unchanged |
| Tracking.Tracker.Error | src/lib/analytics.ts:170-177 | the effects after `error` are `ErrorCalls`; `gtag`, `fbq`, `va` and `google_tag_manager` are all unchanged |
| Tracking.Tracker.SetUser | src/lib/analytics.ts:182-194 | the effects after `setUser` are `SetUserCalls`; `gtag`, `fbq`, `va` and `google_tag_manager` are all unchanged |
| ConsentHook.Filled | src/hooks/useCookieConsent.ts:74-79 | the hook's copy of saved preferences has every category set: essential true, the given choices kept, missing ones false |
| ConsentHook.SyncRequest | src/hooks/useCookieConsent.ts:140-157 | the sync is a POST to `/api/consent` whose JSON body has exactly the three flags, absent ones as false, and version `1.0` |
| ConsentHook.FilledIsFull | src/hooks/useCookieConsent.ts:74-81 | the hook's copy equals what the cookie manager stores exactly when all three choices were given |
| ConsentHook.ConsentOfOtherWrite | src/hooks/useCookieConsent.ts:36-40 | the extra `legal_accepted` write leaves the stored consent record as it was |
| ConsentHook.DecisionReadBack | src/hooks/useCookieConsent.ts:22-97 | after a decision and the extra write, `getConsent()` returns the record written |
| ConsentHook.SavedAllows | src/hooks/useCookieConsent.ts:72-97 | after savePreferences, a category is allowed exactly when the hook's copy has it true |
| ConsentHook.DecidedAllows | src/hooks/useCookieConsent.ts:22-69 | after acceptAll every category is allowed; after rejectAll only essential |
| ConsentHook.Hook.Mount | src/hooks/useCookieConsent.ts:12-19 | loading ends; a stored record sets the preferences and marks consent given, otherwise the state is kept |
| ConsentHook.Hook.AcceptLegalAndSync | src/hooks/useCookieConsent.ts:36-43 | writes `legal_accepted=true` for a year and sends the sync request; no global changes |
| ConsentHook.Hook.Decide | src/hooks/useCookieConsent.ts:30-32 | forwards the choice to setConsent and records the hook's copy and consent given; `gtag` is defined afterwards when it was before, or when analytics is granted and its id is configured; the same for `fbq` with marketing; `va` and `google_tag_manager` are unchanged |
| ConsentHook.Hook.AcceptAll | src/hooks/useCookieConsent.ts:22-44 | the store is `DecisionWrites` of the all-granted record, the effects are the trackers' then the sync of all-true preferences; `gtag` and `fbq` are defined when their id is configured, `va` and `google_tag_manager` unchanged |
| ConsentHook.Hook.RejectAll | src/hooks/useCookieConsent.ts:47-69 | the store is `DecisionWrites` of the all-refused record, the effects the trackers' then the sync of essential only; all four globals are unchanged |
| ConsentHook.Hook.SavePreferences | src/hooks/useCookieConsent.ts:72-97 | the record stores the choices as given while the hook state and the sync use the filled copy; `gtag` is defined afterwards when it was before, or when analytics is granted and its id is configured; the same for `fbq` with marketing; `va` and `google_tag_manager` are unchanged |
| ConsentHook.Hook.WithdrawConsent | src/hooks/useCookieConsent.ts:100-115 | the store is `WithdrawWrites`, consent is no longer given, the effects are clearScripts' then the DELETE notice, and all four globals are unchanged |
| ConsentRoute.ClientAddress | src/app/api/consent/route.ts:44-47 | the address logged: the first set of `x-forwarded-for`, `cf-connecting-ip`, `x-real-ip`, else `unknown`; `AddressPrecedence` states the order |
| ConsentRoute.Get | src/app/api/consent/route.ts:4-26 | `GET` answers 200 with a fixed note whatever the headers |
| ConsentRoute.Post | src/app/api/consent/route.ts:28-74 | `POST`: 500 without a body object, 400 unless the three flags are booleans, else 200 and one audit entry; `PostOutcome`, `PostVersion` and `AuditBounded` state it |
| ConsentRoute.Delete | src/app/api/consent/route.ts:76-105 | `DELETE` always answers 200 and logs one withdrawal entry; `AuditBounded` bounds its address and agent |
| ConsentRoute.PostOutcome | src/app/api/consent/route.ts:28-74 | POST answers 200 exactly when the three flags are booleans, 500 exactly when there is no body object, 400 otherwise; it logs only on 200, with the flags as sent |
| ConsentRoute.PostVersion | src/app/api/consent/route.ts:56 | the logged version is the body's when truthy, else `1.0` |
| ConsentRoute.AuditBounded | src/app/api/consent/route.ts:57-58 | the logged address is a prefix of at most 50 characters and the agent one of at most 200 |
| ConsentRoute.AddressPrecedence | src/app/api/consent/route.ts:44-47 | the address is the first set header of `x-forwarded-for`, `cf-connecting-ip`, `x-real-ip`, else `unknown` |
| ConsentRoute.HookSyncAccepted | src/app/api/consent/route.ts:28-66 | the hook's sync request is always accepted and logs its three flags and version |
| PreferencesModal.SavedCopyIsRecord | src/components/CookiePreferencesModal.tsx:26-29 | the dialog always passes all three switches, so the stored record and the hook's copy agree |
| PreferencesModal.SaveAllowsSwitches | src/components/CookiePreferencesModal.tsx:26-29 | after saving, a category is allowed exactly when its switch is on |
| PreferencesModal.Modal.Open | src/components/CookiePreferencesModal.tsx:22-24 | opening shows the dialog and keeps its switches |
| PreferencesModal.Modal.Close | src/components/CookiePreferencesModal.tsx:68 | closing hides it and keeps its switches |
| PreferencesModal.Modal.BackdropClick | src/components/CookiePreferencesModal.tsx:49-53 | a click closes the dialog exactly when it lands on the backdrop itself |
| PreferencesModal.Modal.Flip | src/components/CookiePreferencesModal.tsx:129-185 | a switch flips its own category and no other |
| PreferencesModal.Modal.SelectAll | src/components/CookiePreferencesModal.tsx:31-35 | all three switches on, nothing saved |
| PreferencesModal.Modal.ClearAll | src/components/CookiePreferencesModal.tsx:37-41 | all three switches off, nothing saved |
| PreferencesModal.Modal.Save | src/components/CookiePreferencesModal.tsx:26-29 | saves the switches as preferences through the hook, so consent is given, then closes; `gtag` and `fbq` follow the analytics and marketing switches as in savePreferences, `va` and `google_tag_manager` are unchanged |
| PreferencesModal.Modal.AskWithdraw | src/components/CookiePreferencesModal.tsx:222 | shows the withdraw confirmation |
| PreferencesModal.Modal.CancelWithdraw | src/components/CookiePreferencesModal.tsx:252 | hides the confirmation, nothing withdrawn |
| PreferencesModal.Modal.ConfirmWithdraw | src/components/CookiePreferencesModal.tsx:43-47 | withdraws through the hook, hides the confirmation and closes: the store is `WithdrawWrites`, the effects are `ClearEffects` of the old globals then the DELETE notice, and all four globals are unchanged |
| Geo.IsEUCountry | src/lib/geo.ts:40-45 | `isEUCountry`: a non-empty code whose upper case is listed; `EUIgnoresCase` and `ListedIsEU` state it |
| Geo.ClientIP | src/lib/geo.ts:53-75 | `getClientIP`: the first trimmed entry of `x-forwarded-for` when that header is set, else `cf-connecting-ip`, else `x-real-ip`; `ForwardedForDecides` states the first case |
| Geo.CountryFromLookup | src/lib/geo.ts:82-108 | `getCountryFromIP`'s result for each kind of answer; `FailedLookupNotEU` and `LookupErrorIgnoresCountry` state the failing ones |
| Geo.ClientCountry | src/lib/geo.ts:115-132 | `getClientCountry`: the lookup's country when there is an address, else the CDN headers; `NoAddressNoLookup` states the second case |
| Geo.EUOf | src/lib/geo.ts:139-142 | `isEUCountry` applied to the country found: falsy is not EU, a string is checked, any other value throws |
| Geo.IsRequestFromEU | src/lib/geo.ts:139-142 | `isRequestFromEU`; `FromEUExactly` and `CountryListed` state when it is true |
| Geo.CountryListed | src/lib/geo.ts:139-142 | a request is from the EU exactly when the country found is a string whose upper case is listed |
| Geo.UpperIdempotent | src/lib/geo.ts:44 | upper-casing a code twice is the same as once |
| Geo.CodesCount | src/lib/geo.ts:3-31 | the list has the 27 member states and neither `GB` nor `UK` |
| Geo.CodesShape | src/lib/geo.ts:3-31 | every listed code is two upper-case letters |
| Geo.EUIgnoresCase | src/lib/geo.ts:40-45 | membership ignores the case of the code, and only two-character codes can be members |
| Geo.UpperOfLower | src/lib/geo.ts:44 | upper-casing a listed code or its lower-case form gives the listed code |
| Geo.ListedIsEU | src/lib/geo.ts:40-45 | every listed code is accepted, in upper or lower case |
| Geo.ForwardedForDecides | src/lib/geo.ts:53-60 | when `x-forwarded-for` is set it alone decides the address, which is its first comma-separated entry, trimmed |
| Geo.NoAddressNoLookup | src/lib/geo.ts:115-129 | without an address no lookup happens and the country comes from `cf-ipcountry`, then `x-country-code`, else null |
| Geo.FailedLookupNotEU | src/lib/geo.ts:82-108 | a failed or refused lookup gives no country, so the request is not from the EU |
| Geo.LookupErrorIgnoresCountry | src/lib/geo.ts:98-101 | an answer with a truthy `error` gives no country even when it names one |
| Geo.FromEUExactly | src/lib/geo.ts:82-142 | without an address, from the EU exactly when a CDN country header is set and listed in upper case; with one, exactly when the lookup answered with JSON, no truthy `error`, and a string `country_code` (else `countryCode`) whose upper case is listed |
| GeoRoute.GeoGet | src/app/api/geo/route.ts:9-37 | `GET /api/geo`; `GeoAnswer`, `GeoCaching` and `GeoAgreesWithCheck` state its answer, caching and agreement with `isRequestFromEU` |
| GeoRoute.GeoAnswer | src/app/api/geo/route.ts:9-37 | the answer is always 200 with `countryCode` and `isInEU`, the flag true exactly for a listed country; the error form, with null and false, comes exactly when the check throws |
| GeoRoute.GeoCaching | src/app/api/geo/route.ts:21 | the hour-long cache header is set exactly on the normal answer |
| GeoRoute.GeoAgreesWithCheck | src/app/api/geo/route.ts:12-13 | when the check does not throw, the route's flag is `isRequestFromEU`'s |
| LegalCookies.HasLegalAcceptance | src/hooks/useHasLegalAcceptance.ts:5-19 | the hook's answer on the text of `document.cookie`; `LegalAcceptanceOfStore` states it for every store |
| LegalCookies.HasLanguageCookie | src/hooks/useHasLanguageCookie.ts:5-17 | the hook's answer on the text of `document.cookie`; `LanguageCookieOfStore` states it for every store |
| LegalCookies.PiecesAt | src/hooks/useHasLegalAcceptance.ts:10 | each piece of the split cookie string is one `name=value`, after a blank except the first |
| LegalCookies.PairUnpadded | src/hooks/useHasLegalAcceptance.ts:12 | a stored `name=value` pair has no white space at either end |
| LegalCookies.EntryTrim | src/hooks/useHasLegalAcceptance.ts:12 | trimming a piece gives back exactly the stored pair |
| LegalCookies.EntrySplit | src/hooks/useHasLegalAcceptance.ts:12 | splitting a pair at `=` gives the name, then the value's own pieces |
| LegalCookies.FirstPieceEmpty | src/hooks/useHasLegalAcceptance.ts:12 | the first piece of a split is empty exactly when the text is empty or starts with the separator |
| LegalCookies.PairAccepts | src/hooks/useHasLegalAcceptance.ts:11-14 | a piece passes exactly when its name is `legal_accepted` and its value is neither empty nor starts with `=` |
| LegalCookies.StoredEntryAccepts | src/hooks/useHasLegalAcceptance.ts:11-14 | the same, for the i-th piece of a stored cookie string |
| LegalCookies.LocaleNoEquals | src/hooks/useHasLanguageCookie.ts:11 | the name `NEXT_LOCALE` holds no `=` |
| LegalCookies.StoredEntryIsLocale | src/hooks/useHasLanguageCookie.ts:10-12 | the i-th piece starts with `NEXT_LOCALE=` exactly when that cookie is `NEXT_LOCALE` |
| LegalCookies.LookupAt | src/hooks/useHasLegalAcceptance.ts:10-14 | in a store without duplicate names, looking up a cookie's name gives its value |
| LegalCookies.LegalAcceptanceOfStore | src/hooks/useHasLegalAcceptance.ts:8-16 | the hook finds acceptance exactly when `legal_accepted` is stored with a value that is not empty and does not start with `=` |
| LegalCookies.LanguageCookieOfStore | src/hooks/useHasLanguageCookie.ts:8-14 | the hook finds the language cookie exactly when `NEXT_LOCALE` is stored, whatever its value |
| LegalCookies.EmptyValueRefused | src/hooks/useHasLegalAcceptance.ts:13 | `legal_accepted=` does not count as acceptance |
| LegalCookies.EmptyValueRefusedFor | src/hooks/useHasLegalAcceptance.ts:13 | no `name=` piece with an empty value counts |
| LegalCookies.BareNameAccepted | src/hooks/useHasLegalAcceptance.ts:12-13 | a bare `legal_accepted` without `=` counts, because the missing value is undefined, not empty |
| LegalCookies.SecondEqualsCuts | src/hooks/useHasLegalAcceptance.ts:12 | a value starting with `=` is cut to the empty piece and refused |
| LegalCookies.LeadingEqualsRefused | src/hooks/useHasLegalAcceptance.ts:12-13 | the same for any valid name |
| LegalCookies.EmptyDocument | src/hooks/useHasLegalAcceptance.ts:10-14 | an empty cookie string has neither cookie |
| LegalCookies.EmptyLocaleCounts | src/hooks/useHasLanguageCookie.ts:10-12 | `NEXT_LOCALE=` with an empty value counts as a language cookie |
| LocalePath.LocaleSegment | src/components/LanguageSelectorPopup.tsx:108 | the two-letter locale segment a path starts with; `LocaleSegmentExact` and `LocaleSegmentShape` state it |
| LocalePath.LocaleSegmentExact | src/components/LanguageSelectorPopup.tsx:108 | the pattern matches a two-letter locale exactly on `/<l>` and on paths starting `/<l>/` |
| LocalePath.LocaleSegmentShape | src/components/LegalPageLanguageSwitcher.tsx:17 | a match is two lower-case letters that form the whole first segment |
| LocalePath.LanguagesMatch | src/components/LanguageSelectorPopup.tsx:24-28 | each offered language is two lower-case letters and matches its own home path |
| Proxy.Handle | src/proxy.ts:14-67 | `proxy(request)`: the locale middleware's answer, else the request goes on, with the locale cookie refreshed on a non-legal page whose first segment is a configured locale once legal terms are accepted; `NeverBlocks` and `LocaleCookieExactly` state it |
| Proxy.NeverBlocks | src/proxy.ts:14-67 | the locale middleware's answer is passed through; otherwise the request goes on, never to a block or redirect of its own |
| Proxy.LocaleCookieExactly | src/proxy.ts:32-66 | `NEXT_LOCALE` is set, for a year on `/` with lax same-site, exactly on non-legal pages with a non-empty `legal_accepted` and a configured first segment, which is its value |
| Proxy.LegalPagesKeepLocale | src/proxy.ts:35-52 | a legal page never touches the locale cookie |
| Proxy.FragmentMakesLegal | src/proxy.ts:35-39 | any of the five fragments anywhere in the path makes it a legal page |
| Proxy.FirstSegmentOfPrefixed | src/proxy.ts:32 | `pathname.split('/')[1]` of `/<l><rest>` is `l` |
| Proxy.ServerAgreesWithBrowser | src/proxy.ts:42-43 | acceptance found by the browser hook is also found by the middleware, and the converse holds unless the value starts with `=` |
| LegalSwitcher.SwapLocale | src/components/LegalPageLanguageSwitcher.tsx:27-36 | the path after choosing a locale on a legal page; `SwapKeepsRest`, `SwapRoundTrip` and `SwapWithoutSegment` state it |
| LegalSwitcher.Others | src/components/LegalPageLanguageSwitcher.tsx:46-47 | the offered languages are exactly the known ones other than the current |
| LegalSwitcher.SwapKeepsRest | src/components/LegalPageLanguageSwitcher.tsx:33 | the rewrite replaces the locale segment and keeps the rest of the path |
| LegalSwitcher.SwapRoundTrip | src/components/LegalPageLanguageSwitcher.tsx:33 | swapping to another two-letter locale and back restores the path, and the new path matches the new locale |
| LegalSwitcher.SwapWithoutSegment | src/components/LegalPageLanguageSwitcher.tsx:33 | a path without a locale segment is left unchanged |
| LegalSwitcher.SwitchersAgreeOnSegments | src/components/LegalPageLanguageSwitcher.tsx:33 | on a path with a locale segment this rewrite and the dropdown's agree |
| LegalSwitcher.OffersTheOthers | src/components/LegalPageLanguageSwitcher.tsx:46-47 | for a known current locale exactly the two other languages are offered |
| LegalSwitcher.Switcher.Mount | src/components/LegalPageLanguageSwitcher.tsx:16-19 | the current locale is the path's matched segment, or `en` |
| LegalSwitcher.Switcher.ChooseLocale | src/components/LegalPageLanguageSwitcher.tsx:27-36 | the one effect is navigation to the swapped path |
| LegalSwitcher.Switcher.BackToHome | src/components/LegalPageLanguageSwitcher.tsx:38-40 | the one effect replaces the location with `/<current>/` |
| LanguageSwitcher.CurrentLocale | src/components/LanguageSwitcher.tsx:29 | the locale shown as current; `CurrentOfPrefixed` and `CurrentOfUnprefixed` state it |
| LanguageSwitcher.SwitchPath | src/components/LanguageSwitcher.tsx:44-51 | the path after choosing a locale; `SwitchIgnoresBoundary` and `SwitchRoundTrip` state it |
| LanguageSwitcher.FirstPrefixed | src/components/LanguageSwitcher.tsx:29 | the result is the first language whose `/<code>` starts the path, and none only when no code does |
| LanguageSwitcher.SameLengthPrefixes | src/components/LanguageSwitcher.tsx:29 | two prefixes of one length of a path are equal |
| LanguageSwitcher.CurrentOfPrefixed | src/components/LanguageSwitcher.tsx:29 | a path starting `/<l>` for an offered `l` shows `l` |
| LanguageSwitcher.CurrentOfUnprefixed | src/components/LanguageSwitcher.tsx:29 | a path starting with no offered code shows English |
| LanguageSwitcher.SwitchIgnoresBoundary | src/components/LanguageSwitcher.tsx:49 | any two lower-case letters after the leading `/` are replaced, segment or not |
| LanguageSwitcher.SwitchRoundTrip | src/components/LanguageSwitcher.tsx:44-51 | switching between offered languages and back restores the path, and the new path shows the new language |
| LanguageSwitcher.HomePages | src/components/LanguageSwitcher.tsx:32 | the home page is `/<l>` or `/<l>/` and nothing deeper |
| LanguageSwitcher.Switcher.Toggle | src/components/LanguageSwitcher.tsx:63 | the button flips the dropdown |
| LanguageSwitcher.Switcher.MouseDown | src/components/LanguageSwitcher.tsx:34-42 | a press outside closes the dropdown; inside it changes nothing |
| LanguageSwitcher.Switcher.ChooseLocale | src/components/LanguageSwitcher.tsx:44-51 | the current locale only closes the dropdown; another navigates to the rewritten path |
| LanguageSwitcher.Switcher.BackToHome | src/components/LanguageSwitcher.tsx:53-55 | navigates to `/<current>` |
| LanguagePopup.IsInEU | src/components/LanguageSelectorPopup.tsx:89-96 | `isInEU()`: exact membership of the resolved zone; `ZoneListBeyondEU` states how the list differs from the member states |
| LanguagePopup.ZoneListBeyondEU | src/components/LanguageSelectorPopup.tsx:31-96 | London counts as European for the selector while the United Kingdom is not in the member-state list |
| LanguagePopup.GdprLinks | src/components/LanguageSelectorPopup.tsx:183-217 | the privacy and cookie links always come first; the terms and data-protection links appear exactly with the GDPR wording |
| LanguagePopup.ChoiceAccepts | src/components/LanguageSelectorPopup.tsx:124-140 | after a choice both cookies read back as written, and the browser hooks and the middleware see acceptance |
| LanguagePopup.ChosenNotShownAgain | src/components/LanguageSelectorPopup.tsx:143-145 | after a choice the selector finds acceptance and renders nothing |
| LanguagePopup.ChoiceUnlocksLocaleCookie | src/proxy.ts:54-64 | after a choice the middleware stores the chosen language on the next ordinary page under it |
| LanguagePopup.Selector.constructor | src/components/LanguageSelectorPopup.tsx:99-104 | the first render: not accepted, hidden, no GDPR links, English |
| LanguagePopup.Selector.Mount | src/components/LanguageSelectorPopup.tsx:106-122 | reads acceptance, takes any two-letter first segment as the locale, and starts the timer exactly when acceptance is absent |
| LanguagePopup.Selector.TimerFires | src/components/LanguageSelectorPopup.tsx:115-119 | the selector shows, with the GDPR links exactly for a listed time zone |
| LanguagePopup.Selector.Select | src/components/LanguageSelectorPopup.tsx:124-140 | writes the language and the acceptance time for a year, hides the selector and loads `/<locale><path>` |
| ConsentWrapper.Wrapper | src/components/CookieConsentWrapper.tsx:6-23 | the banner, except on legal pages; `SkippedPagesAreLegal` and `OtherLanguageLegalShowsBanner` compare it with the middleware |
| ConsentWrapper.SkippedPagesAreLegal | src/components/CookieConsentWrapper.tsx:10-20 | every page without the banner is one the middleware treats as legal |
| ConsentWrapper.OtherLanguageLegalShowsBanner | src/components/CookieConsentWrapper.tsx:10-22 | `/fr/legal` shows the banner although the middleware treats it as legal |
| I18nRequest.ResolveLocale | src/i18n/request.ts:27-32 | the requested locale when configured and non-empty, else the default; `ResolveLocaleChoice` states it |
| I18nRequest.DeepMerge | src/i18n/request.ts:13-23 | `deepMerge` as a recursive definition; `Merge` is its loop, and `MergeCovers`, `CoveredUnchanged`, `MergeIdempotent` and `MergeCommutes` state its properties |
| I18nRequest.Messages | src/i18n/request.ts:35-51 | the loaded messages, the legal files merged over the root in arrival order; `MessagesAppend`, `LayersCommute` and `ArrivalOrderIrrelevant` state it |
| I18nRequest.OverlayStep | src/i18n/request.ts:15-21 | assigning one more key of the loop extends the partial result by that key |
| I18nRequest.EntryBeforeAssigned | src/i18n/request.ts:16-17 | an entry read while the loop runs sees the target's value under its key, because each key is assigned once |
| I18nRequest.OverlayEnds | src/i18n/request.ts:13-23 | the loop starts from a copy of the target and ends at the merge |
| I18nRequest.Merge | src/i18n/request.ts:13-23 | the loop over the source's keys computes `DeepMerge` |
| I18nRequest.MergeEntry | src/i18n/request.ts:16-20 | one key: a truthy non-array object is merged into the old value or `{}`, anything else replaces it |
| I18nRequest.ResolveLocaleChoice | src/i18n/request.ts:27-32 | a configured, non-empty requested locale is kept; anything else falls back to the default, which is then stable |
| I18nRequest.MergeKeys | src/i18n/request.ts:13-23 | the merge has the keys of both sides, keeps target values the source lacks, and takes source leaves as they are |
| I18nRequest.MergeAt | src/i18n/request.ts:13-23 | the merge's value under one key is the entry for the source's value, or the target's when the source lacks the key |
| I18nRequest.EntrySameBase | src/i18n/request.ts:17 | an entry depends on the target only through the value under its own key |
| I18nRequest.MergeNothing | src/i18n/request.ts:15 | a source without own keys leaves a copy of the target |
| I18nRequest.DateBecomesObject | src/i18n/request.ts:16-17 | a `Date` in the source counts as an object and is replaced by the spread of the old value |
| I18nRequest.MergeCovers | src/i18n/request.ts:13-23 | after the merge every leaf of the source is present at its path |
| I18nRequest.EntryCovers | src/i18n/request.ts:16-20 | the same for one entry |
| I18nRequest.CoveredUnchanged | src/i18n/request.ts:13-23 | merging a source into a result that already covers it changes nothing |
| I18nRequest.EntryUnchanged | src/i18n/request.ts:16-20 | the same for one entry |
| I18nRequest.MergeIdempotent | src/i18n/request.ts:13-23 | merging the same source twice is merging it once |
| I18nRequest.MergeCommutes | src/i18n/request.ts:13-23 | two sources with disjoint top-level keys merge to the same messages in either order |
| I18nRequest.MessagesAppend | src/i18n/request.ts:38-51 | loading files one after another composes: the messages after `p + q` are those after `q` laid over those after `p` |
| I18nRequest.TwoLayers | src/i18n/request.ts:40-49 | two arrivals lay their files one after the other; a missing file is skipped |
| I18nRequest.LayersCommute | src/i18n/request.ts:40-49 | two files with disjoint namespaces lay in either order to the same messages |
| I18nRequest.ArrivalOrderIrrelevant | src/i18n/request.ts:40-51 | swapping two such files anywhere in the order the imports resolve gives the same messages |
| Crypto.GetKey | src/lib/crypto.ts:14-34 | `getKey`; `KeyPaths` and `GeneratedKeyAccepted` state its two decoding paths, its refusals and the key length |
| Crypto.Encrypt | src/lib/crypto.ts:42-56 | `encrypt`; `EmptyRejected`, `EncryptIsEncrypted`, `FreshIvsDiffer` and `RoundTrip` state its refusal, its format and its inverse |
| Crypto.Decrypt | src/lib/crypto.ts:64-105 | `decrypt`; `RoundTrip`, `FormatBeforeCipher` and `DecryptedWasEncrypted` state its inverse and its checks |
| Crypto.IsEncrypted | src/lib/crypto.ts:121-140 | `isEncrypted`; `EncryptedFormat` and `EmptyContentPassesCheck` state what it accepts |
| Crypto.SafeDecrypt | src/lib/crypto.ts:148-158 | `safeDecrypt`; `SafeDecryptCases` states that text not in the encrypted format comes back as it is and the rest goes to `decrypt` |
| Crypto.HexChar | src/lib/crypto.ts:55 | a nibble becomes a hex digit, never the separator |
| Crypto.HexValue | src/lib/crypto.ts:89-91 | a hex digit of either case reads as a nibble |
| Crypto.ToHex | src/lib/crypto.ts:55 | two hex digits per byte, no separator |
| Crypto.FromHex | src/lib/crypto.ts:89-91 | one byte per pair of digits |
| Crypto.GenerateKey | src/lib/crypto.ts:111-113 | a generated key is 64 hex digits |
| Crypto.GeneratedKeyAccepted | src/lib/crypto.ts:14-34 | a generated key takes the hex path and gives back the bytes drawn |
| Crypto.HexRoundTrip | src/lib/crypto.ts:55-91 | reading the hex of some bytes gives back those bytes |
| Crypto.HexInjective | src/lib/crypto.ts:55 | different bytes have different hex forms |
| Crypto.FormatParts | src/lib/crypto.ts:55-76 | the output splits at `:` into exactly the three hex parts |
| Crypto.EmptyRejected | src/lib/crypto.ts:43-67 | both operations refuse the empty string before reading the key |
| Crypto.KeyPaths | src/lib/crypto.ts:14-34 | unset or empty is refused; 64 hex digits take the hex path; anything else the Base64 path; a success has 32 bytes |
| Crypto.EncryptedFormat | src/lib/crypto.ts:121-140 | a 12-byte IV and a 16-byte tag give a value `isEncrypted` accepts |
| Crypto.EncryptIsEncrypted | src/lib/crypto.ts:42-56 | every successful encryption is recognised as encrypted |
| Crypto.RoundTrip | src/lib/crypto.ts:42-105 | on a non-empty text with a valid key, decrypting the encryption gives the text back, for any cipher that opens what it seals |
| Crypto.FreshIvsDiffer | src/lib/crypto.ts:48-55 | two encryptions with different IVs never give the same text, even of the same plain text |
| Crypto.FormatBeforeCipher | src/lib/crypto.ts:70-87 | a malformed value is refused before the cipher is consulted |
| Crypto.DecryptedWasEncrypted | src/lib/crypto.ts:64-105 | whatever decrypts was in the encrypted format |
| Crypto.SafeDecryptCases | src/lib/crypto.ts:148-158 | a value not in the encrypted format comes back unchanged; one in it goes through `decrypt` |
| Crypto.EmptyContentPassesCheck | src/lib/crypto.ts:121-158 | an encrypted-looking value with empty content passes `isEncrypted` but `safeDecrypt` fails on it |
| Selection.Toggle | src/components/wizard/inputs/SearchList.tsx:38-45 | add a value if absent, else remove every copy; `ToggleMembership`, `ToggleKeepsOthers` and `ToggleTwice` state it |
| Selection.Without | src/components/wizard/inputs/SearchList.tsx:48 | filtering out a value keeps exactly the other values |
| Selection.WithoutAbsent | src/components/wizard/inputs/SearchList.tsx:48 | filtering out an absent value changes nothing |
| Selection.WithoutAppend | src/components/wizard/inputs/SearchList.tsx:48 | filtering distributes over concatenation |
| Selection.WithoutCommutes | src/components/wizard/inputs/SearchList.tsx:48 | filtering out two values commutes, and filtering twice is filtering once |
| Selection.ToggleMembership | src/components/wizard/inputs/SearchList.tsx:38-45 | a toggle makes the value present exactly when it was absent, and leaves other values' presence alone |
| Selection.ToggleKeepsOthers | src/components/wizard/inputs/SearchList.tsx:38-45 | a toggle keeps the other values in their order |
| Selection.ToggleTwice | src/components/wizard/inputs/SearchList.tsx:38-45 | toggling an absent value twice restores the list |
| Selection.ToggleTwicePresent | src/components/wizard/inputs/SearchList.tsx:38-45 | toggling a present value twice removes all of its copies and appends one at the end |
| CardSelector.HandleSelect | src/components/wizard/inputs/CardSelector.tsx:34-46 | what a card click passes to `onChange`; `SingleSelects` and `MultiFlips` state each mode |
| CardSelector.InheritedNameFound | src/components/wizard/inputs/CardSelector.tsx:104-139 | `constructor` is not in the table, yet the lookup finds the inherited value instead of nothing |
| CardSelector.LucideIcon | src/components/wizard/inputs/CardSelector.tsx:104-139 | a name in the icon table draws that icon; a name inherited from `Object.prototype` finds that inherited, non-icon value; every other name, and a missing one, finds nothing |
| CardSelector.SingleSelects | src/components/wizard/inputs/CardSelector.tsx:27-46 | in single-select mode a click selects that card's value, and only cards with the same text then count as selected |
| CardSelector.MultiFlips | src/components/wizard/inputs/CardSelector.tsx:27-46 | in multi-select mode a click flips its own card and no other |
| CardSelector.MultiFromString | src/components/wizard/inputs/CardSelector.tsx:37-41 | a single value in multi-select mode is dropped and the click starts a new list |
| CardSelector.MultiKeepsOrder | src/components/wizard/inputs/CardSelector.tsx:37-41 | the other selected values keep their order |
| CardSelector.WizardIconsMissing | src/components/wizard/inputs/CardSelector.tsx:104-139 | a missing, empty or unknown name draws no icon, a known one draws itself |
| ImageGrid.HandleToggle | src/components/wizard/inputs/ImageGrid.tsx:28-35 | what a tile click passes to `onChange`; `ToggleFlips`, `ToggleShape` and `ToggleOrder` state it |
| ImageGrid.ToggleFlips | src/components/wizard/inputs/ImageGrid.tsx:24-35 | a click flips its own picture and no other |
| ImageGrid.ToggleShape | src/components/wizard/inputs/ImageGrid.tsx:28-35 | a selected picture is removed entirely; an unselected one is appended |
| ImageGrid.ToggleOrder | src/components/wizard/inputs/ImageGrid.tsx:28-35 | the other values keep their order, and selecting then unselecting restores the list |
| ImageGrid.AgreesWithCards | src/components/wizard/inputs/ImageGrid.tsx:24-35 | the picture grid behaves as the card selector in multi-select mode |
| SearchList.Badge | src/components/wizard/inputs/SearchList.tsx:60-68 | a chip's text; `BadgeFallsBack` and `BadgeRaw` state it |
| SearchList.SelectedOption | src/components/wizard/inputs/SearchList.tsx:51-53 | the badge's option is the first whose value text is the badge's value, none only when no option has it |
| SearchList.Combobox.Focus | src/components/wizard/inputs/SearchList.tsx:85 | focus opens the list |
| SearchList.Combobox.BlurTimerFires | src/components/wizard/inputs/SearchList.tsx:86 | the blur timer closes it |
| SearchList.Combobox.HandleSelect | src/components/wizard/inputs/SearchList.tsx:38-45 | a pick emits the toggled list and closes |
| SearchList.Combobox.HandleRemove | src/components/wizard/inputs/SearchList.tsx:47-49 | the emitted list lacks the removed value, keeps every other in order, and is the old list when the value was absent |
| SearchList.SelectFlips | src/components/wizard/inputs/SearchList.tsx:38-45 | a pick flips its value and leaves the others in order |
| SearchList.BadgeFallsBack | src/components/wizard/inputs/SearchList.tsx:60-68 | a value that an option has shows that first option's translated label |
| SearchList.BadgeRaw | src/components/wizard/inputs/SearchList.tsx:60-68 | a value no option has shows as it is |
| WizardData.Flatten | src/config/wizard-data.ts:358-360 | the phases' steps in order; `FlattenAt` and `FlattenLength` state where each step lands |
| WizardData.AllSteps | src/config/wizard-data.ts:358-360 | `getAllSteps`: `Flatten` of the phases |
| WizardData.TotalSteps | src/config/wizard-data.ts:372-374 | `getTotalSteps`: the flattened length; `FlattenLength` states it |
| WizardData.StepIndex | src/config/wizard-data.ts:379-382 | `getStepIndex`; `IndexOfFirst` states it is the first step with the id, or -1 |
| WizardData.FindStepById | src/config/wizard-data.ts:365-367 | `findStepById`; `FindAgreesWithIndex` ties it to `StepIndex` |
| WizardData.IndexOf | src/config/wizard-data.ts:379-382 | `findIndex` gives -1 or a position in the list |
| WizardData.FlattenAt | src/config/wizard-data.ts:358-360 | step `s` of phase `p` sits at position steps-before-`p` plus `s` of the flattened list |
| WizardData.FlattenLength | src/config/wizard-data.ts:358-377 | the flattened list is as long as all the phases' steps together |
| WizardData.ShiftedBefore | src/config/wizard-data.ts:358-360 | the steps before phase `p` are the first phase's plus those before `p-1` in the rest |
| WizardData.StepsBeforeGrows | src/config/wizard-data.ts:358-360 | the count of earlier steps grows with the phase, by at least that phase's steps |
| WizardData.IndexOfFirst | src/config/wizard-data.ts:379-382 | the index is -1 exactly when no step has the id, and otherwise the first step that has it |
| WizardData.FindAgreesWithIndex | src/config/wizard-data.ts:365-382 | `findStepById` finds nothing exactly when `getStepIndex` is -1, and otherwise the step at that index |
| WizardData.DataShape | src/config/wizard-data.ts:296-349 | six phases with 2, 4, 2, 2, 1 and 2 steps, thirteen in all |
| WizardData.FlattenCons | src/config/wizard-data.ts:358-360 | flattening is the first phase's steps followed by the rest flattened |
| WizardData.DataFlat | src/config/wizard-data.ts:345-360 | the flattened configuration is the thirteen steps in phase order |
| WizardData.StepsGrouped | src/config/wizard-data.ts:296-340 | the thirteen steps are those of the six phases, in order |
| WizardData.StepIdAt | src/config/wizard-data.ts:167-286 | the i-th step's id is the i-th listed id |
| WizardData.IdKeysDistinct | src/config/wizard-data.ts:167-286 | the listed ids are pairwise distinct |
| WizardData.DataIdsDistinct | src/config/wizard-data.ts:167-349 | no two steps of the configuration share an id |
| WizardData.SlidersOrdered | src/config/wizard-data.ts:198-249 | every slider's minimum is below its maximum |
| WizardData.LeadCaptureFirst | src/config/wizard-data.ts:296-305 | the wizard opens with the lead-capture phase, asking name then email |
| WizardMapper.MapWizardToUser | src/lib/wizard-mapper.ts:10-68 | `mapWizardToUser`; `CopiedFields`, `BlacklistOfLists`, `BlacklistOfScalars`, `AllergiesList` and `UnaskedFields` state each field |
| WizardMapper.Items | src/lib/wizard-mapper.ts:23-28 | a list answer's items become text answers, in order |
| WizardMapper.CopiedFields | src/lib/wizard-mapper.ts:10-68 | name, email, kitchen habits, lifestyle and body metrics are copied from their answers as they are |
| WizardMapper.BlacklistOfLists | src/lib/wizard-mapper.ts:22-29 | with two list answers the blacklist is the hated foods followed by the exclusions |
| WizardMapper.BlacklistOfScalars | src/lib/wizard-mapper.ts:22-29 | with no list answers the blacklist is the hated-foods answer when truthy, else empty; a scalar exclusion is dropped |
| WizardMapper.FalsyHatedDropped | src/lib/wizard-mapper.ts:25 | a missing, empty or zero hated-foods answer adds nothing |
| WizardMapper.AllergiesList | src/lib/wizard-mapper.ts:34-36 | allergies are the search answer when it is a list, else empty |
| WizardMapper.NotAStepId | src/lib/wizard-mapper.ts:33-42 | a key outside the listed ids is no step's id |
| WizardMapper.UnaskedFields | src/lib/wizard-mapper.ts:33-42 | the diet type, allergies and activity frequency are read under keys no step asks, so they stay empty |
| UseWizard.IsValidAnswer | src/hooks/use-wizard.ts:18-23 | `isValidAnswer`; `AnswerValidity` states it per kind of answer |
| UseWizard.AnswerValidity | src/hooks/use-wizard.ts:18-23 | a text answer is valid exactly when some character is not white space, a list exactly when non-empty, a number always; a missing answer never |
| UseWizard.CurrentIsFlattened | src/hooks/use-wizard.ts:66-91 | the current step sits at its global index of the flattened steps |
| UseWizard.ProgressBounds | src/hooks/use-wizard.ts:84-91 | progress starts at 0 and stays at least 0 and below 100 |
| UseWizard.LastStepProgress | src/hooks/use-wizard.ts:84-91 | on the wizard's last step the bar shows twelve thirteenths, never 100 |
| UseWizard.DataWalkable | src/config/wizard-data.ts:345-349 | the configuration has at least one phase and no empty phase |
| UseWizard.Wizard.Progress | src/hooks/use-wizard.ts:84-91 | the loop's global index over the total steps, times 100 |
| UseWizard.Wizard.HandleOptionSelect | src/hooks/use-wizard.ts:56-101 | the answer is set under the step id, the rest kept, and the answers stored |
| UseWizard.Wizard.SubmitWizard | src/hooks/use-wizard.ts:158-176 | the stored answers are removed and submission ends; the answers stay |
| UseWizard.Wizard.HandleNext | src/hooks/use-wizard.ts:106-135 | without a valid answer nothing moves; on the last step it submits; otherwise the global index goes up by one |
| UseWizard.Wizard.HandleBack | src/hooks/use-wizard.ts:140-153 | on the first step nothing moves; otherwise the global index goes down by one |
| UseWizard.Wizard.ResetWizard | src/hooks/use-wizard.ts:181-186 | back to the first step with no answers; the storage item is removed, and then the effect writes `{}` |
| UseWizard.LastMeansEnd | src/hooks/use-wizard.ts:115-118 | last step of the last phase is exactly the last global index |
| UseWizard.ForwardThenBack | src/hooks/use-wizard.ts:124-149 | a step forward then a step back returns to the same step |
| Schemas.SafeParse | src/app/actions/onboarding.ts:130-133 | `schema.safeParse(data)`: the issues when there are any, else the input stripped to the schema's keys; `ParsedKeys` and `OnboardingAccepts` state what passes |
| Schemas.CheckIssues | src/lib/schemas.ts:7-24 | a field's checks raise no issue exactly when none of them fails |
| Schemas.Issues | src/lib/schemas.ts:7-24 | a shape raises no issue exactly when none of its fields does |
| Schemas.Stripped | src/lib/schemas.ts:7-24 | the parsed object keeps exactly the shape's keys that the input has with a defined value |
| Schemas.Partial | src/lib/schemas.ts:32 | `.partial()` makes every field optional and changes nothing else |
| Schemas.GenderExact | src/lib/schemas.ts:4 | a gender is one of the four listed strings |
| Schemas.TwoChecks | src/lib/schemas.ts:14-16 | two checks on one field report in order, one issue per failing check |
| Schemas.FourFields | src/lib/schemas.ts:13-18 | a four-field shape passes exactly when each field does |
| Schemas.RangeField | src/lib/schemas.ts:14-16 | an optional number with a minimum and a maximum passes exactly when it is absent or a number in the range |
| Schemas.TextField | src/lib/schemas.ts:8-23 | a text field with a minimum length passes exactly when it is a string that long, or absent when optional |
| Schemas.EmailFieldOk | src/lib/schemas.ts:9 | an email field passes exactly when it is a string the email check accepts, or absent when optional |
| Schemas.GenderFieldOk | src/lib/schemas.ts:17 | an optional gender passes exactly when absent or one of the four |
| Schemas.Step1Accepts | src/lib/schemas.ts:7-10 | step 1 accepts exactly a name of length 2 or more and a valid email |
| Schemas.Step2Accepts | src/lib/schemas.ts:13-18 | step 2 accepts exactly age in 13..120, weight in 30..300 and height in 100..250 when present, and a listed gender when present |
| Schemas.Step3Accepts | src/lib/schemas.ts:21-24 | step 3 accepts exactly goals of ten or more characters when present and any text allergies when present |
| Schemas.IssuesAppend | src/lib/schemas.ts:27 | the issues of merged shapes are those of each, in order |
| Schemas.PartialAppend | src/lib/schemas.ts:27-32 | `.partial()` of a merge is the merge of the partials |
| Schemas.PartialOfOptional | src/lib/schemas.ts:32 | `.partial()` leaves an all-optional shape unchanged |
| Schemas.ProfilesPass | src/lib/schemas.ts:27-31 | the four profile fields accept anything |
| Schemas.PartialStep1 | src/lib/schemas.ts:27-32 | in the update schema the name and email may be left out, but when given they must still be valid |
| Schemas.OnboardingAccepts | src/lib/schemas.ts:27-40 | the update schema accepts exactly inputs whose given fields pass their step's checks |
| Schemas.AgeMessages | src/lib/schemas.ts:14 | an age below 13 or above 120 is reported with its own message |
| Schemas.ParsedKeys | src/lib/schemas.ts:7-32 | a successful parse keeps only shape keys, with their values unchanged |
| ValidationSchemas.Step1ValidationAccepts | src/lib/validation-schemas.ts:5-9 | the first step accepts exactly a valid name and email and goals of ten or more characters, all required |
| ValidationSchemas.Step2ValidationAccepts | src/lib/validation-schemas.ts:12-17 | the second step's validator is the bio-data schema itself |
| ValidationSchemas.Step3ValidationAccepts | src/lib/validation-schemas.ts:20-22 | the third step accepts exactly inputs whose allergies, when present, are text |
| ValidationSchemas.StepsStripEmail | src/lib/validation-schemas.ts:12-22 | the second and third validators drop an `email` key |
| Onboarding.EncryptedData | src/app/actions/onboarding.ts:56-91 | what `encryptUserData` returns: the six secret fields of the input encrypted, gender copied, nothing for a field not given, or the first encryption error; `EncryptedFields`, `EncryptFieldsOk` and `EncryptFieldsErr` state its content |
| Onboarding.SaveProgress | src/app/actions/onboarding.ts:113-194 | `saveProgress`: validate with the step's schema, choose the row by userId or email, encrypt, upsert; `SchemaChoice`, `InvalidWritesNothing`, `WhereChoice`, `NoKeyNoWrite`, `LaterStepsNeedUserId`, `UpsertEmail` and `EmptyAllergiesFail` state each stage's outcome |
| Onboarding.DecryptUserData | src/app/actions/onboarding.ts:96-111 | `decryptUserData`: the secret fields decrypted in the object literal's order, the first failure ending the call; `FoundDecrypted` states the result field by field |
| Onboarding.FetchUser | src/app/actions/onboarding.ts:196-246 | what both readers do with the lookup's outcome; `FetchThrows`, `NotFound` and `FoundDecrypted` state the thrown, missing and found cases |
| Onboarding.GetUser | src/app/actions/onboarding.ts:196-220 | `getUser(userId)`: the lookup by id handled by `FetchUser`; `NotFound` and `FoundDecrypted` state its answers |
| Onboarding.GetUserByEmail | src/app/actions/onboarding.ts:222-246 | `getUserByEmail(email)`: the lookup by email handled the same way; `NotFound` states its missing case |
| Onboarding.PlainFieldsNotSecret | src/app/actions/onboarding.ts:56-91 | gender and email are not among the encrypted fields |
| Onboarding.EncryptInto | src/app/actions/onboarding.ts:60-83 | one `if (data.x !== undefined)` block: a thrown encryption ends the whole call, otherwise the field is added exactly when given |
| Onboarding.EncryptUserData | src/app/actions/onboarding.ts:56-91 | the method's blocks in order compute `EncryptedData` |
| Onboarding.Messages | src/app/actions/onboarding.ts:137 | one message per issue, the schema's own message for a custom check |
| Onboarding.EncryptFieldsOk | src/app/actions/onboarding.ts:56-91 | when every given field encrypts, the result has exactly the given keys mapped to their ciphertexts |
| Onboarding.EncryptFieldsErr | src/app/actions/onboarding.ts:56-91 | the call fails exactly when some given field's encryption throws, and then with the first such error |
| Onboarding.EncryptedFields | src/app/actions/onboarding.ts:56-91 | name, goals, allergies, age, weight and height are encrypted, numbers as their text; gender is copied; email never appears |
| Onboarding.SchemaChoice | src/app/actions/onboarding.ts:121-134 | steps 1 to 3 use their step validator; no step or any other number uses the full update schema |
| Onboarding.InvalidWritesNothing | src/app/actions/onboarding.ts:136-142 | invalid input fails with the issue messages joined by `, `, whatever the database would do |
| Onboarding.WhereChoice | src/app/actions/onboarding.ts:147-158 | a non-empty userId selects by id, otherwise a non-empty validated email by email, otherwise nothing |
| Onboarding.NoKeyNoWrite | src/app/actions/onboarding.ts:153-158 | with neither, the call fails with `Either userId or email is required` |
| Onboarding.LaterStepsNeedUserId | src/app/actions/onboarding.ts:147-158 | steps 2 and 3 strip the email, so without a userId they always fail |
| Onboarding.UpsertEmail | src/app/actions/onboarding.ts:164-181 | a created user gets the validated email or `""`; an update sets the email only when one was validated, and every encrypted field as encrypted |
| Onboarding.EmptyAllergiesFail | src/app/actions/onboarding.ts:68-70 | an empty allergies text passes step 3 but makes `encrypt` throw, so the save fails with its message |
| Onboarding.CryptoRefusesEmpty | src/lib/crypto.ts:43-45 | the real encryption refuses the empty string |
| Onboarding.NotFound | src/app/actions/onboarding.ts:202-207 | a missing user gives `User not found`, by id and by email |
| Onboarding.FoundDecrypted | src/app/actions/onboarding.ts:96-111 | a found user comes back with id, email and status copied; name, age, weight, height, goals and allergies each decrypted when non-empty and left out when empty; gender copied when non-empty and left out otherwise |
| Onboarding.FetchThrows | src/app/actions/onboarding.ts:213-219 | a thrown lookup fails with its message, or `Failed to fetch user` |
| SubmitWizard.SubmitWizardAction | src/app/actions/submit-wizard.ts:28-92 | `submitWizardAction`: the required-field check, the email pattern, then encryption, the upsert and the checkout redirect; `RequiredFirst`, `EmailChecked`, `SuccessWrites` and `LaterFailuresGeneric` state its outcomes |
| SubmitWizard.RequiredFirst | src/app/actions/submit-wizard.ts:34-39 | a falsy name or email fails with the required-fields message before anything else |
| SubmitWizard.EmptyNameRefused | src/app/actions/submit-wizard.ts:34-39 | an empty or missing name is refused |
| SubmitWizard.EmailChecked | src/app/actions/submit-wizard.ts:42-48 | an email the pattern rejects fails with the invalid-email message |
| SubmitWizard.SuccessWrites | src/app/actions/submit-wizard.ts:51-84 | a success had text name and email, a valid email, and upserted the encrypted email as key and value with status `STARTED`, then redirects to checkout |
| SubmitWizard.LaterFailuresGeneric | src/app/actions/submit-wizard.ts:85-91 | any failure after the checks is reported with the generic message |
| SubmitWizard.ResubmissionNeverMatches | src/app/actions/submit-wizard.ts:54-59 | the upsert key is a fresh encryption, so a second submission with another IV never finds the first row |
| SubmitWizard.EmailExamples | src/app/actions/submit-wizard.ts:42 | `a@b.c` passes; `a@bc`, `@b.c` and `a b@c.d` do not |
| SubmitWizard.TrailingDotAccepted | src/app/actions/submit-wizard.ts:42 | `a@b.c.` passes |
| SubmitWizard.AcceptedShape | src/app/actions/submit-wizard.ts:42 | an accepted email has no white space and exactly one `@`, not first |
| StripeWebhook.Post | src/app/api/webhooks/stripe/route.ts:7-91 | the webhook `POST`: signature, secret and verification guards, then one write per handled event; `Guards`, `Dispatch`, `VerifiedOutcomes` and `ReceivedMeansVerified` state its answers and writes |
| StripeWebhook.Dispatch | src/app/api/webhooks/stripe/route.ts:37-83 | a write happens exactly for the three handled events with a session user id |
| StripeWebhook.Guards | src/app/api/webhooks/stripe/route.ts:10-34 | no signature gives 400, no secret 401, a failed verification 400, each with its message and no write |
| StripeWebhook.CompletedRecordsPayment | src/app/api/webhooks/stripe/route.ts:38-67 | completed and async-succeeded sessions store the payment intent and `COMPLETED` |
| StripeWebhook.FailedKeepsPaymentId | src/app/api/webhooks/stripe/route.ts:68-81 | an async failure writes only `FAILED`, leaving the payment id alone |
| StripeWebhook.StatusesWritten | src/app/api/webhooks/stripe/route.ts:37-83 | every write sets the status, `FAILED` exactly for the failure event |
| StripeWebhook.VerifiedOutcomes | src/app/api/webhooks/stripe/route.ts:36-90 | a verified event writes its dispatch and answers received, or 500 when the write fails |
| StripeWebhook.WritesNeedVerification | src/app/api/webhooks/stripe/route.ts:10-52 | no write happens unless the signature and secret are present and the event verified |
| StripeWebhook.ReceivedMeansVerified | src/app/api/webhooks/stripe/route.ts:10-86 | a 200 answer means the event was verified |

## Findings

| source | as written | input that shows it | evidently intended | confidence | as-written member | corrected member |
|---|---|---|---|---|---|---|
| src/lib/analytics.ts:123-141 | `signup` checks only analytics consent and then calls the Meta Pixel `fbq` as well as Google Analytics | analytics granted, marketing refused, `fbq` loaded | the Pixel call, like every other `fbq` call of the facade, needs marketing consent | not executed | Tracking.SignupReachesPixelWithoutMarketing | Tracking.SignupGatedPixel |

`Tracking.Tracker.Signup` models the code as written (`SignupCalls`); `SignupCallsGated` is
the corrected definition, and `Tracking.SignupGatedPixel` proves that it reaches the Pixel
only with marketing consent.

Comments in the source are not followed where the code says otherwise: the step-3 schema
of `schemas.ts` is described as requiring goals, but its code marks them `.optional()`,
and the model follows the code.

## Left out

- `typeof window === 'undefined'` guards: the model always runs in the browser or on the server, as the caller says.
- Console logging everywhere, including the webhook: it has no effect the model observes.
- Consent JSON written by other programs, or with its keys in another order: only the record text the manager itself writes is parsed; anything else counts as malformed.
- `decodeURIComponent` of escapes at or above `%80`: only ASCII escapes are decoded; longer UTF-8 sequences are out of scope.
- The Google Tag Manager snippet's own effects: the guard global it is checked against is never set by the source, so the model keeps that flag unchanged and the push recurs on every grant, as written.
- Clocks (`Date.now()`, `new Date().toISOString()`): timestamps are parameters of the methods that use them.
- Asynchronous ordering of fetches, promises and React renders: each event is one atomic method call.
- Fetch request headers and `credentials`: only the request body and the response matter to the model.
- `toUpperCase` beyond ASCII: country codes are upper-cased letter by letter on ASCII only.
- `AnalyticsPageTracker` and `useAnalytics`: thin React wiring around the facade, not part of this model.
- The ipapi.co lookup is a parameter (an oracle from IP address to reply).
- React effect and timer scheduling: the 500 ms timer is a flag and its firing a method.
- `pathnameIsMissingLocale` and `PROTECTED_ROUTES` in `proxy.ts` are declared but never used.
- The next-intl routing middleware and its locale list are parameters of `Proxy.Handle`.
- A `null` pathname from `usePathname`: pathnames are strings.
- `mousedown` listener registration and element refs: an outside click is a boolean argument.
- `window.scrollTo` on step changes: it has no state the model observes.
- `localStorage` persistence of wizard answers as JSON, and `initializeAnswers`: the wizard starts from an answer map given by the caller.
- Zod's built-in error texts: the message of a built-in check is the `zodMessage` parameter.
- Zod's `.email()` pattern for `z.string().email()`: the `isEmail` parameter.
- AES-256-GCM, `randomBytes` and base64 decoding are parameters; `Crypto.RoundTrip` takes the cipher's decrypt-after-encrypt contract as a requirement.
- `Onboarding.FoundDecrypted`: `parseInt`/`parseFloat` in `decryptUserData` are not modelled; age, weight and height come back as their decrypted text.
- `String(number)` is the `numberText` parameter.
- Step values that are not integers: the step argument is an optional integer.
- String lengths are counted in characters, not in UTF-16 code units.
- Option values that are not integers or strings: numeric option values are integers.
- Prisma calls are oracles: their replies and failures are parameters.
- Stripe's `constructEvent` is an oracle from body, signature and secret to an event or a failure.
- Keys whose value is `undefined` are dropped from a parsed object, as Zod's output omits them.
- `NaN` and `Infinity` are not numbers the model can hold.
- `request.text()` and `headers()` are given as parameters.
- `createdAt` and other date columns: the database assigns them.
- The translation lookup `t()`: labels are taken as given strings.
- `Browser.WellFormed`: stores holding two cookies of one name (same name on different paths or domains) are not modelled, since the source writes every cookie on path `/` of its own host; nor are values with `;` or with white space at either end. `LegalCookies.LegalAcceptanceOfStore`, `LegalCookies.LanguageCookieOfStore` and `CookieManager.GetCookieRender` hold for the stores it admits.
- `ConsentRoute.Get`: the 500 answer of its `catch` is not modelled; it needs `headers()` to throw, and the headers are given.
