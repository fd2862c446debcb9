/** The client-side consent engine of `src/lib/cookie-manager.ts`: the consent record in
    the `cookie_consent` cookie, the per-category cookies, the `legal_accepted` flag, and
    the trackers (Google Analytics 4, Google Tag Manager, Meta Pixel, Vercel Analytics)
    that a consent choice loads or silences. */
module CookieManager {

  import opened Wrappers
  import opened Values
  import opened Browser
  import opened ConsentRecord
  import Text

  const ConsentCookie: string := "cookie_consent"
  const LegalCookie: string := "legal_accepted"
  const ExpiryDays: nat := 365

  /** The `expires=` date `setCookie` writes: `days` days from `now`, to the whole second. */
  function Expiry(now: nat, days: nat): int {
    (now + days * MsPerDay) / 1000 * 1000
  }

  lemma ExpiryInFuture(now: nat, days: nat)
    requires days >= 1
    ensures Expiry(now, days) > now
  {
    var t := now + days * MsPerDay;
    assert days * MsPerDay >= MsPerDay;
    assert t / 1000 * 1000 > t - 1000;
  }

  // ---------------------------------------------------------------------------------
  // Reading a cookie

  /** `getCookie(name)` on the text of `document.cookie`: split `"; " + text` at
      `"; " + name + "="`; with exactly two pieces, the second one up to its first `;`,
      and an empty value read as `null`. */
  function GetCookie(doc: string, name: string): Option<string> {
    var parts := Text.SplitOn("; " + doc, "; " + name + "=");
    if |parts| == 2 then
      var v := Text.Split(parts[1], ';')[0];
      if v == "" then None else Some(v)
    else None
  }

  lemma NoSeparatorAfterStart(c: Cookie, sep: string, rest: string, i: nat)
    requires IsName(c.name) && IsValue(c.value) && |sep| > 0 && sep[0] == ';'
    requires 1 <= i < |"; " + c.name + "=" + c.value|
    ensures !(sep <= ("; " + c.name + "=" + c.value + rest)[i..])
  {
    var e := "; " + c.name + "=" + c.value;
    PairWithoutSemicolon(c, " ");
    assert e[1..] == " " + c.name + "=" + c.value;
    assert (e + rest)[i..][0] == e[1..][i - 1];
  }

  lemma ValueWithoutSeparator(v: string, sep: string, rest: string, i: nat)
    requires IsValue(v) && |sep| > 0 && sep[0] == ';' && i < |v|
    ensures !(sep <= (v + rest)[i..])
  {
    assert (v + rest)[i..][0] == v[i];
  }

  /** Splitting `"; " + document.cookie` at `"; " + name + "="`: one piece when no cookie
      has that name, two when one has, the second starting with its value and going on
      with the next cookie, if any. */
  lemma {:induction false} ConcatSplit(cs: seq<Cookie>, name: string)
    requires WellFormed(cs) && IsName(name)
    ensures var parts := Text.SplitOn(Concat(cs), "; " + name + "=");
      && (Lookup(cs, name).None? ==> parts == [Concat(cs)])
      && (Lookup(cs, name).Some? ==>
            |parts| == 2 && exists t :: parts[1] == Lookup(cs, name).value + t && (t == "" || t[0] == ';'))
    decreases |cs|
  {
    var sep := "; " + name + "=";
    if |cs| > 0 {
      var c := cs[0];
      var rest := Concat(cs[1..]);
      assert Concat(cs) == "; " + c.name + "=" + c.value + rest;
      assert WellFormed(cs[1..]);
      ConcatSplit(cs[1..], name);
      if c.name == name {
        assert Lookup(cs[1..], name).None? by {
          forall j | 0 <= j < |cs[1..]| ensures cs[1..][j].name != name {
            assert cs[j + 1].name != cs[0].name;
          }
        }
        SplitAtOwn(c, rest);
      } else {
        SplitPastOther(c, name, rest);
      }
    }
  }

  /** The entry of the cookie sought: an empty piece, then its value and all after it. */
  lemma SplitAtOwn(c: Cookie, rest: string)
    requires IsName(c.name) && IsValue(c.value)
    requires Text.SplitOn(rest, "; " + c.name + "=") == [rest]
    ensures Text.SplitOn("; " + c.name + "=" + c.value + rest, "; " + c.name + "=") == ["", c.value + rest]
  {
    var sep := "; " + c.name + "=";
    var s := "; " + c.name + "=" + c.value + rest;
    assert s == sep + (c.value + rest);
    assert s[|sep|..] == c.value + rest;
    forall i | 0 <= i < |c.value| ensures !(sep <= (c.value + rest)[i..]) {
      ValueWithoutSeparator(c.value, sep, rest, i);
    }
    Text.SplitOnGlue(c.value, rest, sep);
  }

  /** Another cookie's entry holds no separator for `name`: it is glued to the first piece. */
  lemma SplitPastOther(c: Cookie, name: string, rest: string)
    requires IsName(c.name) && IsValue(c.value) && IsName(name) && c.name != name
    ensures var sep := "; " + name + "=";
      Text.SplitOn("; " + c.name + "=" + c.value + rest, sep)
        == [("; " + c.name + "=" + c.value) + Text.SplitOn(rest, sep)[0]] + Text.SplitOn(rest, sep)[1..]
  {
    var sep := "; " + name + "=";
    var e := "; " + c.name + "=" + c.value;
    forall i | 0 <= i < |e| ensures !(sep <= (e + rest)[i..]) {
      if i == 0 {
        assert (e + rest)[0..] == "; " + (c.name + "=" + (c.value + rest));
        NamePrefix(name, c.name, c.value + rest);
        assert sep == "; " + (name + "=");
        if sep <= (e + rest)[0..] {
          PrefixCancel("; ", name + "=", c.name + "=" + (c.value + rest));
        }
      } else {
        NoSeparatorAfterStart(c, sep, rest, i);
      }
    }
    Text.SplitOnGlue(e, rest, sep);
  }

  lemma PrefixCancel(a: string, b: string, c: string)
    requires (a + b) <= (a + c)
    ensures b <= c
  {
    forall i | 0 <= i < |b| ensures b[i] == c[i] {
      assert b[i] == (a + b)[|a| + i] && c[i] == (a + c)[|a| + i];
    }
  }

  /** The text before the first `;` of a value followed by the rest of the store. */
  lemma FirstPiece(v: string, t: string)
    requires IsValue(v) && (t == "" || t[0] == ';')
    ensures Text.Split(v + t, ';')[0] == v
  {
    assert ';' !in v;
    if t == "" {
      assert v + t == v;
      Text.SplitWithout(v, ';');
    } else {
      assert v + t == v + [';'] + t[1..];
      Text.SplitAt(v, t[1..], ';');
    }
  }

  /** Read after write for the cookie manager's reader: on a well-formed store,
      `getCookie` yields exactly the stored value, and `null` for a missing or empty one. */
  lemma GetCookieRender(cs: seq<Cookie>, name: string)
    requires WellFormed(cs) && IsName(name)
    ensures GetCookie(Render(cs), name) ==
      match Lookup(cs, name)
      case None => None
      case Some(v) => if v == "" then None else Some(v)
  {
    var sep := "; " + name + "=";
    if |cs| == 0 {
      assert "; " + Render(cs) == "; ";
    } else {
      RenderConcat(cs);
      ConcatSplit(cs, name);
      var parts := Text.SplitOn(Concat(cs), sep);
      if Lookup(cs, name).Some? {
        var v := Lookup(cs, name).value;
        var t :| parts[1] == v + t && (t == "" || t[0] == ';');
        var k :| 0 <= k < |cs| && cs[k].name == name && cs[k].value == v;
        FirstPiece(v, t);
      }
    }
  }

  /** `getConsent()` on the text of `document.cookie`: the cookie's value, URI-decoded
      and parsed; a missing cookie, a malformed escape and unparsable text all give `null`. */
  function ConsentOf(doc: string): Option<Record> {
    var value :- GetCookie(doc, ConsentCookie);
    var text :- UriDecode(value);
    Parse(text)
  }

  /** `isAllowed(category)` given the consent read: without a record only `essential`,
      with one the stored flag, and a key the record lacks reads as not allowed. */
  function AllowedIn(consent: Option<Record>, k: Category): bool {
    match consent
    case None => k == Essential
    case Some(r) => Get(r.categories, k) == Some(true)
  }

  // ---------------------------------------------------------------------------------
  // Writing cookies

  /** The cookies `setCategoryCookies` writes: `consent_<key>` set to the flag's text, for
      each key the preferences object has, in its key order. */
  function CategoryEntries(c: Categories): seq<(string, string)> {
    [("consent_essential", BoolText(c.essential))]
    + OptionalEntry("consent_functional", c.functional)
    + OptionalEntry("consent_analytics", c.analytics)
    + OptionalEntry("consent_marketing", c.marketing)
  }

  function OptionalEntry(name: string, o: Option<bool>): seq<(string, string)> {
    match o
    case None => []
    case Some(b) => [(name, BoolText(b))]
  }

  /** The cookies `withdraw` deletes. */
  const WithdrawnNames: seq<string> :=
    [ConsentCookie, "consent_essential", "consent_functional", "consent_analytics", "consent_marketing"]

  predicate EntriesValid(es: seq<(string, string)>) {
    forall e :: e in es ==> IsName(e.0) && IsValue(e.1)
  }

  /** The store after writing every entry in turn with the same expiry. */
  function StoreAll(cs: seq<Cookie>, es: seq<(string, string)>, expires: int, now: int): seq<Cookie>
    decreases |es|
  {
    if |es| == 0 then cs
    else
      var last := es[|es| - 1];
      Store(StoreAll(cs, es[..|es| - 1], expires, now), last.0, last.1, expires, now)
  }

  /** One more entry is one more write. */
  lemma StoreAllStep(cs: seq<Cookie>, es: seq<(string, string)>, k: nat, expires: int, now: int)
    requires k < |es|
    ensures StoreAll(cs, es[..k + 1], expires, now) == Store(StoreAll(cs, es[..k], expires, now), es[k].0, es[k].1, expires, now)
  {
    assert es[..k + 1][..k] == es[..k];
  }

  /** The value of the last entry named `name`, if any. */
  function LastEntry(es: seq<(string, string)>, name: string): (r: Option<string>)
    ensures r.None? <==> forall i :: 0 <= i < |es| ==> es[i].0 != name
    decreases |es|
  {
    if |es| == 0 then None
    else if es[|es| - 1].0 == name then Some(es[|es| - 1].1)
    else
      var r := LastEntry(es[..|es| - 1], name);
      assert forall i :: 0 <= i < |es| - 1 ==> es[..|es| - 1][i] == es[i];
      r
  }

  /** Read after a batch of writes: a written name holds its last value (nothing once the
      expiry has passed), every other name what it had before. */
  lemma {:induction false} StoreAllLookup(cs: seq<Cookie>, es: seq<(string, string)>, expires: int, now: int, other: string)
    requires WellFormed(cs) && EntriesValid(es)
    ensures WellFormed(StoreAll(cs, es, expires, now))
    ensures Lookup(StoreAll(cs, es, expires, now), other) ==
      match LastEntry(es, other)
      case Some(v) => if expires <= now then None else Some(v)
      case None => Lookup(cs, other)
    decreases |es|
  {
    if |es| > 0 {
      var init := es[..|es| - 1];
      var last := es[|es| - 1];
      assert es == init + [last];
      assert last in es;
      StoreAllLookup(cs, init, expires, now, other);
      StoreWellFormed(StoreAll(cs, init, expires, now), last.0, last.1, expires, now);
      StoreLookup(StoreAll(cs, init, expires, now), last.0, last.1, expires, now, other);
    }
  }

  /** The store after `setConsent` writes `record`: the record, the category cookies, the
      legal flag, each for 365 days. */
  function ConsentWrites(cs: seq<Cookie>, record: Record, now: nat): seq<Cookie> {
    RecordWrites(cs, Encode(record), CategoryEntries(record.categories), Expiry(now, ExpiryDays), now)
  }

  /** The three steps of `setConsent`'s writes, for any record text and category entries. */
  function RecordWrites(cs: seq<Cookie>, text: string, entries: seq<(string, string)>, expires: int, now: int): seq<Cookie> {
    var withRecord := Store(cs, ConsentCookie, text, expires, now);
    var withCategories := StoreAll(withRecord, entries, expires, now);
    Store(withCategories, LegalCookie, "true", expires, now)
  }

  /** The store after `withdraw`: each consent cookie rewritten with an empty value and
      the 1970 expiry, which deletes it. */
  function WithdrawWrites(cs: seq<Cookie>, now: nat): seq<Cookie> {
    var s1 := Store(cs, ConsentCookie, "", 0, now);
    var s2 := Store(s1, "consent_essential", "", 0, now);
    var s3 := Store(s2, "consent_functional", "", 0, now);
    var s4 := Store(s3, "consent_analytics", "", 0, now);
    Store(s4, "consent_marketing", "", 0, now)
  }

  /** A record `setConsent` writes: version 1.0 and a `toISOString` timestamp. */
  predicate Written(r: Record) {
    r.version == Version && IsoTimestamp(r.timestamp)
  }

  predicate SafeChar(c: char) {
    c != ';' && c != '%' && !Text.IsWhitespace(c)
  }

  /** Text a cookie keeps as written and `decodeURIComponent` leaves alone. */
  predicate Clean(s: string) {
    forall c :: c in s ==> SafeChar(c)
  }

  lemma CleanConcat(a: string, b: string)
    requires Clean(a) && Clean(b)
    ensures Clean(a + b)
  {
  }

  lemma CleanIsValue(s: string)
    requires Clean(s)
    ensures IsValue(s) && '%' !in s
  {
    forall i | 0 <= i < |s| ensures s[i] != ';' && !Text.IsWhitespace(s[i]) {
      assert s[i] in s;
    }
  }

  lemma CleanBool(b: bool)
    ensures Clean(BoolText(b))
  {
  }

  lemma CleanField(key: string, o: Option<bool>)
    requires Clean(key)
    ensures Clean(Field(key, o))
  {
    if o.Some? {
      assert Clean(",\"") && Clean("\":");
      CleanBool(o.value);
    }
  }

  lemma CleanFields(f: Option<bool>, a: Option<bool>, m: Option<bool>)
    ensures Clean(FieldsText(f, a, m))
  {
    assert Clean("functional");
    CleanField("functional", f);
    assert Clean("analytics");
    CleanField("analytics", a);
    assert Clean("marketing");
    CleanField("marketing", m);
    assert Clean("}");
  }

  lemma CleanCategories(c: Categories)
    ensures Clean(EncodeCategories(c))
  {
    var key := "{\"essential\":";
    var fields := FieldsText(c.functional, c.analytics, c.marketing);
    CleanFields(c.functional, c.analytics, c.marketing);
    assert Clean(key);
    CleanBool(c.essential);
    CleanConcat(key, BoolText(c.essential));
    CleanConcat(key + BoolText(c.essential), fields);
    assert EncodeCategories(c) == key + BoolText(c.essential) + fields;
  }

  lemma CleanSourceTail(src: Source)
    ensures Clean(SourceTail(src))
  {
    assert Clean(",\"source\":\"") && Clean("\"}");
    assert Clean(SourceText(src));
  }

  lemma CleanTimestamp(ts: string)
    requires IsoTimestamp(ts)
    ensures Clean(ts)
  {
    IsoTimestampPlain(ts);
    forall c | c in ts ensures SafeChar(c) {
      var i :| 0 <= i < |ts| && ts[i] == c;
    }
  }

  lemma CleanTimestampTail(ts: string, c: Categories, src: Source)
    requires IsoTimestamp(ts)
    ensures Clean(TimestampTail(ts, c, src))
  {
    var cats, stamp, quote := ",\"categories\":", ",\"timestamp\":\"", "\"";
    assert Clean(cats) && Clean(stamp) && Clean(quote);
    CleanCategories(c);
    CleanSourceTail(src);
    CleanTimestamp(ts);
    CleanConcat(cats, EncodeCategories(c));
    CleanConcat(cats + EncodeCategories(c), SourceTail(src));
    CleanConcat(stamp, ts);
    CleanConcat(stamp + ts, quote);
    CleanConcat(stamp + ts + quote, CategoriesTail(c, src));
  }

  /** The record's text is a cookie value the store keeps as written, with no `%` for
      `decodeURIComponent` to act on. */
  lemma EncodeClean(r: Record)
    requires Written(r)
    ensures Clean(Encode(r))
  {
    CleanTimestampTail(r.timestamp, r.categories, r.source);
    assert Clean("{\"version\":\"") && Clean("\"") && Clean(Version);
  }

  // Each cookie name of the consent engine is one the store keeps as written.
  lemma ConsentCookieName() ensures IsName(ConsentCookie) {}
  lemma LegalCookieName() ensures IsName(LegalCookie) {}
  lemma LegalFlag() ensures IsValue("true") && LegalCookie != ConsentCookie {
    assert LegalCookie[0] != ConsentCookie[0];
  }
  lemma EssentialCookieName() ensures IsName("consent_essential") {}
  lemma FunctionalCookieName() ensures IsName("consent_functional") {}
  lemma AnalyticsCookieName() ensures IsName("consent_analytics") {}
  lemma MarketingCookieName() ensures IsName("consent_marketing") {}

  lemma OptionalEntryValid(name: string, o: Option<bool>)
    requires IsName(name) && |name| >= 17
    ensures EntriesValid(OptionalEntry(name, o))
    ensures forall e :: e in OptionalEntry(name, o) ==> e.0 == name
  {
    if o.Some? {
      CleanBool(o.value);
      CleanIsValue(BoolText(o.value));
    }
  }

  lemma CategoryEntriesValid(c: Categories)
    ensures EntriesValid(CategoryEntries(c))
    ensures LastEntry(CategoryEntries(c), ConsentCookie).None?
    ensures LastEntry(CategoryEntries(c), LegalCookie).None?
  {
    EssentialCookieName();
    FunctionalCookieName();
    AnalyticsCookieName();
    MarketingCookieName();
    CleanBool(c.essential);
    CleanIsValue(BoolText(c.essential));
    OptionalEntryValid("consent_functional", c.functional);
    OptionalEntryValid("consent_analytics", c.analytics);
    OptionalEntryValid("consent_marketing", c.marketing);
    var es := CategoryEntries(c);
    forall i | 0 <= i < |es| ensures |es[i].0| >= 17 {
      assert es[i] in es;
    }
  }

  lemma {:induction false} RecordWritesLookup(cs: seq<Cookie>, text: string, entries: seq<(string, string)>, expires: int, now: int, other: string)
    requires WellFormed(cs) && IsValue(text) && EntriesValid(entries) && now < expires
    ensures WellFormed(RecordWrites(cs, text, entries, expires, now))
    ensures Lookup(RecordWrites(cs, text, entries, expires, now), other) ==
      if other == LegalCookie then Some("true")
      else match LastEntry(entries, other)
        case Some(v) => Some(v)
        case None => if other == ConsentCookie then Some(text) else Lookup(cs, other)
  {
    ConsentCookieName();
    LegalCookieName();
    LegalFlag();
    var w1 := Store(cs, ConsentCookie, text, expires, now);
    StoreWellFormed(cs, ConsentCookie, text, expires, now);
    StoreLookup(cs, ConsentCookie, text, expires, now, other);
    var w2 := StoreAll(w1, entries, expires, now);
    StoreAllLookup(w1, entries, expires, now, other);
    StoreWellFormed(w2, LegalCookie, "true", expires, now);
    StoreLookup(w2, LegalCookie, "true", expires, now, other);
  }

  /** After `setConsent`, reading the store gives back the record just written, the legal
      flag is `"true"`, each category the record has is stored as its flag, and every
      cookie the consent engine does not own is untouched. */
  lemma ConsentWritesLookup(cs: seq<Cookie>, r: Record, now: nat, other: string)
    requires WellFormed(cs) && Written(r)
    ensures WellFormed(ConsentWrites(cs, r, now))
    ensures Lookup(ConsentWrites(cs, r, now), other) ==
      if other == LegalCookie then Some("true")
      else match LastEntry(CategoryEntries(r.categories), other)
        case Some(v) => Some(v)
        case None => if other == ConsentCookie then Some(Encode(r)) else Lookup(cs, other)
  {
    ExpiryInFuture(now, ExpiryDays);
    EncodeClean(r);
    CleanIsValue(Encode(r));
    CategoryEntriesValid(r.categories);
    RecordWritesLookup(cs, Encode(r), CategoryEntries(r.categories), Expiry(now, ExpiryDays), now, other);
  }

  /** `getConsent()` reads a stored consent text without escapes as its parse. */
  lemma ConsentOfStored(cs: seq<Cookie>, text: string)
    requires WellFormed(cs) && Lookup(cs, ConsentCookie) == Some(text)
    requires text != "" && '%' !in text
    ensures ConsentOf(Render(cs)) == Parse(text)
  {
    ConsentCookieName();
    GetCookieRender(cs, ConsentCookie);
    UriDecodePlain(text);
  }

  /** `getConsent()` after `setConsent(record)` returns that record. */
  lemma ConsentAfterSet(cs: seq<Cookie>, r: Record, now: nat)
    requires WellFormed(cs) && Written(r)
    ensures ConsentOf(Render(ConsentWrites(cs, r, now))) == Some(r)
  {
    var text := Encode(r);
    ConsentWritesLookup(cs, r, now, ConsentCookie);
    CategoryEntriesValid(r.categories);
    EncodeClean(r);
    CleanIsValue(text);
    assert text != "" by {
      assert text[0] == '{';
    }
    ConsentOfStored(ConsentWrites(cs, r, now), text);
    IsoTimestampPlain(r.timestamp);
    VersionPlain();
    ParseEncode(r);
  }

  /** After `withdraw` no consent cookie is left and nothing else changes, the legal flag
      included. */
  lemma WithdrawLookup(cs: seq<Cookie>, now: nat, other: string)
    requires WellFormed(cs)
    ensures WellFormed(WithdrawWrites(cs, now))
    ensures Lookup(WithdrawWrites(cs, now), other) == if other in WithdrawnNames then None else Lookup(cs, other)
  {
    ConsentCookieName();
    EssentialCookieName();
    FunctionalCookieName();
    AnalyticsCookieName();
    MarketingCookieName();
    DeleteFiveLookup(cs, ConsentCookie, "consent_essential", "consent_functional", "consent_analytics", "consent_marketing", now, other);
  }

  /** Five deletions in a row empty exactly those five names. */
  lemma DeleteFiveLookup(cs: seq<Cookie>, a: string, b: string, c: string, d: string, e: string, now: nat, other: string)
    requires WellFormed(cs) && IsName(a) && IsName(b) && IsName(c) && IsName(d) && IsName(e)
    ensures var r := Store(Store(Store(Store(Store(cs, a, "", 0, now), b, "", 0, now), c, "", 0, now), d, "", 0, now), e, "", 0, now);
      && WellFormed(r)
      && Lookup(r, other) == if other in [a, b, c, d, e] then None else Lookup(cs, other)
  {
    var s3 := Store(Store(Store(cs, a, "", 0, now), b, "", 0, now), c, "", 0, now);
    DeleteThreeLookup(cs, a, b, c, now, other);
    DeleteTwoLookup(s3, d, e, now, other);
  }

  /** Three deletions in a row empty exactly those three names. */
  lemma DeleteThreeLookup(cs: seq<Cookie>, a: string, b: string, c: string, now: nat, other: string)
    requires WellFormed(cs) && IsName(a) && IsName(b) && IsName(c)
    ensures var r := Store(Store(Store(cs, a, "", 0, now), b, "", 0, now), c, "", 0, now);
      && WellFormed(r)
      && Lookup(r, other) == if other in [a, b, c] then None else Lookup(cs, other)
  {
    DeleteTwoLookup(cs, a, b, now, other);
    DeleteLookup(Store(Store(cs, a, "", 0, now), b, "", 0, now), c, now, other);
  }

  /** Two deletions in a row empty exactly those two names. */
  lemma DeleteTwoLookup(cs: seq<Cookie>, a: string, b: string, now: nat, other: string)
    requires WellFormed(cs) && IsName(a) && IsName(b)
    ensures var r := Store(Store(cs, a, "", 0, now), b, "", 0, now);
      && WellFormed(r)
      && Lookup(r, other) == if other in [a, b] then None else Lookup(cs, other)
  {
    DeleteLookup(cs, a, now, other);
    DeleteLookup(Store(cs, a, "", 0, now), b, now, other);
  }

  /** Deleting one cookie keeps the store well formed and empties only that name. */
  lemma DeleteLookup(cs: seq<Cookie>, name: string, now: nat, other: string)
    requires WellFormed(cs) && IsName(name)
    ensures WellFormed(Store(cs, name, "", 0, now))
    ensures Lookup(Store(cs, name, "", 0, now), other) == if other == name then None else Lookup(cs, other)
  {
    StoreWellFormed(cs, name, "", 0, now);
    StoreLookup(cs, name, "", 0, now, other);
  }

  /** `getConsent()` after `withdraw()` is `null`: the banner shows again. */
  lemma ConsentAfterWithdraw(cs: seq<Cookie>, now: nat)
    requires WellFormed(cs)
    ensures ConsentOf(Render(WithdrawWrites(cs, now))) == None
  {
    WithdrawLookup(cs, now, ConsentCookie);
    GetCookieRender(WithdrawWrites(cs, now), ConsentCookie);
  }

  /** After `setConsent` a category is allowed exactly when the record grants it. */
  lemma AllowedAfterSet(cs: seq<Cookie>, r: Record, now: nat, k: Category)
    requires WellFormed(cs) && Written(r)
    ensures AllowedIn(ConsentOf(Render(ConsentWrites(cs, r, now))), k) <==> Get(r.categories, k) == Some(true)
  {
    ConsentAfterSet(cs, r, now);
  }

  /** After `withdraw` only `essential` is allowed. */
  lemma AllowedAfterWithdraw(cs: seq<Cookie>, now: nat, k: Category)
    requires WellFormed(cs)
    ensures AllowedIn(ConsentOf(Render(WithdrawWrites(cs, now))), k) <==> k == Essential
  {
    ConsentAfterWithdraw(cs, now);
  }
}
