/** The consent record the cookie manager keeps in the `cookie_consent` cookie: its
    categories, its JSON text as `JSON.stringify` writes it, the reader that turns that
    text back into a record, and `decodeURIComponent`, which the reader applies first. */
module ConsentRecord {

  import opened Wrappers
  import Text

  /** The version stamped on every record. */
  const Version: string := "1.0"

  datatype Category = Essential | Functional | Analytics | Marketing

  datatype Source = Banner | Preferences

  /** The three optional categories a caller hands to `setConsent`; `None` is a key the
      caller's object does not have. */
  datatype Choice = Choice(functional: Option<bool>, analytics: Option<bool>, marketing: Option<bool>)

  /** The stored `CookiePreferences`. */
  datatype Categories = Categories(
    essential: bool,
    functional: Option<bool>,
    analytics: Option<bool>,
    marketing: Option<bool>)

  datatype Record = Record(version: string, timestamp: string, categories: Categories, source: Source)

  const AllGranted: Choice := Choice(Some(true), Some(true), Some(true))
  const NoneGranted: Choice := Choice(Some(false), Some(false), Some(false))

  /** `{ essential: true, ...choice }` */
  function Full(c: Choice): (r: Categories)
    ensures r.essential
    ensures r.functional == c.functional && r.analytics == c.analytics && r.marketing == c.marketing
  {
    Categories(true, c.functional, c.analytics, c.marketing)
  }

  /** `categories[category]`, `None` for a key the object does not have. */
  function Get(c: Categories, k: Category): Option<bool> {
    match k
    case Essential => Some(c.essential)
    case Functional => c.functional
    case Analytics => c.analytics
    case Marketing => c.marketing
  }

  /** A string `JSON.stringify` writes between its quotes unchanged: no quote, no
      backslash, no control character. */
  predicate JsonPlain(s: string) {
    forall i :: 0 <= i < |s| ==> s[i] != '"' && s[i] != '\\' && s[i] >= ' '
  }

  lemma VersionPlain()
    ensures JsonPlain(Version)
  {
  }

  predicate IsDigit(c: char) {
    '0' <= c <= '9'
  }

  /** The shape `Date.prototype.toISOString` gives every date of the years 0 to 9999:
      `YYYY-MM-DDTHH:mm:ss.sssZ`. */
  predicate IsoTimestamp(s: string) {
    && |s| == 24
    && s[4] == '-' && s[7] == '-' && s[10] == 'T' && s[13] == ':' && s[16] == ':'
    && s[19] == '.' && s[23] == 'Z'
    && forall i :: 0 <= i < 24 && i !in {4, 7, 10, 13, 16, 19, 23} ==> IsDigit(s[i])
  }

  lemma IsoTimestampPlain(s: string)
    requires IsoTimestamp(s)
    ensures JsonPlain(s) && '%' !in s
    ensures forall i :: 0 <= i < |s| ==> s[i] != ';' && s[i] != '=' && !Text.IsWhitespace(s[i])
  {
  }

  function BoolText(b: bool): string {
    if b then "true" else "false"
  }

  function SourceText(s: Source): string {
    match s
    case Banner => "banner"
    case Preferences => "preferences"
  }

  /** A present key of the categories object, after the comma that precedes it. */
  function Field(key: string, o: Option<bool>): string {
    match o
    case None => ""
    case Some(b) => ",\"" + key + "\":" + BoolText(b)
  }

  /** The categories object after its `essential` key. */
  function FieldsText(f: Option<bool>, a: Option<bool>, m: Option<bool>): string {
    Field("functional", f) + (Field("analytics", a) + (Field("marketing", m) + "}"))
  }

  function EncodeCategories(c: Categories): string {
    "{\"essential\":" + BoolText(c.essential) + FieldsText(c.functional, c.analytics, c.marketing)
  }

  /** The record's text from its `source` key on. */
  function SourceTail(src: Source): string {
    ",\"source\":\"" + SourceText(src) + "\"}"
  }

  function CategoriesTail(c: Categories, src: Source): string {
    ",\"categories\":" + EncodeCategories(c) + SourceTail(src)
  }

  function TimestampTail(ts: string, c: Categories, src: Source): string {
    ",\"timestamp\":\"" + ts + "\"" + CategoriesTail(c, src)
  }

  /** `JSON.stringify(record)`, keys in the order `setConsent` builds them:
      `{"version":"1.0","timestamp":"...","categories":{"essential":true,...},"source":"banner"}`. */
  function Encode(r: Record): string {
    "{\"version\":\"" + r.version + "\"" + TimestampTail(r.timestamp, r.categories, r.source)
  }

  /** The text after the literal `lit`, if `s` starts with it. */
  function Expect(lit: string, s: string): (r: Option<string>)
    ensures r.Some? ==> s == lit + r.value
  {
    if lit <= s then Some(s[|lit|..]) else None
  }

  /** The characters up to the closing quote, and the text after it. */
  function ReadString(s: string): (r: Option<(string, string)>)
    ensures r.Some? ==> JsonPlain(r.value.0) && s == r.value.0 + "\"" + r.value.1
    decreases |s|
  {
    if |s| == 0 || s[0] == '\\' || s[0] < ' ' then None
    else if s[0] == '"' then Some(("", s[1..]))
    else
      var (a, rest) :- ReadString(s[1..]);
      Some(([s[0]] + a, rest))
  }

  function ReadBool(s: string): (r: Option<(bool, string)>)
    ensures r.Some? ==> s == BoolText(r.value.0) + r.value.1
  {
    if "true" <= s then Some((true, s[4..]))
    else if "false" <= s then Some((false, s[5..]))
    else None
  }

  /** An optional key: absent unless the text goes on with `,"key":`. */
  function ReadField(key: string, s: string): (r: Option<(Option<bool>, string)>)
    ensures r.Some? ==> s == Field(key, r.value.0) + r.value.1
  {
    var lit := ",\"" + key + "\":";
    if lit <= s then
      var (b, rest) :- ReadBool(s[|lit|..]);
      assert s == lit + s[|lit|..];
      Some((Some(b), rest))
    else Some((None, s))
  }

  function ReadSource(s: string): Option<Source> {
    if s == "banner" then Some(Banner)
    else if s == "preferences" then Some(Preferences)
    else None
  }

  function ReadMarketing(s: string): (r: Option<(Option<bool>, string)>)
    ensures r.Some? ==> s == Field("marketing", r.value.0) + ("}" + r.value.1)
  {
    var (m, s1) :- ReadField("marketing", s);
    var s2 :- Expect("}", s1);
    Some((m, s2))
  }

  function ReadAnalytics(s: string): (r: Option<(Option<bool>, Option<bool>, string)>)
    ensures r.Some? ==> s == Field("analytics", r.value.0) + (Field("marketing", r.value.1) + ("}" + r.value.2))
  {
    var (a, s1) :- ReadField("analytics", s);
    var (m, s2) :- ReadMarketing(s1);
    Some((a, m, s2))
  }

  /** The categories object after `essential`: the three optional keys and the brace. */
  function ReadFields(s: string): (r: Option<(Option<bool>, Option<bool>, Option<bool>, string)>)
    ensures r.Some? ==> s == FieldsText(r.value.0, r.value.1, r.value.2) + r.value.3
  {
    var (f, s1) :- ReadField("functional", s);
    var (a, m, s2) :- ReadAnalytics(s1);
    Regroup(Field("functional", f), Field("analytics", a), Field("marketing", m), "}", s2);
    Some((f, a, m, s2))
  }

  lemma RegroupTail(lit: string, v: string, q: string, t: string)
    ensures lit + (v + q + t) == lit + v + q + t
  {
  }

  lemma Regroup(a: string, b: string, c: string, d: string, w: string)
    ensures a + (b + (c + (d + w))) == a + (b + (c + d)) + w
  {
  }

  lemma CategoriesText(s: string, s1: string, s2: string, c: Categories, rest: string)
    requires s == "{\"essential\":" + s1 && s1 == BoolText(c.essential) + s2
    requires s2 == FieldsText(c.functional, c.analytics, c.marketing) + rest
    ensures s == EncodeCategories(c) + rest
  {
  }

  function ReadCategories(s: string): (r: Option<(Categories, string)>)
    ensures r.Some? ==> s == EncodeCategories(r.value.0) + r.value.1
  {
    var s1 :- Expect("{\"essential\":", s);
    var (e, s2) :- ReadBool(s1);
    var (f, a, m, s3) :- ReadFields(s2);
    CategoriesText(s, s1, s2, Categories(e, f, a, m), s3);
    Some((Categories(e, f, a, m), s3))
  }

  function ReadSourceTail(s: string): (r: Option<Source>)
    ensures r.Some? ==> s == SourceTail(r.value)
  {
    var s1 :- Expect(",\"source\":\"", s);
    var (text, s2) :- ReadString(s1);
    var source :- ReadSource(text);
    if s2 == "}" then Some(source) else None
  }

  function ReadCategoriesTail(s: string): (r: Option<(Categories, Source)>)
    ensures r.Some? ==> s == CategoriesTail(r.value.0, r.value.1)
  {
    var s1 :- Expect(",\"categories\":", s);
    var (c, s2) :- ReadCategories(s1);
    var source :- ReadSourceTail(s2);
    RegroupTail(",\"categories\":", EncodeCategories(c), "", SourceTail(source));
    Some((c, source))
  }

  function ReadTimestampTail(s: string): (r: Option<(string, Categories, Source)>)
    ensures r.Some? ==> JsonPlain(r.value.0) && s == TimestampTail(r.value.0, r.value.1, r.value.2)
  {
    var s1 :- Expect(",\"timestamp\":\"", s);
    var (ts, s2) :- ReadString(s1);
    var (c, source) :- ReadCategoriesTail(s2);
    RegroupTail(",\"timestamp\":\"", ts, "\"", CategoriesTail(c, source));
    Some((ts, c, source))
  }

  /** `JSON.parse(text) as ConsentRecord` on the texts `Encode` writes; any other text
      reads as no record. The reader accepts nothing but the writer's texts: what it
      reads, written again, is the text it read. */
  function Parse(s: string): (r: Option<Record>)
    ensures r.Some? ==> JsonPlain(r.value.version) && JsonPlain(r.value.timestamp)
    ensures r.Some? ==> Encode(r.value) == s
  {
    var s1 :- Expect("{\"version\":\"", s);
    var (version, s2) :- ReadString(s1);
    var (ts, c, source) :- ReadTimestampTail(s2);
    RegroupTail("{\"version\":\"", version, "\"", TimestampTail(ts, c, source));
    Some(Record(version, ts, c, source))
  }

  lemma ExpectLiteral(lit: string, rest: string)
    ensures Expect(lit, lit + rest) == Some(rest)
  {
    assert (lit + rest)[|lit|..] == rest;
  }

  lemma {:induction false} ReadStringPlain(a: string, rest: string)
    requires JsonPlain(a)
    ensures ReadString(a + "\"" + rest) == Some((a, rest))
    decreases |a|
  {
    var s := a + "\"" + rest;
    if |a| == 0 {
      assert s[1..] == rest;
    } else {
      assert s[1..] == a[1..] + "\"" + rest;
      ReadStringPlain(a[1..], rest);
      assert [a[0]] + a[1..] == a;
    }
  }

  lemma ReadBoolText(b: bool, rest: string)
    ensures ReadBool(BoolText(b) + rest) == Some((b, rest))
  {
    var s := BoolText(b) + rest;
    if b {
      assert "true" <= s && s[4..] == rest;
    } else {
      assert !("true" <= s) by {
        assert s[0] == 'f';
      }
      assert "false" <= s && s[5..] == rest;
    }
  }

  lemma NotPrefixAt(lit: string, t: string, k: nat)
    requires k < |lit| && k < |t| && lit[k] != t[k]
    ensures !(lit <= t)
  {
  }

  /** An optional key reads back as written, provided the text after it does not go on
      with the same key. */
  lemma ReadFieldText(key: string, o: Option<bool>, rest: string)
    requires !((",\"" + key + "\":") <= rest)
    ensures ReadField(key, Field(key, o) + rest) == Some((o, rest))
  {
    var lit := ",\"" + key + "\":";
    if o.Some? {
      var s := Field(key, o) + rest;
      assert s == lit + (BoolText(o.value) + rest);
      ExpectLiteral(lit, BoolText(o.value) + rest);
      ReadBoolText(o.value, rest);
    } else {
      assert Field(key, o) + rest == rest;
    }
  }

  lemma ReadMarketingText(m: Option<bool>, rest: string)
    ensures ReadMarketing(Field("marketing", m) + ("}" + rest)) == Some((m, rest))
  {
    NotPrefixAt(",\"marketing\":", "}" + rest, 0);
    ReadFieldText("marketing", m, "}" + rest);
    ExpectLiteral("}", rest);
  }

  lemma ReadAnalyticsText(a: Option<bool>, m: Option<bool>, rest: string)
    ensures ReadAnalytics(Field("analytics", a) + (Field("marketing", m) + ("}" + rest))) == Some((a, m, rest))
  {
    var t := Field("marketing", m) + ("}" + rest);
    if m.Some? {
      assert t[2] == 'm';
      NotPrefixAt(",\"analytics\":", t, 2);
    } else {
      assert t[0] == '}';
      NotPrefixAt(",\"analytics\":", t, 0);
    }
    ReadFieldText("analytics", a, t);
    ReadMarketingText(m, rest);
  }

  lemma ReadFieldsText(f: Option<bool>, a: Option<bool>, m: Option<bool>, rest: string)
    ensures ReadFields(FieldsText(f, a, m) + rest) == Some((f, a, m, rest))
  {
    var ta := Field("analytics", a) + (Field("marketing", m) + ("}" + rest));
    Regroup(Field("functional", f), Field("analytics", a), Field("marketing", m), "}", rest);
    var lit := ",\"" + "functional" + "\":";
    assert lit[0] == ',' && lit[2] == 'f';
    if a.Some? {
      assert ta[2] == 'a';
      NotPrefixAt(lit, ta, 2);
    } else if m.Some? {
      assert ta[2] == 'm';
      NotPrefixAt(lit, ta, 2);
    } else {
      assert ta[0] == '}';
      NotPrefixAt(lit, ta, 0);
    }
    ReadFieldText("functional", f, ta);
    ReadAnalyticsText(a, m, rest);
  }

  lemma ReadCategoriesText(c: Categories, rest: string)
    ensures ReadCategories(EncodeCategories(c) + rest) == Some((c, rest))
  {
    var tf := FieldsText(c.functional, c.analytics, c.marketing) + rest;
    assert EncodeCategories(c) + rest == "{\"essential\":" + (BoolText(c.essential) + tf);
    ExpectLiteral("{\"essential\":", BoolText(c.essential) + tf);
    ReadBoolText(c.essential, tf);
    ReadFieldsText(c.functional, c.analytics, c.marketing, rest);
  }

  lemma ReadSourceTailText(src: Source)
    ensures ReadSourceTail(SourceTail(src)) == Some(src)
  {
    var t := SourceText(src) + "\"" + "}";
    assert SourceTail(src) == ",\"source\":\"" + t;
    ExpectLiteral(",\"source\":\"", t);
    ReadStringPlain(SourceText(src), "}");
  }

  lemma ReadCategoriesTailText(c: Categories, src: Source)
    ensures ReadCategoriesTail(CategoriesTail(c, src)) == Some((c, src))
  {
    var t := EncodeCategories(c) + SourceTail(src);
    assert CategoriesTail(c, src) == ",\"categories\":" + t;
    ExpectLiteral(",\"categories\":", t);
    ReadCategoriesText(c, SourceTail(src));
    ReadSourceTailText(src);
  }

  lemma ReadTimestampTailText(ts: string, c: Categories, src: Source)
    requires JsonPlain(ts)
    ensures ReadTimestampTail(TimestampTail(ts, c, src)) == Some((ts, c, src))
  {
    var t := ts + "\"" + CategoriesTail(c, src);
    assert TimestampTail(ts, c, src) == ",\"timestamp\":\"" + t;
    ExpectLiteral(",\"timestamp\":\"", t);
    ReadStringPlain(ts, CategoriesTail(c, src));
    ReadCategoriesTailText(c, src);
  }

  /** The reader inverts the writer: every record whose strings `JSON.stringify` writes
      verbatim reads back as itself. */
  lemma ParseEncode(r: Record)
    requires JsonPlain(r.version) && JsonPlain(r.timestamp)
    ensures Parse(Encode(r)) == Some(r)
  {
    var t := r.version + "\"" + TimestampTail(r.timestamp, r.categories, r.source);
    assert Encode(r) == "{\"version\":\"" + t;
    ExpectLiteral("{\"version\":\"", t);
    ReadStringPlain(r.version, TimestampTail(r.timestamp, r.categories, r.source));
    ReadTimestampTailText(r.timestamp, r.categories, r.source);
  }

  /** Two records with the same text are the same record. */
  lemma EncodeInjective(r1: Record, r2: Record)
    requires JsonPlain(r1.version) && JsonPlain(r1.timestamp)
    requires JsonPlain(r2.version) && JsonPlain(r2.timestamp)
    requires Encode(r1) == Encode(r2)
    ensures r1 == r2
  {
    ParseEncode(r1);
    ParseEncode(r2);
  }

  function HexValue(c: char): (v: nat)
    requires Text.IsHexDigit(c)
    ensures v < 16
  {
    if '0' <= c <= '9' then c as int - '0' as int
    else if 'a' <= c <= 'f' then c as int - 'a' as int + 10
    else c as int - 'A' as int + 10
  }

  /** `decodeURIComponent`: `None` is the `URIError` it throws on a malformed escape.
      Escapes of bytes from 0x80 up, which start multi-byte UTF-8 sequences, are not
      modelled and also read as malformed. */
  function UriDecode(s: string): Option<string>
    decreases |s|
  {
    if |s| == 0 then Some("")
    else if s[0] != '%' then
      var rest :- UriDecode(s[1..]);
      Some([s[0]] + rest)
    else if |s| >= 3 && Text.IsHexDigit(s[1]) && Text.IsHexDigit(s[2])
      && HexValue(s[1]) * 16 + HexValue(s[2]) < 0x80 then
      var rest :- UriDecode(s[3..]);
      Some([(HexValue(s[1]) * 16 + HexValue(s[2])) as char] + rest)
    else None
  }

  /** Text with no `%` decodes to itself. */
  lemma {:induction false} UriDecodePlain(s: string)
    requires '%' !in s
    ensures UriDecode(s) == Some(s)
    decreases |s|
  {
    if |s| > 0 {
      assert '%' !in s[1..] by {
        forall i | 0 <= i < |s[1..]| ensures s[1..][i] != '%' {
          assert s[1..][i] == s[i + 1];
        }
      }
      UriDecodePlain(s[1..]);
      assert [s[0]] + s[1..] == s;
    }
  }
}
