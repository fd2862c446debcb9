/** The region check of `src/lib/geo.ts`: the client's address from the proxy headers,
    its country from the ipapi.co lookup (or from a CDN country header when there is no
    address), and whether that country is one of the 27 EU member states. The lookup's
    outcome is a parameter. */
module Geo {

  import opened Wrappers
  import opened Values
  import opened Browser
  import opened Http
  import Text

  /** The EU member states after Brexit, as upper-case ISO 3166-1 alpha-2 codes. */
  const EUCountryCodes: seq<string> := [
    "AT", "BE", "BG", "HR", "CY", "CZ", "DK", "EE", "FI", "FR", "DE", "GR", "HU", "IE",
    "IT", "LV", "LT", "LU", "MT", "NL", "PL", "PT", "RO", "SK", "SI", "ES", "SE"]

  /** `isEUCountry(countryCode)`: a missing or empty code is not EU; otherwise the code
      in upper case must be listed. */
  predicate IsEUCountry(code: Option<string>) {
    IsSet(code) && Text.ToUpperAscii(code.value) in EUCountryCodes
  }

  /** `isEUCountry` on whatever the lookup produced: a falsy value is not EU, a string is
      checked, and any other value makes `toUpperCase` throw (`None`). */
  function EUOf(v: Value): Option<bool> {
    if !Truthy(v) then Some(false)
    else if v.Str? then Some(IsEUCountry(Some(v.s)))
    else None
  }

  /** `getClientIP(headers)`: the first entry of `x-forwarded-for`, trimmed, when that
      header is set (and nothing if that entry is empty); otherwise `cf-connecting-ip`,
      then `x-real-ip`. */
  function ClientIP(h: Headers): Option<string> {
    var forwardedFor := Header(h, "x-forwarded-for");
    if IsSet(forwardedFor) then
      var first := Text.Trim(Text.Split(forwardedFor.value, ',')[0]);
      if first != "" then Some(first) else None
    else if IsSet(Header(h, "cf-connecting-ip")) then Header(h, "cf-connecting-ip")
    else if IsSet(Header(h, "x-real-ip")) then Header(h, "x-real-ip")
    else None
  }

  /** What the ipapi.co request came back with. */
  datatype Lookup =
    /** `fetch` rejected. */
    | Unreachable
    /** A response that is not `ok`. */
    | NotOk(status: nat)
    /** An `ok` response, with its parsed body, `None` when the body is not JSON. */
    | Answered(data: Option<Value>)

  /** The request `getCountryFromIP(ip)` sends. */
  function LookupUrl(ip: string): string {
    "https://ipapi.co/" + ip + "/json/"
  }

  const LookupAgent: string := "AI-Dietitian/1.0"

  /** `getCountryFromIP`: `null` on every failure and on an `error` in the answer;
      otherwise `country_code || countryCode || null`. */
  function CountryFromLookup(reply: Lookup): Value {
    match reply
    case Unreachable => Null
    case NotOk(_) => Null
    case Answered(None) => Null
    case Answered(Some(data)) =>
      if Truthy(Prop(data, "error")) then Null
      else if Truthy(Prop(data, "country_code")) then Prop(data, "country_code")
      else if Truthy(Prop(data, "countryCode")) then Prop(data, "countryCode")
      else Null
  }

  /** The lookup `getClientCountry(headers)` makes, if any. */
  function LookupRequest(h: Headers): Option<string> {
    match ClientIP(h)
    case Some(ip) => Some(LookupUrl(ip))
    case None => None
  }

  /** `getClientCountry(headers)`, with `reply` the answer to `LookupRequest(h)`: without
      an address, the first of `cf-ipcountry` and `x-country-code` that is set. */
  function ClientCountry(h: Headers, reply: Lookup): Value {
    if ClientIP(h).None? then
      match FirstHeader(h, ["cf-ipcountry", "x-country-code"])
      case Some(c) => Str(c)
      case None => Null
    else CountryFromLookup(reply)
  }

  /** `isRequestFromEU(headers)`; `None` is a rejected promise. */
  function IsRequestFromEU(h: Headers, reply: Lookup): Option<bool> {
    EUOf(ClientCountry(h, reply))
  }

  // ---------------------------------------------------------------------------------
  // Properties

  lemma UpperIdempotent(s: string)
    ensures Text.ToUpperAscii(Text.ToUpperAscii(s)) == Text.ToUpperAscii(s)
  {
  }

  /** The list holds 27 codes and not the United Kingdom's. */
  lemma CodesCount()
    ensures |EUCountryCodes| == 27
    ensures "GB" !in EUCountryCodes && "UK" !in EUCountryCodes
  {
    forall i | 0 <= i < 14 ensures EUCountryCodes[i] != "GB" && EUCountryCodes[i][0] != 'U' {
    }
    forall i | 14 <= i < 27 ensures EUCountryCodes[i] != "GB" && EUCountryCodes[i][0] != 'U' {
    }
    assert "UK"[0] == 'U';
  }

  predicate Shaped(c: string) {
    |c| == 2 && 'A' <= c[0] <= 'Z' && 'A' <= c[1] <= 'Z'
  }

  /** Every listed code is two upper-case letters. */
  lemma CodesShape()
    ensures forall c :: c in EUCountryCodes ==> |c| == 2 && 'A' <= c[0] <= 'Z' && 'A' <= c[1] <= 'Z'
  {
    forall i | 0 <= i < 9 ensures Shaped(EUCountryCodes[i]) {
    }
    forall i | 9 <= i < 18 ensures Shaped(EUCountryCodes[i]) {
    }
    forall i | 18 <= i < 27 ensures Shaped(EUCountryCodes[i]) {
    }
    assert forall i :: 0 <= i < |EUCountryCodes| ==> Shaped(EUCountryCodes[i]);
  }

  /** The check ignores case: a code and its upper-case form agree, so every listed code
      is recognised in lower case too. */
  lemma EUIgnoresCase(s: string)
    ensures IsEUCountry(Some(s)) == IsEUCountry(Some(Text.ToUpperAscii(s)))
    ensures IsEUCountry(Some(s)) ==> |s| == 2
  {
    UpperIdempotent(s);
  }

  /** The lower-case spelling of a two-letter upper-case code. */
  function Lower(c: string): string
    requires |c| == 2 && 'A' <= c[0] <= 'Z' && 'A' <= c[1] <= 'Z'
  {
    [(c[0] as int + 32) as char, (c[1] as int + 32) as char]
  }

  lemma UpperOfLower(c: string)
    requires |c| == 2 && 'A' <= c[0] <= 'Z' && 'A' <= c[1] <= 'Z'
    ensures Text.ToUpperAscii(c) == c && Text.ToUpperAscii(Lower(c)) == c
  {
  }

  /** A listed code in upper or lower case is EU. */
  lemma ListedIsEU(c: string)
    requires c in EUCountryCodes
    ensures |c| == 2 && 'A' <= c[0] <= 'Z' && 'A' <= c[1] <= 'Z'
    ensures IsEUCountry(Some(c)) && IsEUCountry(Some(Lower(c)))
  {
    CodesShape();
    UpperOfLower(c);
  }

  /** When `x-forwarded-for` is set it alone decides the address, even when its first
      entry is blank; the address never holds a comma or surrounding white space. */
  lemma ForwardedForDecides(h: Headers)
    requires IsSet(Header(h, "x-forwarded-for"))
    ensures ClientIP(h) == ClientIP(map["x-forwarded-for" := h["x-forwarded-for"]])
    ensures ClientIP(h).Some? ==>
      && ',' !in ClientIP(h).value
      && !Text.IsWhitespace(ClientIP(h).value[0])
      && !Text.IsWhitespace(ClientIP(h).value[|ClientIP(h).value| - 1])
  {
    var first := Text.Split(h["x-forwarded-for"], ',')[0];
    Text.SplitFirst(h["x-forwarded-for"], ',');
    Text.TrimKeeps(first);
  }

  /** Without any address no lookup is made, and the country is the CDN's header. */
  lemma NoAddressNoLookup(h: Headers, reply: Lookup)
    requires ClientIP(h).None?
    ensures LookupRequest(h).None?
    ensures ClientCountry(h, reply) == match FirstHeader(h, ["cf-ipcountry", "x-country-code"])
      case Some(c) => Str(c)
      case None => Null
  {
  }

  /** Every failed lookup gives no country, and no country is never EU. */
  lemma FailedLookupNotEU(h: Headers, reply: Lookup)
    requires ClientIP(h).Some? && !reply.Answered?
    ensures ClientCountry(h, reply) == Null
    ensures IsRequestFromEU(h, reply) == Some(false)
  {
  }

  /** A lookup answer with an `error` gives no country, whatever else it says. */
  lemma LookupErrorIgnoresCountry(data: Value)
    requires Truthy(Prop(data, "error"))
    ensures CountryFromLookup(Answered(Some(data))) == Null
  {
  }

  /** The request is from the EU exactly when, without an address, the first CDN country
      header that is set names a listed code, or, with an address, the lookup answered with
      JSON carrying no `error` and its first truthy country field is a listed code in any
      case. */
  lemma FromEUExactly(h: Headers, reply: Lookup)
    ensures IsRequestFromEU(h, reply) == Some(true) <==>
      if ClientIP(h).None? then
        var header := FirstHeader(h, ["cf-ipcountry", "x-country-code"]);
        header.Some? && Text.ToUpperAscii(header.value) in EUCountryCodes
      else
        && reply.Answered? && reply.data.Some? && !Truthy(Prop(reply.data.value, "error"))
        && var code := if Truthy(Prop(reply.data.value, "country_code")) then Prop(reply.data.value, "country_code")
                       else Prop(reply.data.value, "countryCode");
           code.Str? && Text.ToUpperAscii(code.s) in EUCountryCodes
  {
    var v := ClientCountry(h, reply);
    assert IsRequestFromEU(h, reply) == Some(true) <==> v.Str? && Text.ToUpperAscii(v.s) in EUCountryCodes by {
      CountryListed(h, reply);
    }
    if ClientIP(h).None? {
      NoAddressNoLookup(h, reply);
    } else if reply.Answered? && reply.data.Some? {
      EmptyNotListed();
    }
  }

  /** Through the country found: EU exactly for a string whose upper case is listed. */
  lemma CountryListed(h: Headers, reply: Lookup)
    ensures IsRequestFromEU(h, reply) == Some(true) <==>
      ClientCountry(h, reply).Str? && Text.ToUpperAscii(ClientCountry(h, reply).s) in EUCountryCodes
  {
  }

  lemma EmptyNotListed()
    ensures Text.ToUpperAscii("") !in EUCountryCodes
  {
    CodesShape();
  }
}
