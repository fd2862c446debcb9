/** `GET /api/geo` of `src/app/api/geo/route.ts`: the country found for the request and
    whether it is in the EU, cacheable for an hour; when the check throws, a non-EU
    answer that is not cached. */
module GeoRoute {

  import opened Wrappers
  import opened Values
  import opened Http
  import opened Geo
  import Text

  const CacheControl: string := "public, s-maxage=3600, stale-while-revalidate=1800"

  /** The handler, with `reply` the answer to `LookupRequest(h)`. */
  function GeoGet(h: Headers, reply: Lookup): Response {
    var country := ClientCountry(h, reply);
    match EUOf(country)
    case Some(inEU) =>
      Response(200, Obj(map["countryCode" := country, "isInEU" := Bool(inEU)]), map["Cache-Control" := CacheControl])
    case None =>
      Json(Obj(map["countryCode" := Null, "isInEU" := Bool(false), "error" := Str("Geolocation detection failed")]), 200)
  }

  /** The answer is always 200 with a country and an EU flag; the flag is set only for a
      listed code, and a failed check says "not EU" rather than assuming it. */
  lemma GeoAnswer(h: Headers, reply: Lookup)
    ensures var r := GeoGet(h, reply);
      && r.status == 200 && r.body.Obj?
      && "countryCode" in r.body.fields && "isInEU" in r.body.fields
      && (r.body.fields["isInEU"] == Bool(true) <==>
            r.body.fields["countryCode"].Str? && IsEUCountry(Some(r.body.fields["countryCode"].s)))
      && ("error" in r.body.fields <==> EUOf(ClientCountry(h, reply)).None?)
      && ("error" in r.body.fields ==> r.body.fields["isInEU"] == Bool(false) && r.body.fields["countryCode"] == Null)
  {
  }

  /** Only a successful answer is cached, for an hour at the edge. */
  lemma GeoCaching(h: Headers, reply: Lookup)
    ensures var r := GeoGet(h, reply);
      && ("Cache-Control" in r.headers <==> EUOf(ClientCountry(h, reply)).Some?)
      && r.headers == if EUOf(ClientCountry(h, reply)).Some? then map["Cache-Control" := CacheControl] else map[]
  {
  }

  /** The answer agrees with `isRequestFromEU` whenever that one resolves. */
  lemma GeoAgreesWithCheck(h: Headers, reply: Lookup)
    requires IsRequestFromEU(h, reply).Some?
    ensures GeoGet(h, reply).body.fields["isInEU"] == Bool(IsRequestFromEU(h, reply).value)
  {
  }
}
