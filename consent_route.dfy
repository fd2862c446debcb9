/** The audit endpoint of `src/app/api/consent/route.ts`: `POST` checks the three flags
    and logs the decision, `DELETE` logs a withdrawal, `GET` only describes itself. The
    log lines are returned as audit entries; the clock readings are parameters, one per
    `new Date()` the handler evaluates. */
module ConsentRoute {

  import opened Wrappers
  import opened Values
  import opened Browser
  import opened Http
  import Text
  import ConsentRecord
  import ConsentHook

  const ClientHeaders: seq<string> := ["x-forwarded-for", "cf-connecting-ip", "x-real-ip"]
  const MaxAddress: nat := 50
  const MaxAgent: nat := 200

  /** The first of the three proxy headers that is set, or `unknown`; unlike the geo
      lookup it keeps the whole `x-forwarded-for` list. */
  function ClientAddress(h: Headers): string {
    FirstHeader(h, ClientHeaders).GetOr("unknown")
  }

  function UserAgent(h: Headers): string {
    FirstHeader(h, ["user-agent"]).GetOr("unknown")
  }

  /** What the handlers write to the server log. */
  datatype Audit =
    | Recorded(functional: bool, analytics: bool, marketing: bool, version: Value,
               ipAddress: string, userAgent: string, timestamp: string)
    | Withdrawn(timestamp: string, ipAddress: string, userAgent: string)

  datatype Reply = Reply(response: Response, audit: Option<Audit>)

  function Failure(message: string, status: nat): Response {
    Json(Obj(map["success" := Bool(false), "error" := Str(message)]), status)
  }

  /** `GET`: headers are read but unused. */
  function Get(h: Headers): Response {
    Json(Obj(map[
      "success" := Bool(true),
      "message" := Str("Consent API endpoint - use client-side cookieManager for actual state"),
      "note" := Str("This endpoint is for server-side consent tracking and audit logs")]), 200)
  }

  /** `POST` with the parsed body, `None` when `request.json()` rejects. Destructuring a
      `null` body throws, which the handler's catch turns into a 500 as well. */
  function Post(body: Option<Value>, h: Headers, loggedAt: string, repliedAt: string): Reply {
    if body.None? || body.value.Null? || body.value.Undefined? then
      Reply(Failure("Failed to save consent", 500), None)
    else
      var v := body.value;
      var functional := Prop(v, "functional");
      var analytics := Prop(v, "analytics");
      var marketing := Prop(v, "marketing");
      var version := Prop(v, "version");
      if !functional.Bool? || !analytics.Bool? || !marketing.Bool? then
        Reply(Failure("Invalid consent preferences", 400), None)
      else
        var entry := Recorded(functional.b, analytics.b, marketing.b,
          if Truthy(version) then version else Str("1.0"),
          Text.Take(ClientAddress(h), MaxAddress), Text.Take(UserAgent(h), MaxAgent), loggedAt);
        Reply(Json(Obj(map["success" := Bool(true), "message" := Str("Consent preferences saved"),
                           "timestamp" := Str(repliedAt)]), 200), Some(entry))
  }

  /** `DELETE` */
  function Delete(h: Headers, loggedAt: string, repliedAt: string): Reply {
    Reply(Json(Obj(map["success" := Bool(true), "message" := Str("Consent withdrawn successfully"),
                       "timestamp" := Str(repliedAt)]), 200),
          Some(Withdrawn(loggedAt, Text.Take(ClientAddress(h), MaxAddress), Text.Take(UserAgent(h), MaxAgent))))
  }

  // ---------------------------------------------------------------------------------
  // Properties

  /** A `POST` succeeds exactly when all three flags are booleans, is refused with 400
      when the body is some other value, and fails with 500 when there is no body to
      destructure; only a success is logged. */
  lemma PostOutcome(body: Option<Value>, h: Headers, loggedAt: string, repliedAt: string)
    ensures var r := Post(body, h, loggedAt, repliedAt);
      && (r.response.status == 200 <==>
            body.Some? && Prop(body.value, "functional").Bool? && Prop(body.value, "analytics").Bool?
            && Prop(body.value, "marketing").Bool?)
      && (r.response.status == 500 <==> body.None? || body.value.Null? || body.value.Undefined?)
      && r.response.status in {200, 400, 500}
      && (r.audit.Some? <==> r.response.status == 200)
      && (r.audit.Some? ==>
            && r.audit.value.Recorded?
            && Bool(r.audit.value.functional) == Prop(body.value, "functional")
            && Bool(r.audit.value.analytics) == Prop(body.value, "analytics")
            && Bool(r.audit.value.marketing) == Prop(body.value, "marketing"))
  {
  }

  /** The logged version is the posted one when truthy, else `1.0`. */
  lemma PostVersion(v: Value, h: Headers, loggedAt: string, repliedAt: string)
    requires Prop(v, "functional").Bool? && Prop(v, "analytics").Bool? && Prop(v, "marketing").Bool?
    ensures var r := Post(Some(v), h, loggedAt, repliedAt);
      r.audit.Some? && r.audit.value.version == if Truthy(Prop(v, "version")) then Prop(v, "version") else Str("1.0")
  {
  }

  /** The logged address and agent are prefixes of the headers, at most 50 and 200
      characters long. */
  lemma AuditBounded(body: Option<Value>, h: Headers, loggedAt: string, repliedAt: string)
    ensures var a := Post(body, h, loggedAt, repliedAt).audit;
      a.Some? ==>
        && |a.value.ipAddress| <= MaxAddress && a.value.ipAddress <= ClientAddress(h)
        && |a.value.userAgent| <= MaxAgent && a.value.userAgent <= UserAgent(h)
    ensures var a := Delete(h, loggedAt, repliedAt).audit;
      a.Some? && |a.value.ipAddress| <= MaxAddress && a.value.ipAddress <= ClientAddress(h)
        && |a.value.userAgent| <= MaxAgent && a.value.userAgent <= UserAgent(h)
  {
  }

  /** The address is the first proxy header that is set; `unknown` only when none is. */
  lemma AddressPrecedence(h: Headers)
    ensures IsSet(Header(h, "x-forwarded-for")) ==> ClientAddress(h) == h["x-forwarded-for"]
    ensures (!IsSet(Header(h, "x-forwarded-for")) && IsSet(Header(h, "cf-connecting-ip"))) ==>
      ClientAddress(h) == h["cf-connecting-ip"]
    ensures (!IsSet(Header(h, "x-forwarded-for")) && !IsSet(Header(h, "cf-connecting-ip"))
      && IsSet(Header(h, "x-real-ip"))) ==> ClientAddress(h) == h["x-real-ip"]
    ensures (!IsSet(Header(h, "x-forwarded-for")) && !IsSet(Header(h, "cf-connecting-ip"))
      && !IsSet(Header(h, "x-real-ip"))) ==> ClientAddress(h) == "unknown"
  {
    assert ClientHeaders[0] == "x-forwarded-for" && ClientHeaders[1] == "cf-connecting-ip" && ClientHeaders[2] == "x-real-ip";
  }

  /** What the consent hook posts is always accepted and logged with its three flags and
      version 1.0. */
  lemma HookSyncAccepted(p: ConsentRecord.Categories, h: Headers, loggedAt: string, repliedAt: string)
    ensures var r := Post(ConsentHook.SyncRequest(p).body, h, loggedAt, repliedAt);
      && r.response.status == 200
      && r.audit.Some? && r.audit.value.Recorded?
      && r.audit.value.functional == p.functional.GetOr(false)
      && r.audit.value.analytics == p.analytics.GetOr(false)
      && r.audit.value.marketing == p.marketing.GetOr(false)
      && r.audit.value.version == Str(ConsentRecord.Version)
  {
  }
}
