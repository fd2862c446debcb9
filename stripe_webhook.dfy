/** The payment webhook of `src/app/api/webhooks/stripe/route.ts`: three guards on the
    request, then a dispatch on the event type that records the payment's outcome on the
    user named in the checkout session's metadata. Signature verification and the
    database are parameters. */
module StripeWebhook {

  import opened Wrappers
  import opened Values
  import opened Http
  import opened Browser

  const SignatureHeader := "stripe-signature"
  const Completed := "checkout.session.completed"
  const AsyncSucceeded := "checkout.session.async_payment_succeeded"
  const AsyncFailed := "checkout.session.async_payment_failed"

  /** What the handler reads of a verified event: its type, the session's
      `metadata.userId` and its `payment_intent`. */
  datatype StripeEvent = StripeEvent(eventType: string, userId: Option<string>, paymentIntent: Option<string>)

  /** `prisma.user.update({ where: { id }, data })`. */
  datatype UserUpdate = UserUpdate(id: string, data: map<string, Value>)

  /** The response and the update the request issued, if any. */
  datatype Outcome = Outcome(response: Response, write: Option<UserUpdate>)

  function Error(message: string, status: nat): Response {
    Json(Obj(map["error" := Str(message)]), status)
  }

  const Received := Json(Obj(map["received" := Bool(true)]), 200)

  /** `session.payment_intent as string`: an absent intent is stored as `null`. */
  function IntentValue(p: Option<string>): Value {
    if p.Some? then Str(p.value) else Null
  }

  /** The `switch` on the event type: the update it issues, if any. */
  function Dispatch(e: StripeEvent): (r: Option<UserUpdate>)
    ensures r.Some? <==> IsSet(e.userId) && e.eventType in {Completed, AsyncSucceeded, AsyncFailed}
  {
    if !IsSet(e.userId) then None
    else if e.eventType == Completed || e.eventType == AsyncSucceeded then
      Some(UserUpdate(e.userId.value, map["paymentId" := IntentValue(e.paymentIntent), "paymentStatus" := Str("COMPLETED")]))
    else if e.eventType == AsyncFailed then
      Some(UserUpdate(e.userId.value, map["paymentStatus" := Str("FAILED")]))
    else None
  }

  /** `POST(request)`. `construct` is `stripe.webhooks.constructEvent` (`None` when it
      throws); `update` is the database call (`false` when it throws). */
  function Post(body: string, headers: Headers, secret: Option<string>,
                construct: (string, string, string) -> Option<StripeEvent>,
                update: UserUpdate -> bool): Outcome
  {
    var signature := Header(headers, SignatureHeader);
    if !IsSet(signature) then Outcome(Error("Missing stripe-signature header", 400), None)
    else if !IsSet(secret) then Outcome(Error("Webhook misconfigured", 401), None)
    else
      match construct(body, signature.value, secret.value)
      case None => Outcome(Error("Webhook signature verification failed", 400), None)
      case Some(e) =>
        match Dispatch(e)
        case None => Outcome(Received, None)
        case Some(u) =>
          if update(u) then Outcome(Received, Some(u))
          else Outcome(Error("Webhook handler failed", 500), Some(u))
  }

  // ---------------------------------------------------------------------------------
  // Properties

  /** The guards answer in order, before the event is looked at and without a write. */
  lemma Guards(body: string, headers: Headers, secret: Option<string>,
               construct: (string, string, string) -> Option<StripeEvent>, update: UserUpdate -> bool)
    ensures !IsSet(Header(headers, SignatureHeader)) ==>
      Post(body, headers, secret, construct, update) == Outcome(Error("Missing stripe-signature header", 400), None)
    ensures IsSet(Header(headers, SignatureHeader)) && !IsSet(secret) ==>
      Post(body, headers, secret, construct, update) == Outcome(Error("Webhook misconfigured", 401), None)
    ensures (IsSet(Header(headers, SignatureHeader)) && IsSet(secret)
             && construct(body, headers[SignatureHeader], secret.value).None?) ==>
      Post(body, headers, secret, construct, update) == Outcome(Error("Webhook signature verification failed", 400), None)
  {
  }

  /** A completed checkout, synchronous or not, records the payment intent and
      `COMPLETED` on the session's user. */
  lemma CompletedRecordsPayment(e: StripeEvent)
    requires e.eventType == Completed || e.eventType == AsyncSucceeded
    requires IsSet(e.userId)
    ensures Dispatch(e) == Some(UserUpdate(e.userId.value, map["paymentId" := IntentValue(e.paymentIntent), "paymentStatus" := Str("COMPLETED")]))
  {
  }

  /** A failed asynchronous payment records `FAILED` and leaves the payment id alone. */
  lemma FailedKeepsPaymentId(e: StripeEvent)
    requires e.eventType == AsyncFailed && IsSet(e.userId)
    ensures Dispatch(e).Some? && Dispatch(e).value.id == e.userId.value
    ensures Dispatch(e).value.data.Keys == {"paymentStatus"} && Dispatch(e).value.data["paymentStatus"] == Str("FAILED")
  {
    assert AsyncFailed != Completed && AsyncFailed != AsyncSucceeded by {
      assert AsyncFailed[17] != Completed[17] && AsyncFailed[31] != AsyncSucceeded[31];
    }
  }

  /** The only statuses ever written are the two, always with the session's user as key. */
  lemma StatusesWritten(e: StripeEvent)
    requires Dispatch(e).Some?
    ensures Dispatch(e).value.id == e.userId.value
    ensures "paymentStatus" in Dispatch(e).value.data
    ensures Dispatch(e).value.data["paymentStatus"] in {Str("COMPLETED"), Str("FAILED")}
    ensures Dispatch(e).value.data["paymentStatus"] == Str("FAILED") <==> e.eventType == AsyncFailed
  {
    assert AsyncFailed != Completed && AsyncFailed != AsyncSucceeded by {
      assert AsyncFailed[17] != Completed[17] && AsyncFailed[31] != AsyncSucceeded[31];
    }
  }

  /** A verified event with no user or of another type changes nothing and is still
      acknowledged; so is every event whose update succeeds. A failed update answers 500. */
  lemma VerifiedOutcomes(body: string, headers: Headers, secret: Option<string>,
                         construct: (string, string, string) -> Option<StripeEvent>, update: UserUpdate -> bool)
    requires IsSet(Header(headers, SignatureHeader)) && IsSet(secret)
    requires construct(body, headers[SignatureHeader], secret.value).Some?
    ensures var e := construct(body, headers[SignatureHeader], secret.value).value;
      var o := Post(body, headers, secret, construct, update);
      && o.write == Dispatch(e)
      && (Dispatch(e).None? ==> o.response == Received)
      && (Dispatch(e).Some? ==> o.response == if update(Dispatch(e).value) then Received else Error("Webhook handler failed", 500))
  {
  }

  /** Only a verified event can change a user. */
  lemma WritesNeedVerification(body: string, headers: Headers, secret: Option<string>,
                               construct: (string, string, string) -> Option<StripeEvent>, update: UserUpdate -> bool)
    requires Post(body, headers, secret, construct, update).write.Some?
    ensures IsSet(Header(headers, SignatureHeader)) && IsSet(secret)
    ensures construct(body, headers[SignatureHeader], secret.value).Some?
    ensures Post(body, headers, secret, construct, update).write == Dispatch(construct(body, headers[SignatureHeader], secret.value).value)
  {
  }

  /** An acknowledged request is one that passed the three guards. */
  lemma ReceivedMeansVerified(body: string, headers: Headers, secret: Option<string>,
                              construct: (string, string, string) -> Option<StripeEvent>, update: UserUpdate -> bool)
    requires Post(body, headers, secret, construct, update).response.status == 200
    ensures IsSet(Header(headers, SignatureHeader)) && IsSet(secret)
    ensures construct(body, headers[SignatureHeader], secret.value).Some?
  {
  }
}
