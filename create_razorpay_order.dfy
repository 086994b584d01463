/** The create-razorpay-order endpoint: checks the method, the amount and the
    Razorpay keys, in that order, fills in the order defaults and reports the
    created order back with the public key id. */
module CreateRazorpayOrder {
  import opened Js
  import opened Http

  /** The request body fields the handler destructures. */
  datatype Payload = Payload(amount: Option<Json>, currency: Option<Json>, receipt: Option<Json>, description: Option<Json>)

  /** `req.body || {}` destructured: members of an object body, and nothing
      from a missing or non-object one. */
  function PayloadOf(body: Option<Json>): (p: Payload)
    ensures body.None? || !body.value.JObj? ==> p == Payload(None, None, None, None)
    ensures body.Some? && body.value.JObj? ==>
      p.amount == Lookup(body.value.fields, "amount") && p.currency == Lookup(body.value.fields, "currency") &&
      p.receipt == Lookup(body.value.fields, "receipt") && p.description == Lookup(body.value.fields, "description")
  {
    Payload(BodyField(body, "amount"), BodyField(body, "currency"), BodyField(body, "receipt"), BodyField(body, "description"))
  }

  /** The options object handed to `razorpay.orders.create`; `now` is
      `Date.now()`. The currency and description defaults apply only to an
      absent member, the receipt default to any falsy one. */
  function OrderOptions(p: Payload, now: nat): (options: Json)
    requires p.amount.Some?
    ensures Field(options, "amount") == p.amount
    ensures Field(options, "currency") == Some(Default(p.currency, JStr("INR")))
    ensures Field(options, "receipt") == Some(OrElse(p.receipt, JStr("rcpt_" + Decimal(now))))
    ensures Field(options, "description") == Some(Default(p.description, JStr("Timeloop AI Payment")))
    ensures Field(options, "payment_capture") == Some(JNum(1.0))
  {
    var f := [("amount", p.amount.value),
              ("currency", Default(p.currency, JStr("INR"))),
              ("receipt", OrElse(p.receipt, JStr("rcpt_" + Decimal(now)))),
              ("description", Default(p.description, JStr("Timeloop AI Payment"))),
              ("payment_capture", JNum(1.0))];
    LookupAt(f, 0);
    LookupAt(f, 1);
    LookupAt(f, 2);
    LookupAt(f, 3);
    LookupAt(f, 4);
    JObj(f)
  }

  /** The 200 reply: the order's id, amount and currency as Razorpay returned
      them, and the configured key id. */
  function OrderCreated(order: seq<(string, Json)>, keyId: string): (r: Response)
    ensures r.status == 200 && r.body.JsonBody?
    ensures Field(r.body.value, "keyId") == Some(JStr(keyId))
    ensures Lookup(order, "id").Some? ==> Field(r.body.value, "orderId") == Lookup(order, "id")
    ensures Lookup(order, "amount").Some? ==> Field(r.body.value, "amount") == Lookup(order, "amount")
    ensures Lookup(order, "currency").Some? ==> Field(r.body.value, "currency") == Lookup(order, "currency")
  {
    var fields := [("orderId", Lookup(order, "id")),
                   ("amount", Lookup(order, "amount")),
                   ("currency", Lookup(order, "currency")),
                   ("keyId", Some(JStr(keyId)))];
    assert fields[0].1.Some? ==> Lookup(Compact(fields), "orderId") == fields[0].1 by {
      if fields[0].1.Some? { CompactAt(fields, 0); }
    }
    assert fields[1].1.Some? ==> Lookup(Compact(fields), "amount") == fields[1].1 by {
      if fields[1].1.Some? { CompactAt(fields, 1); }
    }
    assert fields[2].1.Some? ==> Lookup(Compact(fields), "currency") == fields[2].1 by {
      if fields[2].1.Some? { CompactAt(fields, 2); }
    }
    CompactAt(fields, 3);
    ObjectResponse(200, fields)
  }

  /** The handler, on the destructured payload. */
  function Handle(httpMethod: string, p: Payload, keyId: Option<string>, keySecret: Option<string>, now: nat,
                  create: Json -> Awaited<seq<(string, Json)>>): (r: Response)
    ensures httpMethod != "POST" ==> r == MethodNotAllowed
    // a missing or falsy amount (0 included) is refused before the keys are looked at
    ensures httpMethod == "POST" && !Present(p.amount) ==> r == ErrorResponse(400, "amount is required (in paise)")
    ensures httpMethod == "POST" && Present(p.amount) && !(NonEmpty(keyId) && NonEmpty(keySecret)) ==>
      r == ErrorResponse(500, "Razorpay keys not configured")
    ensures httpMethod == "POST" && Present(p.amount) && NonEmpty(keyId) && NonEmpty(keySecret) ==>
      match create(OrderOptions(p, now))
      case Rejected(message) => r == ErrorResponse(500, MessageOr(message, "Failed to create Razorpay order"))
      case Fulfilled(order) => r == OrderCreated(order, keyId.value)
    ensures r.status == 200 ==> httpMethod == "POST" && Present(p.amount) && NonEmpty(keyId) && NonEmpty(keySecret)
  {
    if httpMethod != "POST" then MethodNotAllowed
    else if !Present(p.amount) then ErrorResponse(400, "amount is required (in paise)")
    else if !NonEmpty(keyId) || !NonEmpty(keySecret) then ErrorResponse(500, "Razorpay keys not configured")
    else match create(OrderOptions(p, now))
      case Rejected(message) => ErrorResponse(500, MessageOr(message, "Failed to create Razorpay order"))
      case Fulfilled(order) => OrderCreated(order, keyId.value)
  }

  /** The endpoint: `req.body || {}` destructured, then the handler. */
  function CreateOrder(httpMethod: string, body: Option<Json>, keyId: Option<string>, keySecret: Option<string>, now: nat,
                       create: Json -> Awaited<seq<(string, Json)>>): (r: Response)
    // a POST without an object body carrying an amount is refused
    ensures httpMethod == "POST" && (body.None? || !body.value.JObj?) ==>
      r == ErrorResponse(400, "amount is required (in paise)")
    ensures r.status == 200 ==>
      httpMethod == "POST" && body.Some? && body.value.JObj? && Present(Lookup(body.value.fields, "amount"))
  {
    Handle(httpMethod, PayloadOf(body), keyId, keySecret, now, create)
  }

  /** A body with only an amount gets the INR currency, the default
      description and a receipt made from the clock. */
  lemma DefaultsForBareAmount(amount: Json, now: nat)
    ensures var options := OrderOptions(Payload(Some(amount), None, None, None), now);
      Field(options, "currency") == Some(JStr("INR")) &&
      Field(options, "description") == Some(JStr("Timeloop AI Payment")) &&
      Field(options, "receipt") == Some(JStr("rcpt_" + Decimal(now)))
  {
  }

  /** An explicit `null` currency is not replaced by the default, whereas an
      empty receipt is. */
  lemma NullCurrencyKept(amount: Json, now: nat)
    ensures Field(OrderOptions(Payload(Some(amount), Some(JNull), Some(JStr("")), None), now), "currency") == Some(JNull)
    ensures Field(OrderOptions(Payload(Some(amount), Some(JNull), Some(JStr("")), None), now), "receipt") ==
            Some(JStr("rcpt_" + Decimal(now)))
  {
  }
}
