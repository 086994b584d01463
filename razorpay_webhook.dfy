/** The Razorpay webhook endpoint: a fixed chain of checks (httpMethod, secret,
    signature header, HMAC-SHA256 of the raw body), then the parsed event is
    dispatched by name and acknowledged. The HMAC, the body stream and
    `JSON.parse` are inputs; the handler is a function of them. */
module RazorpayWebhook {
  import opened Js
  import opened Http

  /** The events the handler names; each one reads `event.data.object`. */
  const NamedEvents: set<string> := {"payment.captured", "payment.failed", "order.paid", "refund.created"}

  const Acknowledged: Response := Response(200, JsonBody(JObj([("received", JBool(true))])))

  /** `event.event`, as a `switch` compares it with `===`: the name, if it is
      a string. */
  function EventName(event: Json): (name: Option<string>)
    ensures name.Some? ==> Field(event, "event") == Some(JStr(name.value))
    ensures name.None? ==> forall s :: Field(event, "event") != Some(JStr(s))
  {
    match Field(event, "event")
    case Some(JStr(s)) => Some(s)
    case _ => None
  }

  /** Whether handling a parsed event throws a TypeError: reading
      `event.event` off `null`, or, for a named event, reading a field of
      `event.data.object` when `data` or `object` is missing or `null`. */
  predicate DispatchThrows(event: Json)
    // only `null`, or an event of a handled name, can throw
    ensures DispatchThrows(event) ==>
      event.JNull? || (EventName(event).Some? && EventName(event).value in NamedEvents)
    // a non-null event carrying an object under `data.object` never throws
    ensures !event.JNull? && Field(event, "data").Some? && Field(event, "data").value.JObj? &&
            Field(Field(event, "data").value, "object").Some? &&
            Field(Field(event, "data").value, "object").value.JObj? ==>
      !DispatchThrows(event)
  {
    event.JNull? ||
    (EventName(event).Some? && EventName(event).value in NamedEvents &&
      var data := Field(event, "data");
      data.None? || data.value.JNull? ||
      var obj := Field(data.value, "object");
      obj.None? || obj.value.JNull?)
  }

  /** The handler. `hmac(secret, payload)` is the hex HMAC-SHA256 digest of
      the UTF-8 payload; `parse` is `JSON.parse`; `typeError` is the message
      of the TypeError the engine raises. */
  function Webhook(httpMethod: string, secret: Option<string>, body: Awaited<string>, signature: Option<string>,
                   hmac: (string, string) -> string, parse: string -> Awaited<Json>, typeError: string): (r: Response)
    // the method is checked before anything else, the secret before the body is read
    ensures httpMethod != "POST" ==> r == Response(405, Text("Method not allowed"))
    ensures httpMethod == "POST" && !NonEmpty(secret) ==> r == Response(500, Text("Webhook secret not configured"))
    ensures httpMethod == "POST" && NonEmpty(secret) && body.Rejected? ==>
      r == ErrorResponse(500, MessageOr(body.message, "Webhook processing failed"))
    ensures httpMethod == "POST" && NonEmpty(secret) && body.Fulfilled? && !NonEmpty(signature) ==>
      r == Response(400, Text("Missing signature header"))
    ensures httpMethod == "POST" && NonEmpty(secret) && body.Fulfilled? && NonEmpty(signature) &&
            signature.value != hmac(secret.value, body.value) ==>
      r == Response(400, Text("Invalid webhook signature"))
    // a 200 is given only to a body signed with the secret
    ensures r.status == 200 <==>
      httpMethod == "POST" && NonEmpty(secret) && body.Fulfilled? && NonEmpty(signature) &&
      signature.value == hmac(secret.value, body.value) &&
      parse(body.value).Fulfilled? && !DispatchThrows(parse(body.value).value)
    ensures r.status == 200 ==> r == Acknowledged
  {
    if httpMethod != "POST" then Response(405, Text("Method not allowed"))
    else if !NonEmpty(secret) then Response(500, Text("Webhook secret not configured"))
    else if body.Rejected? then ErrorResponse(500, MessageOr(body.message, "Webhook processing failed"))
    else
      var payload := body.value;
      if !NonEmpty(signature) then Response(400, Text("Missing signature header"))
      else if hmac(secret.value, payload) != signature.value then Response(400, Text("Invalid webhook signature"))
      else match parse(payload)
        case Rejected(message) => ErrorResponse(500, MessageOr(message, "Webhook processing failed"))
        case Fulfilled(event) =>
          if DispatchThrows(event) then ErrorResponse(500, MessageOr(Some(typeError), "Webhook processing failed"))
          else Acknowledged
  }

  /** The body is parsed only after the signature matched: for a request that
      does not carry the body's signature, the parser has no influence on the
      response. */
  lemma UnverifiedNeverParsed(httpMethod: string, secret: Option<string>, body: Awaited<string>, signature: Option<string>,
                              hmac: (string, string) -> string, parse1: string -> Awaited<Json>,
                              parse2: string -> Awaited<Json>, typeError: string)
    requires !(NonEmpty(secret) && body.Fulfilled? && signature == Some(hmac(secret.value, body.value)))
    ensures Webhook(httpMethod, secret, body, signature, hmac, parse1, typeError) ==
            Webhook(httpMethod, secret, body, signature, hmac, parse2, typeError)
    ensures Webhook(httpMethod, secret, body, signature, hmac, parse1, typeError).status != 200
  {
  }

  /** A verified event whose name the handler does not know, or that is not a
      string, is acknowledged whatever else it holds. */
  lemma UnknownEventAcknowledged(secret: string, payload: string, hmac: (string, string) -> string,
                                 parse: string -> Awaited<Json>, typeError: string)
    requires secret != "" && hmac(secret, payload) != ""
    requires parse(payload).Fulfilled? && parse(payload).value.JObj?
    requires EventName(parse(payload).value).None? || EventName(parse(payload).value).value !in NamedEvents
    ensures Webhook("POST", Some(secret), Fulfilled(payload), Some(hmac(secret, payload)), hmac, parse, typeError) == Acknowledged
  {
  }

  /** A verified named event without `data.object` ends in a 500, not a 200. */
  lemma NamedEventNeedsObject(secret: string, payload: string, hmac: (string, string) -> string,
                              parse: string -> Awaited<Json>, typeError: string, name: string,
                              rest: seq<(string, Json)>)
    requires secret != "" && hmac(secret, payload) != ""
    requires name in NamedEvents
    requires parse(payload) == Fulfilled(JObj(rest + [("event", JStr(name))]))
    requires forall i :: 0 <= i < |rest| ==> rest[i].0 != "data"
    ensures Webhook("POST", Some(secret), Fulfilled(payload), Some(hmac(secret, payload)), hmac, parse, typeError).status == 500
  {
    var fields := rest + [("event", JStr(name))];
    assert Lookup(fields, "event") == Some(JStr(name));
    LookupOtherKey(rest, "event", JStr(name), "data");
  }

  /** A verified body that is not JSON ends in a 500 carrying the parser's
      message. */
  lemma MalformedBodyFails(secret: string, payload: string, hmac: (string, string) -> string,
                           parse: string -> Awaited<Json>, typeError: string)
    requires secret != "" && hmac(secret, payload) != ""
    requires parse(payload).Rejected?
    ensures Webhook("POST", Some(secret), Fulfilled(payload), Some(hmac(secret, payload)), hmac, parse, typeError) ==
            ErrorResponse(500, MessageOr(parse(payload).message, "Webhook processing failed"))
  {
  }
}
