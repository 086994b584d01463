/** The create-checkout-session endpoint: checks the method, the Stripe key
    and the price id, in that order, builds the form body of a Checkout
    Session request one parameter at a time, and relays Stripe's answer. */
module CreateCheckoutSession {
  import opened Js
  import opened Http

  const DefaultSuccessUrl: string := "https://example.com/success"
  const DefaultCancelUrl: string := "https://example.com/cancel"

  /** A `URLSearchParams` being filled in: its entries, in insertion order.
      Values are kept as the JSON values appended; their conversion to text
      is not modelled. */
  class SearchParams {
    var entries: seq<(string, Json)>

    constructor ()
      ensures entries == []
    {
      entries := [];
    }

    /** `params.append(name, value)`. */
    method Append(name: string, value: Json)
      modifies this
      ensures entries == old(entries) + [(name, value)]
    {
      entries := entries + [(name, value)];
    }
  }

  /** The five form parameters, appended in a fixed order; a falsy success
      or cancel URL is replaced by its placeholder. */
  method FormParams(priceId: Json, successUrl: Option<Json>, cancelUrl: Option<Json>) returns (entries: seq<(string, Json)>)
    ensures |entries| == 5
    ensures entries[0] == ("mode", JStr("payment"))
    ensures entries[1] == ("line_items[0][price]", priceId)
    ensures entries[2] == ("line_items[0][quantity]", JStr("1"))
    ensures entries[3] == ("success_url", OrElse(successUrl, JStr(DefaultSuccessUrl)))
    ensures entries[4] == ("cancel_url", OrElse(cancelUrl, JStr(DefaultCancelUrl)))
  {
    var params := new SearchParams();
    params.Append("mode", JStr("payment"));
    params.Append("line_items[0][price]", priceId);
    params.Append("line_items[0][quantity]", JStr("1"));
    params.Append("success_url", OrElse(successUrl, JStr(DefaultSuccessUrl)));
    params.Append("cancel_url", OrElse(cancelUrl, JStr(DefaultCancelUrl)));
    entries := params.entries;
  }

  /** A thrown error: its `message`, and `String(err)` for when the message
      is empty or missing. */
  datatype Failure = Failure(message: Option<string>, text: string)

  /** `await r.json()`. */
  datatype Data = Parsed(value: Json) | Unparsable(failure: Failure)

  /** `await fetch(...)`: a network failure, or a reply with its `ok` flag,
      its status and its body. */
  datatype FetchOutcome = Threw(failure: Failure) | Replied(ok: bool, status: int, data: Data)

  /** The 500 reply to a thrown error: `err?.message || String(err)`. */
  function FailureResponse(f: Failure): Response {
    ErrorResponse(500, MessageOr(f.message, f.text))
  }

  /** The handler; `fetch(authorization, params)` is the call to Stripe's
      sessions endpoint and `typeError` the message of the TypeError raised
      by reading a member of `null`. */
  method CreateSession(httpMethod: string, stripeKey: Option<string>, body: Option<Json>,
                       fetch: (string, seq<(string, Json)>) -> FetchOutcome, typeError: string)
    returns (r: Response)
    ensures httpMethod != "POST" ==> r == MethodNotAllowed
    // the key is checked before the price id
    ensures httpMethod == "POST" && !NonEmpty(stripeKey) ==> r == ErrorResponse(500, "STRIPE_SECRET_KEY not configured")
    ensures httpMethod == "POST" && NonEmpty(stripeKey) && !Present(BodyField(body, "priceId")) ==>
      r == ErrorResponse(400, "priceId is required")
    ensures httpMethod == "POST" && NonEmpty(stripeKey) && Present(BodyField(body, "priceId")) ==>
      var params := [("mode", JStr("payment")),
                     ("line_items[0][price]", BodyField(body, "priceId").value),
                     ("line_items[0][quantity]", JStr("1")),
                     ("success_url", OrElse(BodyField(body, "successUrl"), JStr(DefaultSuccessUrl))),
                     ("cancel_url", OrElse(BodyField(body, "cancelUrl"), JStr(DefaultCancelUrl)))];
      match fetch("Bearer " + stripeKey.value, params)
      case Threw(f) => r == FailureResponse(f)
      case Replied(_, _, Unparsable(f)) => r == FailureResponse(f)
      // an upstream error is relayed with its own status and body
      case Replied(false, status, Parsed(data)) => r == Response(status, JsonBody(data))
      case Replied(true, _, Parsed(data)) =>
        if data.JNull? then r == ErrorResponse(500, MessageOr(Some(typeError), "TypeError"))
        else r == ObjectResponse(200, [("url", Field(data, "url")), ("id", Field(data, "id"))])
  {
    if httpMethod != "POST" {
      return MethodNotAllowed;
    }
    if !NonEmpty(stripeKey) {
      return ErrorResponse(500, "STRIPE_SECRET_KEY not configured");
    }
    var priceId, successUrl, cancelUrl := BodyField(body, "priceId"), BodyField(body, "successUrl"), BodyField(body, "cancelUrl");
    if !Present(priceId) {
      return ErrorResponse(400, "priceId is required");
    }
    var params := FormParams(priceId.value, successUrl, cancelUrl);
    assert params == [params[0], params[1], params[2], params[3], params[4]];
    match fetch("Bearer " + stripeKey.value, params) {
      case Threw(f) =>
        r := FailureResponse(f);
      case Replied(ok, status, Unparsable(f)) =>
        r := FailureResponse(f);
      case Replied(ok, status, Parsed(data)) =>
        if !ok {
          r := Response(status, JsonBody(data));
        } else if data.JNull? {
          r := ErrorResponse(500, MessageOr(Some(typeError), "TypeError"));
        } else {
          r := ObjectResponse(200, [("url", Field(data, "url")), ("id", Field(data, "id"))]);
        }
    }
  }

  /** An OK reply hands back only the session's `url` and `id`. */
  lemma OkReplyKeepsUrlAndId(data: Json)
    requires data.JObj? && Field(data, "url").Some? && Field(data, "id").Some?
    ensures var r := ObjectResponse(200, [("url", Field(data, "url")), ("id", Field(data, "id"))]);
      r.body.JsonBody? && r.body.value.JObj? && |r.body.value.fields| == 2 &&
      Field(r.body.value, "url") == Field(data, "url") && Field(r.body.value, "id") == Field(data, "id")
  {
    var fields := [("url", Field(data, "url")), ("id", Field(data, "id"))];
    CompactAt(fields, 0);
    CompactAt(fields, 1);
  }
}
