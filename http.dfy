/** What a serverless handler sends back: a status code and a body, either
    plain text (`res.send`) or JSON (`res.json`). */
module Http {
  import opened Js

  datatype Body = Text(text: string) | JsonBody(value: Json)

  datatype Response = Response(status: int, body: Body)

  /** `res.status(code).json({ error: message })`. */
  function ErrorResponse(code: int, message: string): (r: Response)
    ensures r.status == code
    ensures r.body.JsonBody? && Field(r.body.value, "error") == Some(JStr(message))
  {
    Response(code, JsonBody(JObj([("error", JStr(message))])))
  }

  /** `res.status(code).json({ ... })` for an object literal whose members
      may be `undefined`. */
  function ObjectResponse(code: int, fields: seq<(string, Option<Json>)>): (r: Response)
    ensures r.status == code && r.body == JsonBody(JObj(Compact(fields)))
  {
    Response(code, JsonBody(JObj(Compact(fields))))
  }

  const MethodNotAllowed: Response := ErrorResponse(405, "Method not allowed")

  /** How an awaited call to a provider (Razorpay, Stripe, Supabase, the
      body stream, `JSON.parse`) settles: with a value, or by throwing an
      error whose `message` may be undefined. */
  datatype Awaited<T> = Fulfilled(value: T) | Rejected(message: Option<string>)

  /** A member of `req.body || {}`: an absent or falsy body reads as `{}`,
      and a body that is not an object has none of the members read here. */
  function BodyField(body: Option<Json>, key: string): (r: Option<Json>)
    ensures body.None? ==> r.None?
    ensures body.Some? && body.value.JObj? ==> r == Lookup(body.value.fields, key)
    ensures body.Some? && !body.value.JObj? ==> r.None?
  {
    if body.Some? then Field(body.value, key) else None
  }
}
