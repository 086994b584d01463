/** The start-free-trial endpoint: checks the method and the Bearer token,
    asks Supabase who the user is and whether they already have an active
    subscription, and otherwise inserts a fourteen-day trial row. Supabase
    calls are inputs; days are whole numbers. */
module StartFreeTrial {
  import opened Js
  import opened Http
  import opened Types
  import SubscriptionPlans

  const BearerPrefix: string := "Bearer "

  /** The trial length the handler adds to the start date. */
  const TrialDays: int := 14

  /** The token of an `Authorization` header: the text after the exact
      prefix "Bearer ", or `None` when the header is absent, empty or has
      another prefix. */
  function BearerToken(header: Option<string>): (token: Option<string>)
    ensures token.Some? <==> NonEmpty(header) && StartsWith(header.value, BearerPrefix)
    ensures token.Some? ==> header.value == BearerPrefix + token.value
  {
    if !NonEmpty(header) || !StartsWith(header.value, BearerPrefix) then None
    else
      assert header.value == header.value[..7] + header.value[7..];
      Some(header.value[7..])
  }

  /** Stripping the prefix gives back exactly the token that was sent. */
  lemma TokenRoundTrip(token: string)
    ensures BearerToken(Some(BearerPrefix + token)) == Some(token)
  {
    assert (BearerPrefix + token)[..7] == BearerPrefix;
    assert (BearerPrefix + token)[7..] == token;
  }

  /** A lower-case or space-less prefix is not accepted. */
  lemma PrefixIsExact(token: string)
    ensures BearerToken(Some("bearer " + token)).None?
    ensures BearerToken(Some("Bearer")).None?
  {
    assert ("bearer " + token)[0] == 'b';
  }

  /** `supabase.auth.getUser(token)`: the user's id when a user came back,
      and whether an error did. */
  datatype AuthReply = AuthReply(userId: Option<string>, failed: bool)

  /** The lookup of an active subscription of the user (`.single()`): the row
      if one came back, and whether an error did (no row at all is an
      error). */
  datatype CheckReply = CheckReply(row: Option<Json>, failed: bool)

  /** The insert: the stored row as returned, and whether an error did. */
  datatype InsertReply = InsertReply(data: Json, failed: bool)

  /** The subscription row the handler inserts; dates are day numbers. */
  datatype TrialRow = TrialRow(
    userId: string,
    tier: SubscriptionTier,
    billingCycle: string,
    startDate: int,
    endDate: int,
    renewalDate: int,
    status: string,
    videosUsedThisMonth: int)

  /** The trial row for a user starting today: the free tier, on trial, no
      videos used, ending and renewing after the plan table's trial
      length. */
  function NewTrial(userId: string, today: int): (row: TrialRow)
    ensures row.userId == userId && row.tier == FREE_TRIAL && row.status == "on_trial"
    ensures row.videosUsedThisMonth == 0 && row.startDate == today
    ensures row.endDate == row.renewalDate == row.startDate + SubscriptionPlans.FreeTrialDays
  {
    TrialRow(userId, FREE_TRIAL, "monthly", today, today + TrialDays, today + TrialDays, "on_trial", 0)
  }

  function Failed(message: Option<string>): Response {
    ErrorResponse(500, MessageOr(message, "Failed to start free trial"))
  }

  const Unauthenticated: Response := ErrorResponse(401, "Unauthorized: missing auth token")
  const InvalidToken: Response := ErrorResponse(401, "Unauthorized: invalid token")
  const AlreadySubscribed: Response := ErrorResponse(400, "User already has an active subscription")
  const InsertFailed: Response := ErrorResponse(500, "Failed to create free trial subscription")

  function Created(data: Json): Response {
    Response(200, JsonBody(JObj([("success", JBool(true)), ("subscription", data),
                                 ("message", JStr("Free trial subscription created successfully"))])))
  }

  /** What the handler does once the user is known: refuse a user with an
      active subscription, otherwise insert the trial. */
  function ForUser(userId: string, today: int, findActive: string -> Awaited<CheckReply>,
                   insert: TrialRow -> Awaited<InsertReply>): (r: Response)
    ensures findActive(userId).Rejected? ==> r == Failed(findActive(userId).message)
    ensures findActive(userId).Fulfilled? && !findActive(userId).value.failed && Present(findActive(userId).value.row) ==>
      r == AlreadySubscribed
    // with no active subscription found, the trial row is inserted and the
    // reply follows how the insert settles
    ensures findActive(userId).Fulfilled? && !(!findActive(userId).value.failed && Present(findActive(userId).value.row)) ==>
      var inserted := insert(NewTrial(userId, today));
      (inserted.Rejected? ==> r == Failed(inserted.message)) &&
      (inserted.Fulfilled? && inserted.value.failed ==> r == InsertFailed) &&
      (inserted.Fulfilled? && !inserted.value.failed ==> r == Created(inserted.value.data))
    // 200 exactly when there is no active subscription and the insert succeeds
    ensures r.status == 200 <==>
      findActive(userId).Fulfilled? && !(!findActive(userId).value.failed && Present(findActive(userId).value.row)) &&
      insert(NewTrial(userId, today)).Fulfilled? && !insert(NewTrial(userId, today)).value.failed
  {
    match findActive(userId)
    case Rejected(message) => Failed(message)
    case Fulfilled(check) =>
      if !check.failed && Present(check.row) then AlreadySubscribed
      else match insert(NewTrial(userId, today))
        case Rejected(message) => Failed(message)
        case Fulfilled(inserted) => if inserted.failed then InsertFailed else Created(inserted.data)
  }

  /** The handler. */
  function StartTrial(httpMethod: string, authorization: Option<string>, today: int,
                      getUser: string -> Awaited<AuthReply>, findActive: string -> Awaited<CheckReply>,
                      insert: TrialRow -> Awaited<InsertReply>): (r: Response)
    ensures httpMethod != "POST" ==> r == MethodNotAllowed
    ensures httpMethod == "POST" && BearerToken(authorization).None? ==> r == Unauthenticated
    ensures httpMethod == "POST" && BearerToken(authorization).Some? ==>
      match getUser(BearerToken(authorization).value)
      case Rejected(message) => r == Failed(message)
      case Fulfilled(auth) =>
        if auth.failed || auth.userId.None? then r == InvalidToken
        else r == ForUser(auth.userId.value, today, findActive, insert)
    // a trial is created only for an authenticated user without an active subscription
    ensures r.status == 200 ==>
      httpMethod == "POST" && BearerToken(authorization).Some? &&
      var auth := getUser(BearerToken(authorization).value);
      auth.Fulfilled? && !auth.value.failed && auth.value.userId.Some? &&
      insert(NewTrial(auth.value.userId.value, today)).Fulfilled?
  {
    if httpMethod != "POST" then MethodNotAllowed
    else match BearerToken(authorization)
      case None => Unauthenticated
      case Some(token) =>
        match getUser(token)
        case Rejected(message) => Failed(message)
        case Fulfilled(auth) =>
          if auth.failed || auth.userId.None? then InvalidToken
          else ForUser(auth.userId.value, today, findActive, insert)
  }

  /** A user who already has an active subscription gets a 400 and nothing
      is inserted: the insert has no influence on the response. */
  lemma ActiveSubscriptionBlocksInsert(userId: string, today: int, findActive: string -> Awaited<CheckReply>,
                                       insert1: TrialRow -> Awaited<InsertReply>, insert2: TrialRow -> Awaited<InsertReply>)
    requires findActive(userId).Fulfilled? && !findActive(userId).value.failed && Present(findActive(userId).value.row)
    ensures ForUser(userId, today, findActive, insert1) == ForUser(userId, today, findActive, insert2) == AlreadySubscribed
  {
  }

  /** The hard-coded trial length is the plan table's `FREE_TRIAL_DAYS`. */
  lemma TrialLengthMatchesPlanTable()
    ensures TrialDays == SubscriptionPlans.FreeTrialDays
  {
  }
}
