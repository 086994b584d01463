/** The create-subscription endpoint: a server-side plan table
    (`PLAN_CONFIG`), and a handler that checks the method, the plan id and
    the Razorpay keys, in that order, and then asks Razorpay for a
    subscription priced from the table. */
module CreateSubscription {
  import opened Js
  import opened Http
  import opened Types
  import SubscriptionPlans

  datatype PlanConfig = PlanConfig(planName: string, priceInPaise: int, interval: int, period: string)

  /** `PLAN_CONFIG`: prices in paise; yearly plans bill twelve monthly
      periods at once. */
  const PlanConfigs: map<string, PlanConfig> := map[
    "basic_monthly" := PlanConfig("Basic Monthly", 99900, 1, "monthly"),
    "basic_yearly" := PlanConfig("Basic Yearly", 999000, 12, "monthly"),
    "premium_monthly" := PlanConfig("Premium Monthly", 299900, 1, "monthly"),
    "premium_yearly" := PlanConfig("Premium Yearly", 2999000, 12, "monthly")]

  /** The names every plain object inherits from `Object.prototype`; looking
      one of them up in an object literal finds a function (or, for
      `__proto__`, the prototype itself), which is truthy. */
  const ObjectPrototypeNames: set<string> := {
    "constructor", "hasOwnProperty", "isPrototypeOf", "propertyIsEnumerable", "toLocaleString",
    "toString", "valueOf", "__proto__", "__defineGetter__", "__defineSetter__",
    "__lookupGetter__", "__lookupSetter__"}

  /** The property key a `planId` value is converted to when it indexes the
      table: a string itself, a one-element array its element's key. `None`
      stands for every other value: those that convert to a text naming no
      plan and no inherited property ("true", "[object Object]", a number's
      digits, a comma-joined list, ""), and also an object carrying its own
      `toString` member (or an array holding one), whose conversion throws a
      `TypeError` before the `try`; such an id is refused here instead. */
  function KeyText(j: Json): (key: Option<string>)
    ensures j.JStr? ==> key == Some(j.s)
    ensures key.Some? ==> j.JStr? || j.JArr?
  {
    match j
    case JStr(s) => Some(s)
    case JArr(items) => if |items| == 1 && (items[0].JStr? || items[0].JArr?) then KeyText(items[0]) else None
    case _ => None
  }

  /** `!PLAN_CONFIG[planId]` as written: the lookup also succeeds for a name
      inherited from `Object.prototype`. Every id the intended check admits
      passes, and anything else that passes is an inherited name. */
  predicate PlanGuardAsWritten(planId: Json)
    ensures PlanGuard(planId) ==> PlanGuardAsWritten(planId)
    ensures PlanGuardAsWritten(planId) && !PlanGuard(planId) ==>
      KeyText(planId).Some? && KeyText(planId).value in ObjectPrototypeNames
  {
    KeyText(planId).Some? && (KeyText(planId).value in PlanConfigs || KeyText(planId).value in ObjectPrototypeNames)
  }

  /** The intended check: the id names one of the table's own plans, each of
      which is a paid plan billed in monthly periods. */
  predicate PlanGuard(planId: Json)
    ensures PlanGuard(planId) ==> planId.JStr? || planId.JArr?
    ensures PlanGuard(planId) ==>
      KeyText(planId).Some? && KeyText(planId).value in PlanConfigs &&
      PlanConfigs[KeyText(planId).value].priceInPaise > 0 && PlanConfigs[KeyText(planId).value].period == "monthly"
  {
    KeyText(planId).Some? && KeyText(planId).value in PlanConfigs
  }

  /** As written, the id "toString" passes the check although the table has
      no such plan. */
  lemma PrototypeNamePassesGuard()
    ensures PlanGuardAsWritten(JStr("toString"))
    ensures "toString" !in PlanConfigs
    ensures !PlanGuard(JStr("toString"))
  {
    assert "toString" in ObjectPrototypeNames;
  }

  /** The intended check admits exactly the four plan ids. */
  lemma PlanGuardAdmitsPlans(planId: string)
    ensures PlanGuard(JStr(planId)) <==>
      planId in {"basic_monthly", "basic_yearly", "premium_monthly", "premium_yearly"}
  {
  }

  /** Which plan check a handler applies: the one in the code, or the
      intended own-plan check. */
  datatype Guard = AsWritten | OwnKeys

  predicate Admits(guard: Guard, planId: Json) {
    if guard == AsWritten then PlanGuardAsWritten(planId) else PlanGuard(planId)
  }

  /** `PLAN_CONFIG[planId]` once a check has passed: the table's own entry, or
      `None` for an inherited name, whose value (a function, or the prototype
      itself) has none of the entry's members. */
  function ConfigLookup(planId: Json): (config: Option<PlanConfig>)
    ensures config.Some? <==> PlanGuard(planId)
    ensures config.Some? ==> config.value in PlanConfigs.Values && config.value.priceInPaise > 0
  {
    if PlanGuard(planId) then Some(PlanConfigs[KeyText(planId).value]) else None
  }

  /** The request body fields the handler destructures. */
  datatype Payload = Payload(planId: Option<Json>, customerId: Option<Json>, totalCount: Option<Json>)

  /** `req.body || {}` destructured: members of an object body, and nothing
      from a missing or non-object one. */
  function PayloadOf(body: Option<Json>): (p: Payload)
    ensures body.None? || !body.value.JObj? ==> p == Payload(None, None, None)
    ensures body.Some? && body.value.JObj? ==>
      p.planId == Lookup(body.value.fields, "planId") && p.customerId == Lookup(body.value.fields, "customerId") &&
      p.totalCount == Lookup(body.value.fields, "totalCount")
  {
    Payload(BodyField(body, "planId"), BodyField(body, "customerId"), BodyField(body, "totalCount"))
  }

  /** `totalCount || config.interval`. */
  function TotalCount(totalCount: Option<Json>, config: Option<PlanConfig>): (r: Option<Json>)
    ensures Present(totalCount) ==> r == totalCount
    ensures !Present(totalCount) && config.Some? ==> r == Some(JNum(config.value.interval as real))
    ensures !Present(totalCount) && config.None? ==> r.None?
  {
    if Present(totalCount) then totalCount
    else if config.Some? then Some(JNum(config.value.interval as real))
    else None
  }

  /** The members of the options object, `undefined` ones included. */
  function OptionFields(config: Option<PlanConfig>, totalCount: Option<Json>): seq<(string, Option<Json>)> {
    [("period", if config.Some? then Some(JStr(config.value.period)) else None),
     ("interval", if config.Some? then Some(JNum(config.value.interval as real)) else None),
     ("amount", if config.Some? then Some(JNum(config.value.priceInPaise as real)) else None),
     ("currency", Some(JStr("INR"))),
     ("total_count", TotalCount(totalCount, config)),
     ("description", if config.Some? then Some(JStr(config.value.planName)) else None),
     ("customer_notify", Some(JNum(1.0)))]
  }

  lemma OptionFieldsRead(config: Option<PlanConfig>, totalCount: Option<Json>)
    ensures var c := Compact(OptionFields(config, totalCount));
      Lookup(c, "currency") == Some(JStr("INR")) &&
      Lookup(c, "total_count") == TotalCount(totalCount, config) &&
      Lookup(c, "period") == (if config.Some? then Some(JStr(config.value.period)) else None) &&
      Lookup(c, "interval") == (if config.Some? then Some(JNum(config.value.interval as real)) else None) &&
      Lookup(c, "amount") == (if config.Some? then Some(JNum(config.value.priceInPaise as real)) else None) &&
      Lookup(c, "description") == (if config.Some? then Some(JStr(config.value.planName)) else None)
  {
    var f := OptionFields(config, totalCount);
    CompactAt(f, 3);
    if TotalCount(totalCount, config).Some? { CompactAt(f, 4); } else { CompactAbsent(f, "total_count"); }
    if config.Some? {
      CompactAt(f, 0);
      CompactAt(f, 1);
      CompactAt(f, 2);
      CompactAt(f, 5);
    } else {
      CompactAbsent(f, "period");
      CompactAbsent(f, "interval");
      CompactAbsent(f, "amount");
      CompactAbsent(f, "description");
    }
  }

  /** The options object handed to `razorpay.subscriptions.create`: the
      plan's period, interval, price and name, in rupees' paise, with
      `totalCount || interval` billing cycles. For an inherited name the plan
      members are all `undefined`, so they are missing from the request. */
  function SubscriptionOptions(config: Option<PlanConfig>, totalCount: Option<Json>): (options: Json)
    ensures options.JObj?
    ensures Field(options, "currency") == Some(JStr("INR"))
    ensures Field(options, "total_count") == TotalCount(totalCount, config)
    ensures config.Some? ==>
      Field(options, "period") == Some(JStr(config.value.period)) &&
      Field(options, "interval") == Some(JNum(config.value.interval as real)) &&
      Field(options, "amount") == Some(JNum(config.value.priceInPaise as real)) &&
      Field(options, "description") == Some(JStr(config.value.planName)) &&
      Field(options, "total_count") == Some(OrElse(totalCount, JNum(config.value.interval as real)))
    ensures config.None? ==>
      Field(options, "period").None? && Field(options, "interval").None? &&
      Field(options, "amount").None? && Field(options, "description").None?
  {
    var f := OptionFields(config, totalCount);
    OptionFieldsRead(config, totalCount);
    JObj(Compact(f))
  }

  /** The call the handler makes to Razorpay, or `None` when a guard answers
      first. Under the intended check the call is always priced from the
      table. */
  function ProviderCall(guard: Guard, httpMethod: string, p: Payload, keyId: Option<string>, keySecret: Option<string>)
    : (call: Option<Json>)
    ensures call.Some? <==> httpMethod == "POST" && Present(p.planId) && Admits(guard, p.planId.value) &&
                            NonEmpty(keyId) && NonEmpty(keySecret)
    ensures call.Some? ==> call.value == SubscriptionOptions(ConfigLookup(p.planId.value), p.totalCount)
    ensures call.Some? && guard == OwnKeys ==>
      var plan := PlanConfigs[KeyText(p.planId.value).value];
      Field(call.value, "amount") == Some(JNum(plan.priceInPaise as real)) &&
      Field(call.value, "interval") == Some(JNum(plan.interval as real)) &&
      Field(call.value, "period") == Some(JStr("monthly")) &&
      Field(call.value, "currency") == Some(JStr("INR")) &&
      Field(call.value, "total_count") == Some(OrElse(p.totalCount, JNum(plan.interval as real)))
  {
    if httpMethod != "POST" || !Present(p.planId) || !Admits(guard, p.planId.value) || !NonEmpty(keyId) || !NonEmpty(keySecret)
    then None
    else
      Some(SubscriptionOptions(ConfigLookup(p.planId.value), p.totalCount))
  }

  /** Every table entry bills monthly periods: one for a monthly plan, twelve
      for a yearly one. */
  lemma PeriodIsMonthly(key: string)
    requires key in PlanConfigs
    ensures PlanConfigs[key].period == "monthly"
    ensures PlanConfigs[key].interval == 1 || PlanConfigs[key].interval == 12
  {
  }

  /** The members of the 200 reply, `undefined` ones included. */
  function ConfirmationFields(planId: Json, config: Option<PlanConfig>, reply: seq<(string, Json)>): seq<(string, Option<Json>)> {
    [("subscriptionId", Lookup(reply, "id")),
     ("planId", Some(planId)),
     ("amount", if config.Some? then Some(JNum(config.value.priceInPaise as real)) else None),
     ("period", if config.Some? then Some(JStr(config.value.period)) else None),
     ("interval", if config.Some? then Some(JNum(config.value.interval as real)) else None),
     ("status", Lookup(reply, "status"))]
  }

  lemma ConfirmationFieldsRead(planId: Json, config: Option<PlanConfig>, reply: seq<(string, Json)>)
    ensures var c := Compact(ConfirmationFields(planId, config, reply));
      Lookup(c, "planId") == Some(planId) &&
      Lookup(c, "amount") == (if config.Some? then Some(JNum(config.value.priceInPaise as real)) else None) &&
      Lookup(c, "period") == (if config.Some? then Some(JStr(config.value.period)) else None) &&
      Lookup(c, "interval") == (if config.Some? then Some(JNum(config.value.interval as real)) else None)
  {
    var f := ConfirmationFields(planId, config, reply);
    CompactAt(f, 1);
    if config.Some? {
      CompactAt(f, 2);
      CompactAt(f, 3);
      CompactAt(f, 4);
    } else {
      CompactAbsent(f, "amount");
      CompactAbsent(f, "period");
      CompactAbsent(f, "interval");
    }
  }

  /** The 200 reply: the subscription's id and status from Razorpay, the
      plan id as sent, and the plan's amount, period and interval, which are
      missing for an inherited name. */
  function Confirmation(planId: Json, config: Option<PlanConfig>, reply: seq<(string, Json)>): (r: Response)
    ensures r.status == 200 && r.body.JsonBody? && r.body.value.JObj?
    ensures Field(r.body.value, "planId") == Some(planId)
    ensures config.Some? ==>
      Field(r.body.value, "amount") == Some(JNum(config.value.priceInPaise as real)) &&
      Field(r.body.value, "period") == Some(JStr(config.value.period)) &&
      Field(r.body.value, "interval") == Some(JNum(config.value.interval as real))
    ensures config.None? ==>
      Field(r.body.value, "amount").None? && Field(r.body.value, "period").None? && Field(r.body.value, "interval").None?
  {
    var fields := ConfirmationFields(planId, config, reply);
    ConfirmationFieldsRead(planId, config, reply);
    ObjectResponse(200, fields)
  }

  /** The handler, on the destructured payload, under either plan check. */
  function Handle(guard: Guard, httpMethod: string, p: Payload, keyId: Option<string>, keySecret: Option<string>,
                  create: Json -> Awaited<seq<(string, Json)>>): (r: Response)
    ensures httpMethod != "POST" ==> r == MethodNotAllowed
    ensures httpMethod == "POST" && !Present(p.planId) ==> r == ErrorResponse(400, "planId is required")
    ensures httpMethod == "POST" && Present(p.planId) && !Admits(guard, p.planId.value) ==>
      r == ErrorResponse(400, "Invalid planId")
    ensures httpMethod == "POST" && Present(p.planId) && Admits(guard, p.planId.value) &&
            !(NonEmpty(keyId) && NonEmpty(keySecret)) ==>
      r == ErrorResponse(500, "Razorpay keys not configured")
    ensures ProviderCall(guard, httpMethod, p, keyId, keySecret).Some? &&
            create(ProviderCall(guard, httpMethod, p, keyId, keySecret).value).Rejected? ==>
      r == ErrorResponse(500, MessageOr(create(ProviderCall(guard, httpMethod, p, keyId, keySecret).value).message,
                                        "Failed to create subscription"))
    // success echoes the plan id with the plan's amount, period and interval
    ensures r.status == 200 <==>
      ProviderCall(guard, httpMethod, p, keyId, keySecret).Some? &&
      create(ProviderCall(guard, httpMethod, p, keyId, keySecret).value).Fulfilled?
    ensures r.status == 200 ==>
      r == Confirmation(p.planId.value, ConfigLookup(p.planId.value),
                        create(ProviderCall(guard, httpMethod, p, keyId, keySecret).value).value)
  {
    if httpMethod != "POST" then MethodNotAllowed
    else if !Present(p.planId) then ErrorResponse(400, "planId is required")
    else if !Admits(guard, p.planId.value) then ErrorResponse(400, "Invalid planId")
    else if !NonEmpty(keyId) || !NonEmpty(keySecret) then ErrorResponse(500, "Razorpay keys not configured")
    else
      match create(ProviderCall(guard, httpMethod, p, keyId, keySecret).value)
      case Rejected(message) => ErrorResponse(500, MessageOr(message, "Failed to create subscription"))
      case Fulfilled(reply) => Confirmation(p.planId.value, ConfigLookup(p.planId.value), reply)
  }

  /** The endpoint as written: `req.body || {}` destructured, then the handler
      with the check of the code. Only an object body can get a 200. */
  function CreateSubscription(httpMethod: string, body: Option<Json>, keyId: Option<string>, keySecret: Option<string>,
                              create: Json -> Awaited<seq<(string, Json)>>): (r: Response)
    ensures httpMethod == "POST" && (body.None? || !body.value.JObj?) ==> r == ErrorResponse(400, "planId is required")
    ensures r.status == 200 ==>
      httpMethod == "POST" && body.Some? && body.value.JObj? && Present(Lookup(body.value.fields, "planId"))
  {
    Handle(AsWritten, httpMethod, PayloadOf(body), keyId, keySecret, create)
  }

  /** As written, a POST naming "toString" with both keys set reaches Razorpay
      with no amount, interval, period or description, and a successful reply
      is a 200 without amount, period or interval. */
  lemma PrototypeNameReachesProvider(keyId: string, keySecret: string, create: Json -> Awaited<seq<(string, Json)>>)
    requires keyId != "" && keySecret != ""
    ensures var p := Payload(Some(JStr("toString")), None, None);
      var call := ProviderCall(AsWritten, "POST", p, Some(keyId), Some(keySecret));
      call.Some? &&
      Field(call.value, "amount").None? && Field(call.value, "interval").None? &&
      Field(call.value, "period").None? && Field(call.value, "description").None? &&
      Field(call.value, "total_count").None? &&
      (create(call.value).Fulfilled? ==>
        var r := Handle(AsWritten, "POST", p, Some(keyId), Some(keySecret), create);
        r.status == 200 && Field(r.body.value, "amount").None? && Field(r.body.value, "interval").None?)
  {
    PrototypeNamePassesGuard();
  }

  /** With the intended check, every inherited name is refused with a 400 and
      Razorpay is never called. */
  lemma InheritedNamesRefused(name: string, p: Payload, keyId: Option<string>, keySecret: Option<string>,
                              create: Json -> Awaited<seq<(string, Json)>>)
    requires name in ObjectPrototypeNames && p.planId == Some(JStr(name))
    ensures ProviderCall(OwnKeys, "POST", p, keyId, keySecret).None?
    ensures Handle(OwnKeys, "POST", p, keyId, keySecret, create) == ErrorResponse(400, "Invalid planId")
  {
    assert name !in PlanConfigs;
  }

  /** The two checks answer alike for every plan id that is not an inherited
      name. */
  lemma ChecksAgreeOutsideInheritedNames(httpMethod: string, p: Payload, keyId: Option<string>, keySecret: Option<string>,
                                         create: Json -> Awaited<seq<(string, Json)>>)
    requires p.planId.Some? ==> KeyText(p.planId.value).None? || KeyText(p.planId.value).value !in ObjectPrototypeNames
    ensures ProviderCall(AsWritten, httpMethod, p, keyId, keySecret) == ProviderCall(OwnKeys, httpMethod, p, keyId, keySecret)
    ensures Handle(AsWritten, httpMethod, p, keyId, keySecret, create) == Handle(OwnKeys, httpMethod, p, keyId, keySecret, create)
  {
  }

  /** `customerId` only ever reaches an options object that is never sent:
      neither the call to Razorpay nor the response depends on it. */
  lemma CustomerIdIgnored(guard: Guard, httpMethod: string, p: Payload, customerId: Option<Json>, keyId: Option<string>,
                          keySecret: Option<string>, create: Json -> Awaited<seq<(string, Json)>>)
    ensures ProviderCall(guard, httpMethod, p.(customerId := customerId), keyId, keySecret) ==
            ProviderCall(guard, httpMethod, p, keyId, keySecret)
    ensures Handle(guard, httpMethod, p.(customerId := customerId), keyId, keySecret, create) ==
            Handle(guard, httpMethod, p, keyId, keySecret, create)
  {
  }

  /** The server table agrees with the client plan table: each entry is the
      paid plan with the same id, at the same price and under the same name,
      yearly exactly when it bills twelve periods; and every paid plan has an
      entry. */
  lemma ConfigMatchesPlanTable()
    ensures forall key :: key in PlanConfigs ==>
      exists k :: k in SubscriptionPlans.Plans && SubscriptionPlans.Plans[k].id == key &&
        SubscriptionPlans.Plans[k].price == PlanConfigs[key].priceInPaise &&
        SubscriptionPlans.Plans[k].name == PlanConfigs[key].planName &&
        (SubscriptionPlans.Plans[k].billingCycle == YEARLY <==> PlanConfigs[key].interval == 12)
    ensures forall k :: k in SubscriptionPlans.Plans && SubscriptionPlans.Plans[k].price > 0 ==>
      SubscriptionPlans.Plans[k].id in PlanConfigs
  {
    SubscriptionPlans.PlansAt();
    assert SubscriptionPlans.Plans["BASIC_MONTHLY"].id == "basic_monthly";
    assert SubscriptionPlans.Plans["BASIC_YEARLY"].id == "basic_yearly";
    assert SubscriptionPlans.Plans["PREMIUM_MONTHLY"].id == "premium_monthly";
    assert SubscriptionPlans.Plans["PREMIUM_YEARLY"].id == "premium_yearly";
  }
}
