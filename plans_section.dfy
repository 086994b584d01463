/** The pricing section: a billing-cycle toggle, three plan cards chosen by
    the cycle, the "current plan" marks, and the plan selection flow that
    starts a free trial or takes a Razorpay payment. */
module PlansSection {
  import opened Js
  import opened Http
  import opened Types
  import opened SubscriptionPlans

  /** The plan keys of the free, basic and premium cards (`plansTier`). */
  datatype CardKeys = CardKeys(free: string, basic: string, premium: string)

  function PlansTier(cycle: BillingCycle): (keys: CardKeys)
    ensures keys.free == "FREE_TRIAL"
    ensures keys.basic == (if cycle == MONTHLY then "BASIC_MONTHLY" else "BASIC_YEARLY")
    ensures keys.premium == (if cycle == MONTHLY then "PREMIUM_MONTHLY" else "PREMIUM_YEARLY")
  {
    CardKeys("FREE_TRIAL",
             if cycle == MONTHLY then "BASIC_MONTHLY" else "BASIC_YEARLY",
             if cycle == MONTHLY then "PREMIUM_MONTHLY" else "PREMIUM_YEARLY")
  }

  /** Every card key exists in the plan table, and names the plan of its
      card's tier billed in the chosen cycle (the trial has one cycle). */
  lemma CardKeysNamePlans(cycle: BillingCycle)
    ensures var keys := PlansTier(cycle);
      keys.free in Plans && keys.basic in Plans && keys.premium in Plans &&
      keys.free == KeyOf(FREE_TRIAL, cycle) && keys.basic == KeyOf(BASIC, cycle) && keys.premium == KeyOf(PREMIUM, cycle) &&
      Plans[keys.basic].tier == BASIC && Plans[keys.basic].billingCycle == cycle &&
      Plans[keys.premium].tier == PREMIUM && Plans[keys.premium].billingCycle == cycle
  {
    PlansAt();
  }

  /** Whether the card of `tier` is the signed-in user's current plan: the
      trial card while on trial, a paid card while active. */
  predicate IsCurrentPlan(tier: SubscriptionTier, current: Option<SubscriptionStatus>)
    // only the subscription's own tier, and only while it is running
    ensures IsCurrentPlan(tier, current) ==>
      current.Some? && current.value.tier == tier && current.value.status in {"on_trial", "active"}
    // a trial is current only while on trial, a paid tier only while active
    ensures current.Some? && current.value.tier == tier ==>
      (IsCurrentPlan(tier, current) <==> (current.value.status == "on_trial" <==> tier == FREE_TRIAL) &&
                                         current.value.status in {"on_trial", "active"})
  {
    current.Some? && current.value.tier == tier &&
    current.value.status == (if tier == FREE_TRIAL then "on_trial" else "active")
  }

  /** At most one card is marked current, and none without a subscription. */
  lemma AtMostOneCurrent(current: Option<SubscriptionStatus>, t1: SubscriptionTier, t2: SubscriptionTier)
    requires IsCurrentPlan(t1, current) && IsCurrentPlan(t2, current)
    ensures t1 == t2 && current.Some?
  {
  }

  /** A card's button: the inert "Current Plan" one, or one that selects the
      plan. */
  datatype Button = CurrentPlanButton | SelectButton(caption: string, disabled: bool)

  /** What a plan card shows. */
  datatype Card = Card(
    name: string,
    description: string,
    priceLabel: string,
    billingNote: Option<string>,
    features: seq<string>,
    button: Button,
    savingNote: Option<string>)

  /** `PricingCard`: nothing for an unknown key. */
  function PricingCard(key: string, isCurrent: bool, isLoading: bool): (card: Option<Card>)
    ensures card.Some? <==> key in Plans
    ensures card.Some? ==> card.value.name == Plans[key].name && card.value.features == Plans[key].features
    // 'Free' exactly for a zero price
    ensures card.Some? ==> (card.value.priceLabel == "Free" <==> Plans[key].price == 0 || Plans[key].priceDisplay == "Free")
    ensures card.Some? && Plans[key].price != 0 ==> card.value.priceLabel == Plans[key].priceDisplay
    ensures card.Some? ==> (card.value.billingNote.None? <==> Plans[key].tier == FREE_TRIAL)
    ensures card.Some? ==> (card.value.button == CurrentPlanButton <==> isCurrent)
    ensures card.Some? && !isCurrent ==>
      card.value.button.caption == (if isLoading then "Processing..."
                                  else if Plans[key].tier == FREE_TRIAL then "Start Free Trial"
                                  else "Subscribe Now") &&
      card.value.button.disabled == isLoading
    // the saving note only on a yearly paid plan
    ensures card.Some? ==> (card.value.savingNote.Some? <==> Plans[key].tier != FREE_TRIAL && Plans[key].billingCycle == YEARLY)
  {
    if key !in Plans then None
    else
      var plan := Plans[key];
      Some(Card(
        plan.name,
        plan.description,
        if plan.price == 0 then "Free" else plan.priceDisplay,
        if plan.tier == FREE_TRIAL then None
        else Some(if plan.billingCycle == MONTHLY then "Billed monthly" else "Billed yearly"),
        plan.features,
        if isCurrent then CurrentPlanButton
        else SelectButton(if isLoading then "Processing..." else if plan.tier == FREE_TRIAL then "Start Free Trial" else "Subscribe Now",
                          isLoading),
        if plan.tier == BASIC && plan.billingCycle == YEARLY then Some("Save 17% with yearly billing")
        else if plan.tier == PREMIUM && plan.billingCycle == YEARLY then Some("Save 20% with yearly billing")
        else None))
  }

  /** All three cards of the section are shown whatever the cycle; the free
      card reads 'Free' and offers the trial, the paid ones their price. */
  lemma SectionShowsThreeCards(cycle: BillingCycle, current: Option<SubscriptionStatus>, isLoading: bool)
    ensures var keys := PlansTier(cycle);
      PricingCard(keys.free, IsCurrentPlan(FREE_TRIAL, current), isLoading).Some? &&
      PricingCard(keys.basic, IsCurrentPlan(BASIC, current), isLoading).Some? &&
      PricingCard(keys.premium, IsCurrentPlan(PREMIUM, current), isLoading).Some? &&
      PricingCard(keys.free, IsCurrentPlan(FREE_TRIAL, current), isLoading).value.priceLabel == "Free" &&
      PricingCard(keys.basic, IsCurrentPlan(BASIC, current), isLoading).value.priceLabel == Plans[keys.basic].priceDisplay &&
      PricingCard(keys.premium, IsCurrentPlan(PREMIUM, current), isLoading).value.priceLabel == Plans[keys.premium].priceDisplay
  {
    PlansAt();
  }

  /** What selecting a plan does, in order. */
  datatype Effect =
    | SetLoading(on: bool)
    | Alert(text: string)
    | CreateOrder(price: int, priceDisplay: string)
    | OpenCheckout(orderId: Option<Json>, orderAmount: Option<Json>, keyId: Option<Json>, description: string)
    | SubscriptionSucceeded

  /** The alert for a caught error: an `Error`'s message (even an empty one),
      'Subscription failed' for anything else thrown. */
  function ErrorAlert(message: Option<string>): (text: string)
    ensures message.Some? ==> text == message.value
    ensures message.None? ==> text == "Subscription failed"
  {
    if message.Some? then message.value else "Subscription failed"
  }

  /** The effects between switching the spinner on and off. `order` is how
      `createRazorpayOrder` settles and `checkout` how `openRazorpayCheckout`
      does; `hasCallback` whether `onSubscriptionSuccess` was given. */
  function Selection(planId: string, order: Awaited<seq<(string, Json)>>, checkout: Awaited<Json>, hasCallback: bool)
    : (effects: seq<Effect>)
    // the spinner is left alone in between
    ensures forall i :: 0 <= i < |effects| ==> !effects[i].SetLoading?
    // an unknown plan only raises the two alerts
    ensures planId !in Plans ==> |effects| == 2 && effects[0].Alert? && effects[1] == Alert("Invalid plan")
    // a paid plan starts by creating an order for its price
    ensures planId in Plans && Plans[planId].price != 0 ==>
      |effects| >= 2 && effects[0] == CreateOrder(Plans[planId].price, Plans[planId].priceDisplay)
    // success, when reported, is the last effect
    ensures SubscriptionSucceeded in effects ==> effects[|effects| - 1] == SubscriptionSucceeded
  {
    var success := if hasCallback then [SubscriptionSucceeded] else [];
    if planId !in Plans then
      [Alert("Invalid plan selected: " + planId + "\nSee console for details."), Alert("Invalid plan")]
    else
      var plan := Plans[planId];
      if plan.price == 0 then [Alert("Free trial started! (Backend integration needed)")] + success
      else
        [CreateOrder(plan.price, plan.priceDisplay)] +
        match order
        case Rejected(message) => [Alert(ErrorAlert(message))]
        case Fulfilled(data) =>
          [OpenCheckout(Lookup(data, "orderId"), Lookup(data, "amount"), Lookup(data, "keyId"),
                        plan.name + " - Timeloop AI Subscription")] +
          match checkout
          case Rejected(message) => [Alert(ErrorAlert(message))]
          case Fulfilled(_) => success
  }

  /** `handleSelectPlan`'s effects: the spinner on, the selection, the
      spinner off in the `finally`. */
  function SelectionEffects(planId: string, order: Awaited<seq<(string, Json)>>, checkout: Awaited<Json>, hasCallback: bool)
    : (effects: seq<Effect>)
    ensures |effects| == |Selection(planId, order, checkout, hasCallback)| + 2
    ensures effects[0] == SetLoading(true) && effects[|effects| - 1] == SetLoading(false)
  {
    [SetLoading(true)] + Selection(planId, order, checkout, hasCallback) + [SetLoading(false)]
  }

  /** The spinner is switched on first and off last, on every path, and not
      touched in between. */
  lemma LoadingBracketsSelection(planId: string, order: Awaited<seq<(string, Json)>>, checkout: Awaited<Json>, hasCallback: bool)
    ensures var e := SelectionEffects(planId, order, checkout, hasCallback);
      |e| >= 2 && e[0] == SetLoading(true) && e[|e| - 1] == SetLoading(false) &&
      forall i :: 0 < i < |e| - 1 ==> !e[i].SetLoading?
  {
  }

  /** An order is created exactly for a known plan with a price, and for that
      price; an unknown plan creates neither an order nor a checkout. */
  lemma OrderOnlyForPaidPlans(planId: string, order: Awaited<seq<(string, Json)>>, checkout: Awaited<Json>, hasCallback: bool,
                              amount: int, description: string)
    ensures CreateOrder(amount, description) in SelectionEffects(planId, order, checkout, hasCallback) <==>
      planId in Plans && Plans[planId].price != 0 &&
      amount == Plans[planId].price && description == Plans[planId].priceDisplay
    ensures planId !in Plans ==>
      forall e :: e in SelectionEffects(planId, order, checkout, hasCallback) ==> !e.CreateOrder? && !e.OpenCheckout?
  {
  }

  /** A known paid plan creates an order at its price and then, once the
      order is made, opens checkout for that order, its amount and the key id
      under "<plan name> - Timeloop AI Subscription". A failed order or a
      failed checkout ends in an alert of its error. */
  lemma PaidPlanOpensCheckout(planId: string, order: Awaited<seq<(string, Json)>>, checkout: Awaited<Json>, hasCallback: bool)
    requires planId in Plans && Plans[planId].price != 0
    ensures var plan := Plans[planId];
      var effects := Selection(planId, order, checkout, hasCallback);
      (order.Rejected? ==> effects == [CreateOrder(plan.price, plan.priceDisplay), Alert(ErrorAlert(order.message))]) &&
      (order.Fulfilled? ==>
        |effects| >= 2 &&
        effects[1] == OpenCheckout(Lookup(order.value, "orderId"), Lookup(order.value, "amount"),
                                   Lookup(order.value, "keyId"), plan.name + " - Timeloop AI Subscription") &&
        (checkout.Rejected? ==> effects[2..] == [Alert(ErrorAlert(checkout.message))]) &&
        (checkout.Fulfilled? ==> effects[2..] == (if hasCallback then [SubscriptionSucceeded] else [])))
  {
  }

  /** Success is reported only for the free plan, or after the order and the
      checkout both went through. */
  lemma SuccessOnlyAfterPayment(planId: string, order: Awaited<seq<(string, Json)>>, checkout: Awaited<Json>, hasCallback: bool)
    ensures SubscriptionSucceeded in SelectionEffects(planId, order, checkout, hasCallback) <==>
      hasCallback && planId in Plans &&
      (Plans[planId].price == 0 || (order.Fulfilled? && checkout.Fulfilled?))
  {
  }

  /** The component's state. */
  class Section {
    var billingCycle: BillingCycle
    var isLoading: bool

    /** The toggle starts on monthly billing, with no selection running. */
    constructor ()
      ensures billingCycle == MONTHLY && !isLoading
    {
      billingCycle := MONTHLY;
      isLoading := false;
    }

    /** One of the two toggle buttons. */
    method SetBillingCycle(cycle: BillingCycle)
      modifies this
      ensures billingCycle == cycle && isLoading == old(isLoading)
    {
      billingCycle := cycle;
    }

    /** The plan cards currently on show: the free, basic and premium plans
        of the chosen cycle, all three rendered, at most one of them marked
        as the current plan. */
    function Cards(current: Option<SubscriptionStatus>): (cards: seq<Option<Card>>)
      reads this
      ensures |cards| == 3 && cards[0].Some? && cards[1].Some? && cards[2].Some?
      ensures cards[0].value.name == Plans[KeyOf(FREE_TRIAL, billingCycle)].name
      ensures cards[1].value.name == Plans[KeyOf(BASIC, billingCycle)].name
      ensures cards[2].value.name == Plans[KeyOf(PREMIUM, billingCycle)].name
      ensures forall i, j :: 0 <= i < j < 3 && cards[i].value.button == CurrentPlanButton ==>
        cards[j].value.button != CurrentPlanButton
    {
      var keys := PlansTier(billingCycle);
      CardKeysNamePlans(billingCycle);
      [PricingCard(keys.free, IsCurrentPlan(FREE_TRIAL, current), isLoading),
       PricingCard(keys.basic, IsCurrentPlan(BASIC, current), isLoading),
       PricingCard(keys.premium, IsCurrentPlan(PREMIUM, current), isLoading)]
    }

    /** `handleSelectPlan`, run to completion. */
    method SelectPlan(planId: string, order: Awaited<seq<(string, Json)>>, checkout: Awaited<Json>, hasCallback: bool)
      returns (effects: seq<Effect>)
      modifies this
      ensures billingCycle == old(billingCycle) && !isLoading
      ensures effects == SelectionEffects(planId, order, checkout, hasCallback)
    {
      isLoading := true;
      effects := [SetLoading(true)];
      if planId !in Plans {
        effects := effects + [Alert("Invalid plan selected: " + planId + "\nSee console for details.")];
        effects := effects + [Alert("Invalid plan")];
      } else {
        var plan := Plans[planId];
        if plan.price == 0 {
          effects := effects + [Alert("Free trial started! (Backend integration needed)")];
          if hasCallback {
            effects := effects + [SubscriptionSucceeded];
          }
        } else {
          effects := effects + [CreateOrder(plan.price, plan.priceDisplay)];
          match order {
            case Rejected(message) =>
              effects := effects + [Alert(ErrorAlert(message))];
            case Fulfilled(data) =>
              effects := effects + [OpenCheckout(Lookup(data, "orderId"), Lookup(data, "amount"), Lookup(data, "keyId"),
                                                 plan.name + " - Timeloop AI Subscription")];
              match checkout {
                case Rejected(message) =>
                  effects := effects + [Alert(ErrorAlert(message))];
                case Fulfilled(_) =>
                  if hasCallback {
                    effects := effects + [SubscriptionSucceeded];
                  }
              }
          }
        }
      }
      isLoading := false;
      effects := effects + [SetLoading(false)];
    }
  }

  /** A plan picked from one of the section's cards is always a known plan:
      selection starts the trial or creates an order, never the invalid-plan
      path. */
  lemma CardsSelectKnownPlans(cycle: BillingCycle, order: Awaited<seq<(string, Json)>>, checkout: Awaited<Json>, hasCallback: bool)
    ensures forall key :: key in {PlansTier(cycle).free, PlansTier(cycle).basic, PlansTier(cycle).premium} ==>
      key in Plans &&
      var e := SelectionEffects(key, order, checkout, hasCallback);
      |e| >= 3 &&
      e[1] == if Plans[key].price == 0 then Alert("Free trial started! (Backend integration needed)")
              else CreateOrder(Plans[key].price, Plans[key].priceDisplay)
  {
    PlansAt();
  }
}
