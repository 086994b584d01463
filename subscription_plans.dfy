/** The plan table shared by the pricing cards and the payment handlers:
    five plans keyed by upper-case names, their display order, and the trial
    length. Prices are in paise. */
module SubscriptionPlans {
  import opened Types

  const FreeTrial := SubscriptionPlan(
    "free_trial", FREE_TRIAL, MONTHLY, "Free Trial", "14 days to explore Timeloop AI",
    0, "Free",
    ["5 videos/month", "Basic scene analysis", "Up to 5 scene segments", "Community support",
     "Video preview & download"],
    5, 5, "community", false)

  const BasicMonthly := SubscriptionPlan(
    "basic_monthly", BASIC, MONTHLY, "Basic Monthly", "Perfect for content creators",
    99900, "₹999/month",
    ["50 videos/month", "Standard scene analysis", "Up to 20 scene segments", "Email support",
     "Advanced filters", "Batch processing (5 videos)", "Video history (3 months)"],
    50, 20, "email", false)

  const BasicYearly := SubscriptionPlan(
    "basic_yearly", BASIC, YEARLY, "Basic Yearly", "Save 17% with yearly billing",
    99900 * 10, "₹9,990/year",
    ["50 videos/month", "Standard scene analysis", "Up to 20 scene segments", "Email support",
     "Advanced filters", "Batch processing (5 videos)", "Video history (12 months)"],
    50, 20, "email", false)

  const PremiumMonthly := SubscriptionPlan(
    "premium_monthly", PREMIUM, MONTHLY, "Premium Monthly", "For professional teams",
    299900, "₹2,999/month",
    ["Unlimited videos", "Advanced scene analysis", "Unlimited scene segments",
     "Priority support (24/7)", "API access", "Batch processing (unlimited)",
     "Video history (lifetime)", "Custom branding", "Team collaboration (up to 5 users)"],
    999999, 999999, "priority", true)

  const PremiumYearly := SubscriptionPlan(
    "premium_yearly", PREMIUM, YEARLY, "Premium Yearly", "Save 20% with yearly billing",
    299900 * 10, "₹29,990/year",
    ["Unlimited videos", "Advanced scene analysis", "Unlimited scene segments",
     "Priority support (24/7)", "API access", "Batch processing (unlimited)",
     "Video history (lifetime)", "Custom branding", "Team collaboration (up to 5 users)",
     "Advanced analytics dashboard"],
    999999, 999999, "priority", true)

  /** `SUBSCRIPTION_PLANS`. */
  const Plans: map<string, SubscriptionPlan> := map[
    "FREE_TRIAL" := FreeTrial,
    "BASIC_MONTHLY" := BasicMonthly,
    "BASIC_YEARLY" := BasicYearly,
    "PREMIUM_MONTHLY" := PremiumMonthly,
    "PREMIUM_YEARLY" := PremiumYearly]

  /** `PLANS_LIST`: the display order. */
  const PlansList: seq<SubscriptionPlan> := [FreeTrial, BasicMonthly, BasicYearly, PremiumMonthly, PremiumYearly]

  /** `FREE_TRIAL_DAYS`. */
  const FreeTrialDays: int := 14

  /** The key a plan of this tier and cycle is stored under. */
  function KeyOf(tier: SubscriptionTier, cycle: BillingCycle): (key: string)
    ensures tier == FREE_TRIAL ==> key == "FREE_TRIAL"
    ensures key in Plans && Plans[key].tier == tier
    ensures tier != FREE_TRIAL ==> Plans[key].billingCycle == cycle
  {
    PlansAt();
    match (tier, cycle)
    case (FREE_TRIAL, _) => "FREE_TRIAL"
    case (BASIC, MONTHLY) => "BASIC_MONTHLY"
    case (BASIC, YEARLY) => "BASIC_YEARLY"
    case (PREMIUM, MONTHLY) => "PREMIUM_MONTHLY"
    case (PREMIUM, YEARLY) => "PREMIUM_YEARLY"
  }

  function LowerChar(c: char): (d: char)
    ensures 'A' <= c <= 'Z' ==> d as int == c as int + 32
    ensures !('A' <= c <= 'Z') ==> d == c
  {
    if 'A' <= c <= 'Z' then (c as int + 32) as char else c
  }

  /** `lower` is `upper` with its ASCII capitals lower-cased. */
  predicate LowerCaseOf(lower: string, upper: string) {
    |lower| == |upper| && forall i :: 0 <= i < |upper| ==> lower[i] == LowerChar(upper[i])
  }

  /** The table's entries, one by one. */
  lemma PlansAt()
    ensures Plans.Keys == {"FREE_TRIAL", "BASIC_MONTHLY", "BASIC_YEARLY", "PREMIUM_MONTHLY", "PREMIUM_YEARLY"}
    ensures Plans["FREE_TRIAL"] == FreeTrial && Plans["BASIC_MONTHLY"] == BasicMonthly
    ensures Plans["BASIC_YEARLY"] == BasicYearly && Plans["PREMIUM_MONTHLY"] == PremiumMonthly
    ensures Plans["PREMIUM_YEARLY"] == PremiumYearly
  {
  }

  /** There are exactly five plans, listed free, basic monthly, basic yearly,
      premium monthly, premium yearly, and the list holds exactly the table. */
  lemma PlansListOrder()
    ensures |Plans| == 5 && |PlansList| == 5
    ensures forall i :: 0 <= i < 5 ==> PlansList[i] == Plans[["FREE_TRIAL", "BASIC_MONTHLY", "BASIC_YEARLY", "PREMIUM_MONTHLY", "PREMIUM_YEARLY"][i]]
    ensures forall p :: p in PlansList <==> p in Plans.Values
  {
    var keys := ["FREE_TRIAL", "BASIC_MONTHLY", "BASIC_YEARLY", "PREMIUM_MONTHLY", "PREMIUM_YEARLY"];
    assert Plans.Keys == set k | k in keys;
    assert |Plans.Keys| == 5;
    forall p | p in Plans.Values ensures p in PlansList {
      var k :| k in Plans && Plans[k] == p;
    }
  }

  /** Each plan's id is its key in lower case. */
  lemma IdsAreLowerCaseKeys()
    ensures forall k :: k in Plans ==> LowerCaseOf(Plans[k].id, k)
  {
    PlansAt();
    FreeTrialIdLowerCase();
    BasicMonthlyIdLowerCase();
    BasicYearlyIdLowerCase();
    PremiumMonthlyIdLowerCase();
    PremiumYearlyIdLowerCase();
  }

  lemma FreeTrialIdLowerCase() ensures LowerCaseOf(FreeTrial.id, "FREE_TRIAL") { }
  lemma BasicMonthlyIdLowerCase() ensures LowerCaseOf(BasicMonthly.id, "BASIC_MONTHLY") { }
  lemma BasicYearlyIdLowerCase() ensures LowerCaseOf(BasicYearly.id, "BASIC_YEARLY") { }
  lemma PremiumMonthlyIdLowerCase() ensures LowerCaseOf(PremiumMonthly.id, "PREMIUM_MONTHLY") { }
  lemma PremiumYearlyIdLowerCase() ensures LowerCaseOf(PremiumYearly.id, "PREMIUM_YEARLY") { }

  /** Each plan's tier and billing cycle are the ones its key names. */
  lemma KeysNameTierAndCycle()
    ensures forall k :: k in Plans ==> k == KeyOf(Plans[k].tier, Plans[k].billingCycle)
  {
    PlansAt();
  }

  /** The free trial is the only plan with price 0; every other price is
      positive. */
  lemma OnlyTrialIsFree()
    ensures forall k :: k in Plans ==> (Plans[k].price == 0 <==> k == "FREE_TRIAL")
    ensures forall k :: k in Plans ==> Plans[k].price >= 0
  {
  }

  /** A yearly plan costs ten monthly payments, and has the same limits as
      its monthly twin. */
  lemma YearlyIsTenMonths()
    ensures BasicYearly.price == 10 * BasicMonthly.price
    ensures PremiumYearly.price == 10 * PremiumMonthly.price
    ensures BasicYearly.videoLimit == BasicMonthly.videoLimit && BasicYearly.sceneLimit == BasicMonthly.sceneLimit
    ensures PremiumYearly.videoLimit == PremiumMonthly.videoLimit && PremiumYearly.sceneLimit == PremiumMonthly.sceneLimit
  {
  }

  /** API access comes with the premium tier and nothing else. */
  lemma ApiAccessIsPremium()
    ensures forall k :: k in Plans ==> (Plans[k].apiAccess <==> Plans[k].tier == PREMIUM)
  {
  }

  /** The saving of yearly billing, as a fraction of twelve monthly payments. */
  function YearlySaving(monthly: SubscriptionPlan, yearly: SubscriptionPlan): (r: real)
    requires monthly.price > 0
  {
    (12 * monthly.price - yearly.price) as real / (12 * monthly.price) as real
  }

  /** Both yearly plans save two months in twelve (16.67%): the basic plan's
      "Save 17%" is that figure rounded, while the premium plan's "Save 20%"
      overstates it. */
  lemma YearlySavingIsTwoMonths()
    ensures YearlySaving(BasicMonthly, BasicYearly) == 2.0 / 12.0
    ensures YearlySaving(PremiumMonthly, PremiumYearly) == 2.0 / 12.0
    ensures 0.165 < 2.0 / 12.0 < 0.175
    ensures 2.0 / 12.0 < 0.20
    ensures BasicYearly.description == "Save 17% with yearly billing"
    ensures PremiumYearly.description == "Save 20% with yearly billing"
  {
    assert 12 * BasicMonthly.price - BasicYearly.price == 2 * BasicMonthly.price;
    assert 12 * PremiumMonthly.price - PremiumYearly.price == 2 * PremiumMonthly.price;
  }
}
