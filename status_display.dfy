/** The subscription status panel: a loading placeholder, nothing without a
    subscription, or the tier, a status badge, the days left, the action
    button, the monthly usage and the next billing date. */
module StatusDisplay {
  import opened Js
  import opened Types
  import SubscriptionPlans

  /** `videoLimit` of the unlimited plans. */
  const Unlimited: int := 999999

  /** A JavaScript number as far as the usage ratio needs one: a finite
      value, an infinity from dividing by a zero limit, or NaN from 0 / 0. */
  datatype Num = Finite(r: real) | PosInfinity | NegInfinity | NaN

  /** `(used / limit) * 100`. */
  function UsageRatio(used: int, limit: int): (n: Num)
    ensures limit != 0 ==> n == Finite(used as real / limit as real * 100.0)
    ensures limit == 0 ==> (n.PosInfinity? <==> used > 0) && (n.NegInfinity? <==> used < 0) && (n.NaN? <==> used == 0)
  {
    if limit != 0 then Finite(used as real / limit as real * 100.0)
    else if used > 0 then PosInfinity
    else if used < 0 then NegInfinity
    else NaN
  }

  /** `Math.min(100, x)`: NaN stays NaN. */
  function Min100(x: Num): (n: Num)
    ensures x.Finite? ==> n.Finite? && n.r <= 100.0 && (n.r == 100.0 || n.r == x.r) && n.r <= x.r
    ensures x.PosInfinity? ==> n == Finite(100.0)
    ensures x.NegInfinity? || x.NaN? ==> n == x
  {
    match x
    case Finite(r) => Finite(if r < 100.0 then r else 100.0)
    case PosInfinity => Finite(100.0)
    case _ => x
  }

  /** `Math.min(100, (used / limit) * 100)`: never +Infinity, a finite
      value up to 100 for a positive limit, and NaN or -Infinity only for a
      zero limit. */
  function UsagePercentage(used: int, limit: int): (n: Num)
    ensures !n.PosInfinity?
    ensures limit > 0 ==> n.Finite? && n.r <= 100.0
    ensures n.NaN? <==> limit == 0 && used == 0
    ensures n.NegInfinity? <==> limit == 0 && used < 0
  {
    Min100(UsageRatio(used, limit))
  }

  /** For a positive limit the bar is a real percentage, never above 100, the
      share of the limit used while under it, and full from the limit on. */
  lemma UsageWithinBar(used: int, limit: int)
    requires limit > 0
    ensures UsagePercentage(used, limit).Finite?
    ensures UsagePercentage(used, limit).r <= 100.0
    ensures used >= 0 ==> UsagePercentage(used, limit).r >= 0.0
    ensures used < limit ==> UsagePercentage(used, limit).r == used as real * 100.0 / limit as real
    ensures used >= limit ==> UsagePercentage(used, limit).r == 100.0
  {
    var q := used as real / limit as real;
    assert q * limit as real == used as real;
    if used < limit {
      assert q < 1.0;
    } else {
      assert q >= 1.0;
    }
  }

  /** A zero limit gives a full bar once anything is used, and NaN before. */
  lemma UsageWithZeroLimit(used: int)
    ensures used > 0 ==> UsagePercentage(used, 0) == Finite(100.0)
    ensures used == 0 ==> UsagePercentage(used, 0) == NaN
  {
  }

  /** `getTierLabel`. */
  function TierLabel(tier: SubscriptionTier): (text: string)
    ensures text == "Premium" <==> tier == PREMIUM
    ensures text == "Basic" <==> tier == BASIC
    ensures text == "Free Trial" <==> tier == FREE_TRIAL
  {
    match tier
    case PREMIUM => "Premium"
    case BASIC => "Basic"
    case _ => "Free Trial"
  }

  /** The label is how every plan of that tier begins its name. */
  lemma TierLabelPrefixesPlanNames()
    ensures forall k :: k in SubscriptionPlans.Plans ==>
      StartsWith(SubscriptionPlans.Plans[k].name, TierLabel(SubscriptionPlans.Plans[k].tier))
  {
    SubscriptionPlans.PlansAt();
    assert StartsWith("Free Trial", "Free Trial");
    assert StartsWith("Basic Monthly", "Basic");
    assert StartsWith("Basic Yearly", "Basic");
    assert StartsWith("Premium Monthly", "Premium");
    assert StartsWith("Premium Yearly", "Premium");
  }

  /** `getStatusBadge(...).text`. */
  function StatusBadge(status: string): (badge: string)
    ensures badge == "Active" <==> status == "active"
    ensures badge == "Trial" <==> status == "on_trial"
    ensures badge == "Cancelled" <==> status == "cancelled"
    ensures badge == "Expired" <==> status == "expired"
    ensures badge in {"Active", "Trial", "Cancelled", "Expired", "Unknown"}
  {
    if status == "active" then "Active"
    else if status == "on_trial" then "Trial"
    else if status == "cancelled" then "Cancelled"
    else if status == "expired" then "Expired"
    else "Unknown"
  }

  /** The four known statuses get their own badge, and any other text gets
      'Unknown'. */
  lemma BadgeKnowsFourStatuses(status: string)
    ensures StatusBadge(status) != "Unknown" <==> status in {"active", "on_trial", "cancelled", "expired"}
  {
  }

  /** Whether the plan counts as running: active or on trial. */
  predicate Running(status: string) {
    status == "on_trial" || status == "active"
  }

  /** What the panel shows. */
  datatype Panel = Panel(
    heading: string,
    badge: string,
    daysLine: string,
    action: string,
    usage: string,
    bar: Option<Num>,
    nextBilling: Option<string>)

  datatype View = LoadingView | NoView | PanelView(panel: Panel)

  /** The component. */
  function Render(status: Option<SubscriptionStatus>, loading: bool): (v: View)
    // loading wins over everything; then no status renders nothing
    ensures loading ==> v == LoadingView
    ensures !loading && status.None? ==> v == NoView
    ensures !loading && status.Some? ==> v.PanelView?
    ensures v.PanelView? ==>
      var s := status.value;
      v.panel.heading == TierLabel(s.tier) + " Plan" &&
      v.panel.badge == StatusBadge(s.status) &&
      // days remaining and "Upgrade Plan" exactly while the plan is running
      (v.panel.daysLine == IntText(s.daysRemaining) + " days remaining" <==> Running(s.status)) &&
      (!Running(s.status) ==> v.panel.daysLine == "Plan not active") &&
      (v.panel.action == "Upgrade Plan" <==> Running(s.status)) &&
      (!Running(s.status) ==> v.panel.action == "Reactivate") &&
      // the unlimited limit shows as ∞ and has no bar
      (s.videoLimit == Unlimited ==> v.panel.usage == IntText(s.videosUsedThisMonth) + " / ∞" && v.panel.bar.None?) &&
      (s.videoLimit != Unlimited ==>
        v.panel.usage == IntText(s.videosUsedThisMonth) + " / " + IntText(s.videoLimit) &&
        v.panel.bar == Some(UsagePercentage(s.videosUsedThisMonth, s.videoLimit))) &&
      // the next billing date is shown exactly when there is one
      (v.panel.nextBilling.Some? <==> NonEmpty(s.nextBillingDate)) &&
      (v.panel.nextBilling.Some? ==> v.panel.nextBilling == s.nextBillingDate)
  {
    if loading then LoadingView
    else if status.None? then NoView
    else
      var s := status.value;
      var daysLine := if Running(s.status) then IntText(s.daysRemaining) + " days remaining" else "Plan not active";
      assert Running(s.status) ==> daysLine != "Plan not active" by {
        if Running(s.status) {
          DaysLineDiffers(s.daysRemaining);
        }
      }
      PanelView(Panel(
        TierLabel(s.tier) + " Plan",
        StatusBadge(s.status),
        daysLine,
        if Running(s.status) then "Upgrade Plan" else "Reactivate",
        IntText(s.videosUsedThisMonth) + " / " + (if s.videoLimit == Unlimited then "∞" else IntText(s.videoLimit)),
        if s.videoLimit != Unlimited then Some(UsagePercentage(s.videosUsedThisMonth, s.videoLimit)) else None,
        if NonEmpty(s.nextBillingDate) then s.nextBillingDate else None))
  }

  /** "N days remaining" never reads "Plan not active": the two lines tell
      the states apart. */
  lemma DaysLineDiffers(days: int)
    ensures IntText(days) + " days remaining" != "Plan not active"
  {
    var t := IntText(days) + " days remaining";
    assert t[|t| - 1] == 'g';
    assert "Plan not active"[14] == 'e';
  }
}
