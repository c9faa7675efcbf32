/** The header badge showing the caller's organization plan: days remaining with
    ceiling division, the exclusive expired / expiring-soon classification, the
    plan colour and feature list, and when each part is displayed. */
module SubscriptionBadge {
  import opened Wrappers

  const DayMs: int := 1000 * 60 * 60 * 24

  /** `Math.ceil((end - now) / DayMs)` on integer milliseconds. */
  function DaysRemaining(end: int, now: int): (d: int)
    ensures DayMs * (d - 1) < end - now <= DayMs * d
  {
    -((now - end) / DayMs)
  }

  predicate IsExpired(days: int) {
    days <= 0
  }

  predicate IsExpiringSoon(days: int) {
    days <= 7 && days > 0
  }

  /** Expired exactly when the end is not after now, whatever the sub-day remainder. */
  lemma {:induction false} ExpiredIffPastEnd(end: int, now: int)
    ensures IsExpired(DaysRemaining(end, now)) <==> end <= now
  {
    var d := DaysRemaining(end, now);
    if d <= 0 {
      assert DayMs * d <= 0;
    } else {
      assert DayMs * (d - 1) >= 0;
    }
  }

  /** Expiring soon exactly when the end lies in the next seven days. */
  lemma {:induction false} ExpiringSoonWindow(end: int, now: int)
    ensures IsExpiringSoon(DaysRemaining(end, now)) <==> now < end <= now + 7 * DayMs
  {
    var d := DaysRemaining(end, now);
    ExpiredIffPastEnd(end, now);
    if d <= 7 {
      assert DayMs * d <= 7 * DayMs;
    } else {
      assert DayMs * (d - 1) >= 7 * DayMs;
    }
  }

  /** The two warnings are never shown together. */
  lemma ExclusiveWarnings(days: int)
    ensures !(IsExpired(days) && IsExpiringSoon(days))
  {
  }

  /** `getPlanColor`: gray for the free plan and for any unknown plan. */
  function PlanColor(plan: string): (c: string)
    ensures plan == "basic" ==> c == "bg-blue-500"
    ensures plan == "pro" ==> c == "bg-purple-500"
    ensures plan == "enterprise" ==> c == "bg-yellow-500"
    ensures c == "bg-gray-500" <==> plan !in {"basic", "pro", "enterprise"}
  {
    if plan == "basic" then "bg-blue-500"
    else if plan == "pro" then "bg-purple-500"
    else if plan == "enterprise" then "bg-yellow-500"
    else "bg-gray-500"
  }

  /** `getPlanFeatures`: the four plans' lists, and nothing for any other plan. */
  function PlanFeatures(plan: string): (fs: seq<string>)
    ensures fs == [] <==> plan !in {"free", "basic", "pro", "enterprise"}
    ensures plan == "free" ==> |fs| == 4
    ensures plan == "basic" ==> |fs| == 5
    ensures plan in {"pro", "enterprise"} ==> |fs| == 7
    ensures plan == "enterprise" ==> "Semua Fitur Pro" in fs
  {
    if plan == "free" then
      ["5 Users maksimal", "50 Produk maksimal", "3 Riders maksimal", "Fitur dasar POS & Gudang"]
    else if plan == "basic" then
      ["25 Users", "200 Produk", "10 Riders", "GPS Tracking", "Laporan Basic"]
    else if plan == "pro" then
      ["100 Users", "1000 Produk", "50 Riders", "GPS Tracking Advanced", "Laporan Detail",
       "Production Tracking", "White-label Branding"]
    else if plan == "enterprise" then
      ["Unlimited Users", "Unlimited Produk", "Unlimited Riders", "Semua Fitur Pro",
       "Priority Support", "Custom Integration", "Dedicated Account Manager"]
    else []
  }

  /** The organization's `name, subscription_plan`. */
  datatype OrganizationRow = OrganizationRow(name: string, plan: string)

  /** The latest `subscription_history` row's `start_date, end_date, payment_status`. */
  datatype LatestHistory = LatestHistory(startDate: int, endDate: int, paymentStatus: string)

  datatype SubscriptionInfo = SubscriptionInfo(
    plan: string, startDate: int, endDate: int, paymentStatus: string,
    organizationName: string, daysRemaining: int)

  /** `loadSubscription`: stops without a user and without an organization id
      (an empty id counts as none); needs both the organization and its latest
      history row. */
  function LoadSubscription(user: Option<string>, profileOrgId: Option<string>, org: Option<OrganizationRow>,
                            latest: Option<LatestHistory>, now: int): (s: Option<SubscriptionInfo>)
    ensures s.Some? <==> user.Some? && profileOrgId.Some? && profileOrgId.value != "" && org.Some? && latest.Some?
    ensures s.Some? ==> s.value.plan == org.value.plan && s.value.organizationName == org.value.name
    ensures s.Some? ==> s.value.paymentStatus == latest.value.paymentStatus && s.value.endDate == latest.value.endDate
    ensures s.Some? ==> s.value.daysRemaining == DaysRemaining(latest.value.endDate, now)
  {
    if user.None? || profileOrgId.None? || profileOrgId.value == "" then None
    else if org.Some? && latest.Some? then
      Some(SubscriptionInfo(org.value.plan, latest.value.startDate, latest.value.endDate,
                            latest.value.paymentStatus, org.value.name,
                            DaysRemaining(latest.value.endDate, now)))
    else None
  }

  /** The small badge next to the plan name: "Expired" or "Nd". */
  datatype DayBadge = ExpiredBadge | DaysLeft(days: int)

  /** What the component puts on screen. */
  datatype BadgeView = BadgeView(
    planColor: string,
    dayBadge: Option<DayBadge>,
    paymentActive: bool,
    expiringWarning: bool,
    expiredNotice: bool,
    features: seq<string>,
    upgradeCard: bool)

  /** The render: nothing while loading or without a subscription. */
  function Render(loading: bool, sub: Option<SubscriptionInfo>): (v: Option<BadgeView>)
    ensures v.None? <==> loading || sub.None?
    ensures v.Some? ==> (v.value.dayBadge.Some? <==> sub.value.plan != "free")
    ensures v.Some? ==> (v.value.dayBadge == Some(ExpiredBadge) <==> sub.value.plan != "free" && sub.value.daysRemaining <= 0)
    ensures v.Some? && v.value.dayBadge.Some? && v.value.dayBadge.value.DaysLeft? ==>
      v.value.dayBadge.value.days == sub.value.daysRemaining && sub.value.daysRemaining > 0
    ensures v.Some? ==> (v.value.paymentActive <==> sub.value.paymentStatus == "paid")
    ensures v.Some? ==> (v.value.upgradeCard <==> sub.value.plan != "enterprise")
    ensures v.Some? ==> !(v.value.expiringWarning && v.value.expiredNotice)
    ensures v.Some? ==> (v.value.expiredNotice <==> sub.value.daysRemaining <= 0)
    ensures v.Some? ==> (v.value.expiringWarning <==> 0 < sub.value.daysRemaining <= 7)
    ensures v.Some? ==> v.value.features == PlanFeatures(sub.value.plan) && v.value.planColor == PlanColor(sub.value.plan)
  {
    if loading || sub.None? then None
    else
      var s := sub.value;
      var expired := IsExpired(s.daysRemaining);
      var soon := IsExpiringSoon(s.daysRemaining);
      Some(BadgeView(PlanColor(s.plan),
                     if s.plan != "free" then Some(if expired then ExpiredBadge else DaysLeft(s.daysRemaining)) else None,
                     s.paymentStatus == "paid",
                     soon && !expired,
                     expired,
                     PlanFeatures(s.plan),
                     s.plan != "enterprise"))
  }

  /** A paid "pro" subscription ending in exactly three days shows "3d" and the warning. */
  lemma ThreeDaysLeft(now: int)
    ensures Render(false, LoadSubscription(Some("u"), Some("o"), Some(OrganizationRow("Toko", "pro")),
                                           Some(LatestHistory(now - DayMs, now + 3 * DayMs, "paid")), now))
      == Some(BadgeView("bg-purple-500", Some(DaysLeft(3)), true, true, false, PlanFeatures("pro"), true))
  {
    assert DaysRemaining(now + 3 * DayMs, now) == 3;
  }

  /** A free plan that ran out shows no day badge but still the expired notice. */
  lemma FreePlanExpired(s: SubscriptionInfo)
    requires s.plan == "free" && s.daysRemaining <= 0
    ensures Render(false, Some(s)).value.dayBadge.None?
    ensures Render(false, Some(s)).value.expiredNotice
  {
  }
}
