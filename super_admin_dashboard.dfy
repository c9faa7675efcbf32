/** The super admin dashboard: the access check that either leaves the page or
    loads every organization, the statistics computed from the loaded rows, and
    the table's badges, expiry cell and row links. */
module SuperAdminDashboard {
  import opened Wrappers
  import OrganizationDetail
  import SubscriptionBadge

  /** An `organizations` row; `endDate` is `None` for a null end date. */
  datatype Organization = Organization(
    id: string, name: string, slug: string, status: string, plan: string, endDate: Option<int>,
    maxUsers: int, maxProducts: int, maxRiders: int, isActive: bool, createdAt: int)

  /** A `subscription_history` row as the revenue query reads it. */
  datatype Payment = Payment(amount: int, paymentStatus: string)

  datatype Stats = Stats(totalOrganizations: nat, activeSubscriptions: nat, totalRevenue: int, trialOrganizations: nat)

  const InitialStats := Stats(0, 0, 0, 0)

  /** `orgs.filter(org => org.subscription_status === status).length`. */
  function CountStatus(orgs: seq<Organization>, status: string): (n: nat)
    ensures n <= |orgs|
    ensures n == 0 <==> forall i :: 0 <= i < |orgs| ==> orgs[i].status != status
  {
    if orgs == [] then 0
    else (if orgs[0].status == status then 1 else 0) + CountStatus(orgs[1..], status)
  }

  lemma {:induction false} CountStatusAppend(a: seq<Organization>, b: seq<Organization>, status: string)
    ensures CountStatus(a + b, status) == CountStatus(a, status) + CountStatus(b, status)
  {
    if a == [] {
      assert a + b == b;
    } else {
      assert (a + b)[1..] == a[1..] + b;
      CountStatusAppend(a[1..], b, status);
    }
  }

  /** Two different statuses never count the same organization twice, so the
      active and trial counts together are at most the number of organizations. */
  lemma {:induction false} ActiveAndTrialBound(orgs: seq<Organization>)
    ensures CountStatus(orgs, "active") + CountStatus(orgs, "trial") <= |orgs|
  {
    if orgs != [] {
      ActiveAndTrialBound(orgs[1..]);
    }
  }

  /** The revenue: the amounts of the paid history rows added up, 0 when there are none. */
  function PaidRevenue(payments: seq<Payment>): (total: int)
    ensures (forall i :: 0 <= i < |payments| ==> payments[i].paymentStatus != "paid") ==> total == 0
    ensures |payments| == 1 ==> total == (if payments[0].paymentStatus == "paid" then payments[0].amount else 0)
  {
    if payments == [] then 0
    else (if payments[0].paymentStatus == "paid" then payments[0].amount else 0) + PaidRevenue(payments[1..])
  }

  lemma {:induction false} PaidRevenueAppend(a: seq<Payment>, b: seq<Payment>)
    ensures PaidRevenue(a + b) == PaidRevenue(a) + PaidRevenue(b)
  {
    if a == [] {
      assert a + b == b;
    } else {
      assert (a + b)[1..] == a[1..] + b;
      PaidRevenueAppend(a[1..], b);
    }
  }

  /** With non-negative amounts the total is at least every single paid amount. */
  lemma {:induction false} PaidRevenueBound(payments: seq<Payment>, k: nat)
    requires forall i :: 0 <= i < |payments| ==> payments[i].amount >= 0
    requires k < |payments| && payments[k].paymentStatus == "paid"
    ensures PaidRevenue(payments) >= payments[k].amount
  {
    var tail := payments[1..];
    assert forall i :: 0 <= i < |tail| ==> tail[i] == payments[i + 1];
    if k == 0 {
      PaidRevenueNonNegative(tail);
    } else {
      PaidRevenueBound(tail, k - 1);
    }
  }

  lemma {:induction false} PaidRevenueNonNegative(payments: seq<Payment>)
    requires forall i :: 0 <= i < |payments| ==> payments[i].amount >= 0
    ensures PaidRevenue(payments) >= 0
  {
    if payments != [] {
      PaidRevenueNonNegative(payments[1..]);
    }
  }

  /** The statistics `loadDashboardData` sets; a null payments answer counts as no revenue. */
  function StatsOf(orgs: seq<Organization>, payments: Option<seq<Payment>>): (s: Stats)
    ensures s.totalOrganizations == |orgs|
    ensures s.activeSubscriptions + s.trialOrganizations <= s.totalOrganizations
    ensures payments.None? ==> s.totalRevenue == 0
    ensures s.activeSubscriptions == CountStatus(orgs, "active")
    ensures s.trialOrganizations == CountStatus(orgs, "trial")
    ensures payments.Some? ==> s.totalRevenue == PaidRevenue(payments.value)
  {
    ActiveAndTrialBound(orgs);
    Stats(|orgs|, CountStatus(orgs, "active"),
          if payments.Some? then PaidRevenue(payments.value) else 0,
          CountStatus(orgs, "trial"))
  }

  /** The answer of the role query: an error, or the row's role (`None` for no row). */
  datatype RoleQuery = RoleError | RoleRow(role: Option<string>)

  /** `checkSuperAdminAccess` without the loader: where the page goes, or that it loads. */
  datatype AccessDecision = NavigateTo(path: string) | LoadData

  function CheckAccess(user: Option<string>, roles: RoleQuery, thrown: bool): (d: AccessDecision)
    ensures d == LoadData <==> !thrown && user.Some? && roles == RoleRow(Some("super_admin"))
    ensures d == NavigateTo("/auth") <==> !thrown && user.None?
    ensures d.NavigateTo? ==> d.path in {"/auth", "/"}
  {
    if thrown then NavigateTo("/")
    else if user.None? then NavigateTo("/auth")
    else if roles.RoleError? || roles.role != Some("super_admin") then NavigateTo("/")
    else LoadData
  }

  /** An admin who is not a super admin is sent home and nothing is loaded. */
  lemma AdminIsSentHome(user: string)
    ensures CheckAccess(Some(user), RoleRow(Some("admin")), false) == NavigateTo("/")
  {
  }

  /** `getPlanBadge`: its own map with the free plan listed. */
  function PlanBadgeColor(plan: string): (c: string)
    ensures c == "bg-gray-500" <==> plan !in {"basic", "pro", "enterprise"}
  {
    var colors := map["free" := "bg-gray-500", "basic" := "bg-blue-500", "pro" := "bg-purple-500",
                      "enterprise" := "bg-yellow-500"];
    if plan in colors then colors[plan] else "bg-gray-500"
  }

  /** The dashboard's plan map and the header badge's colour function agree on every plan. */
  lemma PlanBadgeAgreesWithHeader(plan: string)
    ensures PlanBadgeColor(plan) == SubscriptionBadge.PlanColor(plan)
  {
  }

  /** The Expires cell: the end date, or the placeholder for a null date. */
  datatype ExpiresCell = ExpiresOn(date: int) | NoEndDate

  /** One organization row of the table; `link` is where a click goes. */
  datatype OrgRowView = OrgRowView(
    name: string, slug: string, planColor: string, status: OrganizationDetail.BadgeVariant,
    expires: ExpiresCell, link: string)

  function RowView(o: Organization): (r: OrgRowView)
    ensures r.expires == NoEndDate <==> o.endDate.None?
    ensures r.expires.ExpiresOn? ==> r.expires.date == o.endDate.value
    ensures r.link == "/super-admin/organization/" + o.id
    ensures r.planColor == SubscriptionBadge.PlanColor(o.plan)
    ensures r.status == OrganizationDetail.StatusVariant(o.status)
  {
    PlanBadgeAgreesWithHeader(o.plan);
    OrgRowView(o.name, o.slug, PlanBadgeColor(o.plan), OrganizationDetail.StatusVariant(o.status),
               if o.endDate.Some? then ExpiresOn(o.endDate.value) else NoEndDate,
               "/super-admin/organization/" + o.id)
  }

  datatype DashboardView = Spinner | Nothing | EmptyTable(stats: Stats) | Table(stats: Stats, rows: seq<OrgRowView>)

  /** The render: the spinner while loading, nothing for a non super admin,
      otherwise the statistics and one row per organization in load order. */
  function Render(loading: bool, isSuperAdmin: bool, orgs: seq<Organization>, stats: Stats): (v: DashboardView)
    ensures v == Spinner <==> loading
    ensures v == Nothing <==> !loading && !isSuperAdmin
    ensures v.EmptyTable? <==> !loading && isSuperAdmin && orgs == []
    ensures v.Table? ==> |v.rows| == |orgs| && forall i :: 0 <= i < |orgs| ==> v.rows[i] == RowView(orgs[i])
    ensures v.Table? || v.EmptyTable? ==> v.stats == stats
  {
    if loading then Spinner
    else if !isSuperAdmin then Nothing
    else if orgs == [] then EmptyTable(stats)
    else Table(stats, seq(|orgs|, i requires 0 <= i < |orgs| => RowView(orgs[i])))
  }

  /** The answer of the organizations query: an error, or the rows (a null
      answer without an error is the empty list). */
  datatype OrgQuery = OrgsFailed | OrgsLoaded(rows: seq<Organization>)

  class Dashboard {
    var loading: bool
    var isSuperAdmin: bool
    var organizations: seq<Organization>
    var stats: Stats

    constructor ()
      ensures loading && !isSuperAdmin && organizations == [] && stats == InitialStats
    {
      loading := true;
      isSuperAdmin := false;
      organizations := [];
      stats := InitialStats;
    }

    /** `loadDashboardData`: on a query error the rows and statistics stay as
        they were; loading ends in every case. */
    method LoadDashboardData(orgs: OrgQuery, payments: Option<seq<Payment>>)
      modifies this`loading, this`organizations, this`stats
      ensures !loading
      ensures orgs.OrgsFailed? ==> organizations == old(organizations) && stats == old(stats)
      ensures orgs.OrgsLoaded? ==> organizations == orgs.rows && stats == StatsOf(orgs.rows, payments)
    {
      if orgs.OrgsLoaded? {
        organizations := orgs.rows;
        stats := StatsOf(orgs.rows, payments);
      }
      loading := false;
    }

    /** `checkSuperAdminAccess`: either navigates away, leaving `loading` set
        and nothing loaded, or marks the caller a super admin and loads. */
    method CheckSuperAdminAccess(user: Option<string>, roles: RoleQuery, thrown: bool,
                                 orgs: OrgQuery, payments: Option<seq<Payment>>)
      returns (navigateTo: Option<string>)
      modifies this
      ensures var d := CheckAccess(user, roles, thrown);
        && (d.NavigateTo? ==> navigateTo == Some(d.path) && loading == old(loading) && isSuperAdmin == old(isSuperAdmin)
                              && organizations == old(organizations) && stats == old(stats))
        && (d == LoadData ==> navigateTo.None? && isSuperAdmin && !loading
                              && (orgs.OrgsLoaded? ==> organizations == orgs.rows && stats == StatsOf(orgs.rows, payments))
                              && (orgs.OrgsFailed? ==> organizations == old(organizations) && stats == old(stats)))
    {
      var d := CheckAccess(user, roles, thrown);
      if d.NavigateTo? {
        navigateTo := Some(d.path);
        return;
      }
      isSuperAdmin := true;
      LoadDashboardData(orgs, payments);
      navigateTo := None;
    }
  }

  const ExampleActive := Organization("o1", "Kopi", "kopi", "active", "pro", Some(100), 100, 1000, 50, true, 1)
  const ExampleTrial := Organization("o2", "Roti", "roti", "trial", "free", None, 5, 50, 3, true, 2)
  const ExamplePayments := [Payment(150000, "paid"), Payment(99000, "pending")]

  /** One trial and one active organization, one paid and one pending payment:
      both organizations are counted and only the paid amount. */
  lemma ExampleStats()
    ensures StatsOf([ExampleActive, ExampleTrial], Some(ExamplePayments)) == Stats(2, 1, 150000, 1)
  {
    assert [ExampleActive, ExampleTrial][1..] == [ExampleTrial];
    assert CountStatus([ExampleActive, ExampleTrial], "active") == 1;
    assert CountStatus([ExampleActive, ExampleTrial], "trial") == 1;
    assert ExamplePayments[1..] == [Payment(99000, "pending")];
    assert PaidRevenue(ExamplePayments) == 150000;
  }

  /** The table shows the placeholder for the trial's missing end date and links
      each row to its organization. */
  lemma ExampleRows(stats: Stats)
    ensures var v := Render(false, true, [ExampleActive, ExampleTrial], stats);
      v.Table? && |v.rows| == 2 && v.rows[1].expires == NoEndDate && v.rows[0].link == "/super-admin/organization/o1"
  {
  }

  /** A super admin sees the statistics and one linked row per organization. */
  method DashboardScenario() {
    var dash := new Dashboard();
    var nav := dash.CheckSuperAdminAccess(Some("u1"), RoleRow(Some("super_admin")), false,
                                          OrgsLoaded([ExampleActive, ExampleTrial]), Some(ExamplePayments));
    assert nav.None?;
    ExampleStats();
    assert dash.stats == Stats(2, 1, 150000, 1);
    ExampleRows(dash.stats);
  }
}
