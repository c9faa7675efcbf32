/** The super admin's view of one organization: loading it with its users and
    subscription history, toggling it active, changing its plan (two writes with
    early exits), and the badge maps and counts the page shows. */
module OrganizationDetail {
  import opened Wrappers

  /** The organization row as the page keeps it. */
  datatype Organization = Organization(
    id: string, name: string, slug: string, status: string, plan: string,
    maxUsers: int, maxProducts: int, maxRiders: int, isActive: bool)

  /** A row of `get_organization_users`; `role` is `user_roles?.role`, absent when
      the user has no role row. */
  datatype OrgUser = OrgUser(id: string, email: string, fullName: string, role: Option<string>)

  /** An active plan offered in the change-plan dialog. */
  datatype AvailablePlan = AvailablePlan(id: string, name: string, priceMonthly: int)

  /** A plan's `id, name, display_name`, as fetched for the history table. */
  datatype PlanInfo = PlanInfo(id: string, name: string, displayName: string)

  /** A `subscription_history` row. */
  datatype HistoryRow = HistoryRow(id: string, startDate: int, endDate: int, amount: int, paymentStatus: string, planId: string)

  /** A history row with its plan; `None` is the `{ name: 'Unknown' }` placeholder. */
  datatype EnrichedRow = EnrichedRow(row: HistoryRow, plan: Option<PlanInfo>)

  /** The answer of an update or insert. */
  datatype WriteResult = WriteOk | WriteError(message: string)

  const ThirtyDays: int := 30 * 24 * 60 * 60 * 1000

  // ---------------------------------------------------------------------------
  // Badges and counts
  // ---------------------------------------------------------------------------

  datatype BadgeVariant = Default | Secondary | Destructive | Outline

  /** `getStatusBadge`: a fixed map, "outline" for any other status. */
  function StatusVariant(status: string): (v: BadgeVariant)
    ensures v == Default <==> status == "active"
    ensures v == Secondary <==> status == "trial"
    ensures v == Destructive <==> status == "expired"
    ensures v == Outline <==> status !in {"active", "trial", "expired"}
  {
    if status == "active" then Default
    else if status == "trial" then Secondary
    else if status == "expired" then Destructive
    else Outline
  }

  /** `getRoleBadge`: gray for any role outside the three known ones. */
  function RoleColor(role: string): (c: string)
    ensures role == "admin" ==> c == "bg-blue-500"
    ensures role == "rider" ==> c == "bg-green-500"
    ensures role == "super_admin" ==> c == "bg-purple-500"
    ensures c == "bg-gray-500" <==> role !in {"admin", "rider", "super_admin"}
  {
    if role == "admin" then "bg-blue-500"
    else if role == "rider" then "bg-green-500"
    else if role == "super_admin" then "bg-purple-500"
    else "bg-gray-500"
  }

  predicate IsRider(u: OrgUser) {
    u.role == Some("rider")
  }

  /** `users.filter(u => u.user_roles?.role === 'rider')`. */
  function Riders(users: seq<OrgUser>): (r: seq<OrgUser>)
    ensures |r| <= |users|
    ensures forall u :: u in r ==> u in users && IsRider(u)
    ensures forall u :: u in users && IsRider(u) ==> u in r
  {
    if users == [] then []
    else (if IsRider(users[0]) then [users[0]] else []) + Riders(users[1..])
  }

  function RiderCount(users: seq<OrgUser>): (n: nat)
    ensures n <= |users|
  {
    |Riders(users)|
  }

  /** The count is additive over a split of the user list. */
  lemma {:induction false} RiderCountAppend(a: seq<OrgUser>, b: seq<OrgUser>)
    ensures RiderCount(a + b) == RiderCount(a) + RiderCount(b)
  {
    if a == [] {
      assert a + b == b;
    } else {
      assert (a + b)[1..] == a[1..] + b;
      RiderCountAppend(a[1..], b);
    }
  }

  /** Users without a role row, and admins, are never counted as riders. */
  lemma {:induction false} RiderCountIgnoresOthers(users: seq<OrgUser>, u: OrgUser)
    requires !IsRider(u)
    ensures RiderCount(users + [u]) == RiderCount(users)
  {
    RiderCountAppend(users, [u]);
    assert [u][1..] == [];
  }

  /** The plan option for the organization's current plan is disabled. */
  function PlanOptionDisabled(plan: AvailablePlan, org: Organization): (disabled: bool)
    ensures disabled <==> plan.name == org.plan
  {
    plan.name == org.plan
  }

  // ---------------------------------------------------------------------------
  // History enrichment
  // ---------------------------------------------------------------------------

  /** `[...new Set(ids)]`: the distinct ids in order of first occurrence. */
  function Distinct(ids: seq<string>): (r: seq<string>)
    ensures forall x :: x in r <==> x in ids
    ensures forall i, j :: 0 <= i < j < |r| ==> r[i] != r[j]
    ensures ids != [] ==> r != [] && r[0] == ids[0]
    ensures |r| <= |ids|
  {
    if ids == [] then []
    else
      var d := Distinct(ids[..|ids| - 1]);
      assert ids[..|ids| - 1] != [] ==> ids[..|ids| - 1][0] == ids[0];
      if ids[|ids| - 1] in d then d else d + [ids[|ids| - 1]]
  }

  function PlanIds(history: seq<HistoryRow>): (ids: seq<string>)
    ensures |ids| == |history| && forall i :: 0 <= i < |history| ==> ids[i] == history[i].planId
  {
    if history == [] then [] else [history[0].planId] + PlanIds(history[1..])
  }

  /** `new Map(plans.map(p => [p.id, p]))`: a later plan with the same id wins. */
  function PlansById(plans: seq<PlanInfo>): (m: map<string, PlanInfo>)
    ensures forall k :: k in m <==> exists p :: p in plans && p.id == k
    ensures forall k :: k in m ==> m[k] in plans && m[k].id == k
    ensures plans != [] ==> m[plans[|plans| - 1].id] == plans[|plans| - 1]
    ensures LastWins(plans, m)
  {
    if plans == [] then map[]
    else
      var init, last := plans[..|plans| - 1], plans[|plans| - 1];
      assert plans == init + [last];
      assert forall p :: p in plans <==> p in init || p == last;
      var m0 := PlansById(init);
      LastWinsExtend(init, last, m0);
      m0[last.id := last]
  }

  /** A plan's entry is its last occurrence: the entry is some plan `i` and no
      later plan has the same id. */
  ghost predicate LastWins(plans: seq<PlanInfo>, m: map<string, PlanInfo>) {
    forall k :: k in m ==>
      exists i :: 0 <= i < |plans| && plans[i] == m[k] && forall j :: i < j < |plans| ==> plans[j].id != k
  }

  /** Appending a plan and storing it under its id keeps the last-wins shape. */
  lemma LastWinsExtend(init: seq<PlanInfo>, last: PlanInfo, m0: map<string, PlanInfo>)
    requires LastWins(init, m0)
    ensures LastWins(init + [last], m0[last.id := last])
  {
    var plans := init + [last];
    var m := m0[last.id := last];
    forall k | k in m
      ensures exists i :: 0 <= i < |plans| && plans[i] == m[k] && forall j :: i < j < |plans| ==> plans[j].id != k
    {
      if k == last.id {
        assert plans[|plans| - 1] == m[k];
      } else {
        var i :| 0 <= i < |init| && init[i] == m0[k] && forall j :: i < j < |init| ==> init[j].id != k;
        assert plans[i] == m[k];
        forall j | i < j < |plans|
          ensures plans[j].id != k
        {
          if j < |init| {
            assert plans[j] == init[j];
          }
        }
      }
    }
  }

  /** Each row gets its plan, or the placeholder when the plan was not returned. */
  function Enrich(history: seq<HistoryRow>, plans: map<string, PlanInfo>): (r: seq<EnrichedRow>)
    ensures |r| == |history|
    ensures forall i :: 0 <= i < |r| ==> r[i].row == history[i]
    ensures forall i :: 0 <= i < |r| ==> (r[i].plan.Some? <==> history[i].planId in plans)
    ensures forall i :: 0 <= i < |r| && r[i].plan.Some? ==> r[i].plan.value == plans[history[i].planId]
  {
    if history == [] then []
    else
      var h := history[0];
      [EnrichedRow(h, if h.planId in plans then Some(plans[h.planId]) else None)] + Enrich(history[1..], plans)
  }

  /** The plan cell: `subscription_plans?.name || 'Unknown'`. */
  function PlanLabel(e: EnrichedRow): (shown: string)
    ensures shown != ""
    ensures e.plan.Some? && e.plan.value.name != "" ==> shown == e.plan.value.name
    ensures !(e.plan.Some? && e.plan.value.name != "") ==> shown == "Unknown"
  {
    if e.plan.Some? && e.plan.value.name != "" then e.plan.value.name else "Unknown"
  }

  // ---------------------------------------------------------------------------
  // The page
  // ---------------------------------------------------------------------------

  /** The row the change-plan dialog inserts: the plan's monthly price, "paid"
      with a payment date for the free plan and "pending" without one otherwise,
      over thirty days from `now`. */
  datatype HistoryInsert = HistoryInsert(
    organizationId: string, planId: string, amount: int, paymentStatus: string,
    paymentDate: Option<int>, startDate: int, endDate: int)

  function PlanChangeEntry(orgId: string, plan: AvailablePlan, newPlan: string, now: int): (h: HistoryInsert)
    ensures h.paymentStatus == "paid" <==> newPlan == "free"
    ensures h.paymentStatus == "pending" <==> newPlan != "free"
    ensures h.paymentDate.Some? <==> newPlan == "free"
    ensures h.paymentDate.Some? ==> h.paymentDate.value == now
    ensures h.startDate == now && h.endDate == now + ThirtyDays
    ensures h.amount == plan.priceMonthly && h.planId == plan.id && h.organizationId == orgId
  {
    var free := newPlan == "free";
    HistoryInsert(orgId, plan.id, plan.priceMonthly, if free then "paid" else "pending",
                  if free then Some(now) else None, now, now + ThirtyDays)
  }

  /** `availablePlans.find(p => p.name === name)`. */
  function FindPlanByName(plans: seq<AvailablePlan>, name: string): (r: Option<AvailablePlan>)
    ensures r.Some? <==> exists i :: 0 <= i < |plans| && plans[i].name == name
    ensures r.Some? ==> r.value in plans && r.value.name == name
    ensures r.Some? ==> exists k :: 0 <= k < |plans| && plans[k] == r.value && forall j :: 0 <= j < k ==> plans[j].name != name
  {
    if plans == [] then None
    else if plans[0].name == name then Some(plans[0])
    else FindPlanByName(plans[1..], name)
  }

  datatype ChangeOutcome = Skipped | PlanNotFound | ChangeFailed(message: string) | PlanChanged

  class OrganizationDetailPage {
    /** The `:id` route parameter, which every write filters on. */
    const routeId: string
    var organization: Option<Organization>
    var users: seq<OrgUser>
    var history: seq<EnrichedRow>
    var availablePlans: seq<AvailablePlan>
    var newPlan: string
    var changePlanOpen: bool

    constructor (id: string)
      ensures routeId == id && organization == None && users == [] && history == []
      ensures availablePlans == [] && newPlan == "" && !changePlanOpen
    {
      routeId := id;
      organization := None;
      users := [];
      history := [];
      availablePlans := [];
      newPlan := "";
      changePlanOpen := false;
    }

    /** `loadAvailablePlans`: the active plans, or nothing on an error. */
    method LoadAvailablePlans(result: Option<seq<AvailablePlan>>)
      modifies this`availablePlans
      ensures availablePlans == if result.Some? then result.value else old(availablePlans)
    {
      if result.Some? {
        availablePlans := result.value;
      }
    }

    /** `loadOrganizationData`. A failed organization query stops everything; a
        failed users query gives no users; a missing history gives none; the
        plans are asked for, by their distinct ids, only when there is history. */
    method LoadOrganizationData(org: Option<Organization>, usersResult: Option<seq<OrgUser>>,
                                historyData: seq<HistoryRow>, plansData: seq<PlanInfo>)
      returns (planQuery: Option<seq<string>>)
      modifies this`organization, this`users, this`history
      ensures org.None? ==> organization == old(organization) && users == old(users) && history == old(history) && planQuery.None?
      ensures org.Some? ==> organization == org
      ensures org.Some? ==> users == if usersResult.Some? then usersResult.value else []
      ensures planQuery.Some? <==> org.Some? && historyData != []
      ensures planQuery.Some? ==> planQuery.value == Distinct(PlanIds(historyData))
      ensures org.Some? ==> history == Enrich(historyData, PlansById(plansData))
    {
      planQuery := None;
      if org.None? {
        return;
      }
      organization := org;
      users := if usersResult.Some? then usersResult.value else [];
      if historyData != [] {
        planQuery := Some(Distinct(PlanIds(historyData)));
        history := Enrich(historyData, PlansById(plansData));
      } else {
        history := [];
      }
    }

    method SelectPlan(name: string)
      modifies this`newPlan, this`changePlanOpen
      ensures newPlan == name && changePlanOpen
    {
      newPlan := name;
      changePlanOpen := true;
    }

    /** `handleToggleStatus`: write the negated flag; only a successful write
        changes the local row, and only its `isActive`. */
    method HandleToggleStatus(result: WriteResult) returns (written: Option<bool>, error: Option<string>)
      modifies this`organization
      ensures old(organization).None? ==> written.None? && error.None? && organization == old(organization)
      ensures old(organization).Some? ==> written == Some(!old(organization).value.isActive)
      ensures old(organization).Some? && result.WriteOk? ==>
        organization == Some(old(organization).value.(isActive := !old(organization).value.isActive)) && error.None?
      ensures result.WriteError? ==> organization == old(organization)
      ensures old(organization).Some? && result.WriteError? ==>
        error == Some(if result.message != "" then result.message else "Failed to update organization status")
    {
      written, error := None, None;
      if organization.None? {
        return;
      }
      var o := organization.value;
      written := Some(!o.isActive);
      match result
      case WriteOk =>
        organization := Some(o.(isActive := !o.isActive));
      case WriteError(message) =>
        error := Some(if message != "" then message else "Failed to update organization status");
    }

    /** `handleChangePlan`: nothing without an organization or a chosen plan; a
        name not among the offered plans stops before any write; a failed plan
        update stops before the history insert; only when both writes succeed is
        the dialog closed and the choice cleared. */
    method HandleChangePlan(now: int, update: WriteResult, insert: WriteResult)
      returns (planWrite: Option<string>, historyWrite: Option<HistoryInsert>, outcome: ChangeOutcome)
      modifies this`newPlan, this`changePlanOpen
      ensures old(organization).None? || old(newPlan) == "" ==> outcome == Skipped && planWrite.None?
      ensures old(organization).Some? && old(newPlan) != "" && FindPlanByName(availablePlans, old(newPlan)).None? ==>
        outcome == PlanNotFound && planWrite.None?
      ensures planWrite.Some? <==>
        organization.Some? && old(newPlan) != "" && FindPlanByName(availablePlans, old(newPlan)).Some?
      ensures planWrite.Some? ==> planWrite.value == old(newPlan)
      ensures historyWrite.Some? <==> planWrite.Some? && update.WriteOk?
      ensures historyWrite.Some? ==>
        historyWrite.value == PlanChangeEntry(routeId, FindPlanByName(availablePlans, old(newPlan)).value, old(newPlan), now)
      ensures outcome == PlanChanged <==> historyWrite.Some? && insert.WriteOk?
      ensures outcome == PlanChanged ==> newPlan == "" && !changePlanOpen
      ensures outcome != PlanChanged ==> newPlan == old(newPlan) && changePlanOpen == old(changePlanOpen)
      ensures planWrite.Some? && update.WriteError? ==>
        outcome == ChangeFailed(if update.message != "" then update.message else "Failed to change plan")
      ensures historyWrite.Some? && insert.WriteError? ==>
        outcome == ChangeFailed(if insert.message != "" then insert.message else "Failed to change plan")
    {
      planWrite, historyWrite := None, None;
      if organization.None? || newPlan == "" {
        outcome := Skipped;
        return;
      }
      var plan := FindPlanByName(availablePlans, newPlan);
      if plan.None? {
        outcome := PlanNotFound;
        return;
      }
      planWrite := Some(newPlan);
      if update.WriteError? {
        outcome := ChangeFailed(if update.message != "" then update.message else "Failed to change plan");
        return;
      }
      historyWrite := Some(PlanChangeEntry(routeId, plan.value, newPlan, now));
      if insert.WriteError? {
        outcome := ChangeFailed(if insert.message != "" then insert.message else "Failed to change plan");
        return;
      }
      outcome := PlanChanged;
      changePlanOpen := false;
      newPlan := "";
    }
  }

  /** Changing to the free plan records a paid, dated entry; a failed update writes no history. */
  method ChangePlanScenario(now: int) {
    var page := new OrganizationDetailPage("o1");
    var planQuery := page.LoadOrganizationData(Some(Organization("o1", "Toko", "toko", "active", "basic", 5, 50, 3, true)),
                                               None, [], []);
    assert planQuery.None? && page.users == [];
    page.LoadAvailablePlans(Some([AvailablePlan("p0", "free", 0), AvailablePlan("p1", "basic", 99000)]));
    page.SelectPlan("free");
    var pw, hw, outcome := page.HandleChangePlan(now, WriteError(""), WriteOk);
    assert hw.None? && outcome == ChangeFailed("Failed to change plan") && page.newPlan == "free";
    pw, hw, outcome := page.HandleChangePlan(now, WriteOk, WriteOk);
    assert hw.value.paymentStatus == "paid" && hw.value.paymentDate == Some(now) && hw.value.amount == 0;
    assert outcome == PlanChanged && page.newPlan == "" && !page.changePlanOpen;
    pw, hw, outcome := page.HandleChangePlan(now, WriteOk, WriteOk);
    assert outcome == Skipped;
  }
}
