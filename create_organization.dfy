/** The super admin's "create organization" form: the slug derived from the name,
    and the check-then-insert sequence that provisions an organization and its
    first subscription-history row. */
module CreateOrganization {
  import opened Wrappers

  // ---------------------------------------------------------------------------
  // Slug generation
  // ---------------------------------------------------------------------------

  /** `toLowerCase` on ASCII letters; every other character is kept. */
  function LowerChar(c: char): (d: char)
    ensures 'A' <= c <= 'Z' ==> d as int == c as int + 32
    ensures !('A' <= c <= 'Z') ==> d == c
  {
    if 'A' <= c <= 'Z' then (c as int + 32) as char else c
  }

  function Lower(s: string): (t: string)
    ensures |t| == |s|
    ensures forall i :: 0 <= i < |s| ==> t[i] == LowerChar(s[i])
  {
    if s == [] then [] else [LowerChar(s[0])] + Lower(s[1..])
  }

  /** The class `[a-z0-9]`. */
  predicate IsSlugChar(c: char) {
    'a' <= c <= 'z' || '0' <= c <= '9'
  }

  predicate InSlugAlphabet(t: string) {
    forall i :: 0 <= i < |t| ==> IsSlugChar(t[i]) || t[i] == '-'
  }

  predicate NoDoubleDash(t: string) {
    forall i :: 0 <= i < |t| - 1 ==> !(t[i] == '-' && t[i + 1] == '-')
  }

  /** A well-formed slug: `[a-z0-9-]` only, no `--`, no dash at either end. */
  predicate IsSlug(t: string) {
    InSlugAlphabet(t) && NoDoubleDash(t) && (t != [] ==> t[0] != '-' && t[|t| - 1] != '-')
  }

  /** The letters and digits of a string, in order. */
  function Alnum(s: string): (t: string)
    ensures forall i :: 0 <= i < |t| ==> IsSlugChar(t[i])
  {
    if s == [] then [] else (if IsSlugChar(s[0]) then [s[0]] else []) + Alnum(s[1..])
  }

  /** Drop one maximal run of characters outside `[a-z0-9]`. */
  function SkipRun(s: string): (t: string)
    ensures |t| <= |s|
    ensures t != [] ==> IsSlugChar(t[0])
    ensures s != [] && !IsSlugChar(s[0]) ==> |t| < |s|
    ensures Alnum(t) == Alnum(s)
  {
    if s == [] || IsSlugChar(s[0]) then s else SkipRun(s[1..])
  }

  /** What `SkipRun` drops is exactly the maximal run outside `[a-z0-9]` at the
      front: the result is a suffix of the input, every dropped character is
      outside the class, and the result starts inside it or is empty. */
  lemma {:induction false} SkipRunDropsOneRun(s: string)
    ensures SkipRun(s) == s[|s| - |SkipRun(s)|..]
    ensures forall i :: 0 <= i < |s| - |SkipRun(s)| ==> !IsSlugChar(s[i])
    decreases |s|
  {
    if s == [] || IsSlugChar(s[0]) {
      assert s[0..] == s;
    } else {
      var t := SkipRun(s[1..]);
      SkipRunDropsOneRun(s[1..]);
      assert s[1..][|s| - 1 - |t|..] == s[|s| - |t|..];
      forall i | 1 <= i < |s| - |t|
        ensures !IsSlugChar(s[i])
      {
        assert s[i] == s[1..][i - 1];
      }
    }
  }

  /** `.replace(/[^a-z0-9]+/g, "-")`: every maximal run outside the class becomes one dash. */
  function Collapse(s: string): (t: string)
    ensures InSlugAlphabet(t) && NoDoubleDash(t)
    ensures s != [] && IsSlugChar(s[0]) ==> t != [] && t[0] == s[0]
    ensures t == [] <==> s == []
    ensures Alnum(t) == Alnum(s)
    decreases |s|
  {
    if s == [] then []
    else if IsSlugChar(s[0]) then [s[0]] + Collapse(s[1..])
    else "-" + Collapse(SkipRun(s))
  }

  /** `.replace(/^-|-$/g, "")`: drop one leading and one trailing dash. */
  function StripDashes(t: string): (u: string)
    requires NoDoubleDash(t)
    ensures |t| - 2 <= |u| <= |t|
    ensures t != [] && t[0] == '-' ==> |u| < |t| && u == t[1..|u| + 1]
    ensures !(t != [] && t[0] == '-') ==> u == t[..|u|]
    ensures u == t[..|u|] ==> forall i :: |u| <= i < |t| ==> t[i] == '-'
    ensures forall i :: |u| + 1 <= i < |t| ==> t[i] == '-'
    ensures u != [] ==> u[0] != '-' && u[|u| - 1] != '-'
  {
    var v := if t != [] && t[0] == '-' then t[1..] else t;
    if v != [] && v[|v| - 1] == '-' then v[..|v| - 1] else v
  }

  /** Skipping a whole run outside `[a-z0-9]` lands on what follows it. */
  lemma {:induction false} SkipRunOfRun(run: string, rest: string)
    requires forall i :: 0 <= i < |run| ==> !IsSlugChar(run[i])
    requires rest == [] || IsSlugChar(rest[0])
    ensures SkipRun(run + rest) == rest
    decreases |run|
  {
    if run == [] {
      assert run + rest == rest;
    } else {
      assert (run + rest)[1..] == run[1..] + rest;
      SkipRunOfRun(run[1..], rest);
    }
  }

  /** `Collapse` keeps a letter or digit in front of the collapse of the rest,
      whatever the rest is. */
  lemma CollapseKeeps(c: char, rest: string)
    requires IsSlugChar(c)
    ensures Collapse([c] + rest) == [c] + Collapse(rest)
  {
    assert ([c] + rest)[1..] == rest;
  }

  /** `Collapse` turns a maximal non-empty run outside the class into exactly
      one dash in front of the collapse of what follows. */
  lemma {:induction false} CollapseSteps(run: string, rest: string)
    requires run != [] && forall i :: 0 <= i < |run| ==> !IsSlugChar(run[i])
    requires rest == [] || IsSlugChar(rest[0])
    ensures Collapse(run + rest) == "-" + Collapse(rest)
  {
    assert (run + rest)[0] == run[0];
    SkipRunOfRun(run, rest);
  }

  /** With both steps, the one-space separator of "a b" becomes one dash. */
  lemma CollapseOfSpacedPair()
    ensures Collapse("a b") == "a-b"
  {
    CollapseKeeps('a', " b");
    assert " b" == " " + "b";
    CollapseSteps(" ", "b");
    assert "b" == ['b'] + [];
    CollapseKeeps('b', []);
  }

  /** `generateSlug`. */
  function GenerateSlug(name: string): (slug: string)
  {
    var c := Collapse(Lower(name));
    StripDashes(c)
  }

  lemma AlnumAppend(a: string, b: string)
    ensures Alnum(a + b) == Alnum(a) + Alnum(b)
  {
    if a == [] {
      assert a + b == b;
    } else {
      assert (a + b)[1..] == a[1..] + b;
    }
  }

  /** Removing the dashes at either end keeps the letters and digits. */
  lemma AlnumOfStripDashes(t: string)
    requires NoDoubleDash(t)
    ensures Alnum(StripDashes(t)) == Alnum(t)
  {
    var v := if t != [] && t[0] == '-' then t[1..] else t;
    if t != [] && t[0] == '-' {
      assert !IsSlugChar(t[0]);
    }
    if v != [] && v[|v| - 1] == '-' {
      assert v == v[..|v| - 1] + [v[|v| - 1]];
      AlnumAppend(v[..|v| - 1], [v[|v| - 1]]);
    }
  }

  /** The slug is well formed, whatever the name. */
  lemma {:induction false} SlugIsWellFormed(name: string)
    ensures IsSlug(GenerateSlug(name))
  {
    var c := Collapse(Lower(name));
    var u := StripDashes(c);
    if u == c[..|u|] {
      assert forall i :: 0 <= i < |u| ==> u[i] == c[i];
    } else {
      assert forall i :: 0 <= i < |u| ==> u[i] == c[i + 1];
    }
  }

  /** The slug keeps exactly the letters and digits of the lower-cased name, in order. */
  lemma {:induction false} SlugKeepsAlnum(name: string)
    ensures Alnum(GenerateSlug(name)) == Alnum(Lower(name))
  {
    AlnumOfStripDashes(Collapse(Lower(name)));
  }

  /** A dash-separated string is its own collapse. */
  lemma {:induction false} CollapseOfSlugBody(t: string)
    requires InSlugAlphabet(t) && NoDoubleDash(t)
    ensures Collapse(t) == t
    decreases |t|
  {
    if t == [] {
    } else if IsSlugChar(t[0]) {
      CollapseOfSlugBody(t[1..]);
      assert t == [t[0]] + t[1..];
    } else {
      assert t[0] == '-';
      assert SkipRun(t) == t[1..] by {
        if |t| > 1 {
          assert t[1..][0] == t[1];
        }
      }
      CollapseOfSlugBody(t[1..]);
      assert t == "-" + t[1..];
    }
  }

  /** A well-formed slug is its own slug. */
  lemma {:induction false} SlugOfSlug(s: string)
    requires IsSlug(s)
    ensures GenerateSlug(s) == s
  {
    assert Lower(s) == s;
    CollapseOfSlugBody(s);
    assert StripDashes(s) == s;
  }

  /** `generateSlug` is idempotent. */
  lemma {:induction false} SlugIdempotent(name: string)
    ensures GenerateSlug(GenerateSlug(name)) == GenerateSlug(name)
  {
    SlugIsWellFormed(name);
    SlugOfSlug(GenerateSlug(name));
  }

  /** Upper case is lowered, and a space and a `!` each become a dash that is then
      dropped or kept as a separator. */
  lemma SlugExample()
    ensures GenerateSlug("A b!") == "a-b"
  {
    LowerExample();
    CollapseExample();
    assert StripDashes("a-b-") == "a-b";
  }

  lemma LowerExample()
    ensures Lower("A b!") == "a b!"
  {
    var t := Lower("A b!");
    assert t[0] == 'a' && t[1] == ' ' && t[2] == 'b' && t[3] == '!';
  }

  lemma CollapseExample()
    ensures Collapse("a b!") == "a-b-"
  {
    CollapseTail();
    assert SkipRun(" b!") == "b!";
    assert Collapse(" b!") == "-b-";
  }

  lemma CollapseTail()
    ensures Collapse("b!") == "b-"
  {
    assert SkipRun("!") == "";
    assert Collapse("!") == "-";
  }

  // ---------------------------------------------------------------------------
  // The form and the submit sequence
  // ---------------------------------------------------------------------------

  /** One row of `subscription_plans` as this form reads it. */
  datatype PlanRow = PlanRow(id: string, name: string, price: int, maxUsers: int, maxProducts: int, maxRiders: int)

  datatype OrganizationForm = OrganizationForm(
    name: string, slug: string, description: string, planId: string, ownerEmail: string, ownerName: string)

  const EmptyOrganizationForm := OrganizationForm("", "", "", "", "", "")

  /** Thirty days in milliseconds. */
  const TrialPeriod: int := 30 * 24 * 60 * 60 * 1000

  /** The row inserted into `organizations`. */
  datatype NewOrganization = NewOrganization(
    name: string, slug: string, description: Option<string>, planId: string, status: string,
    startDate: int, endDate: int, maxUsers: int, maxProducts: int, maxRiders: int, isActive: bool)

  /** The row inserted into `subscription_history`. */
  datatype NewHistory = NewHistory(
    organizationId: string, planId: string, startDate: int, endDate: int, amount: int, paymentStatus: string)

  /** The answer of the organization insert: an error or the new row's id. */
  datatype InsertResult = InsertError(message: string) | Inserted(id: string)

  datatype CreateOutcome =
    | Incomplete(message: string)
    | CreateFailed(message: string)
    | Created(navigateTo: string)

  /** `plans.find(p => p.id === id)`: the first plan with that id. */
  function FindPlan(plans: seq<PlanRow>, id: string): (r: Option<PlanRow>)
    ensures r.Some? <==> exists i :: 0 <= i < |plans| && plans[i].id == id
    ensures r.Some? ==> r.value in plans && r.value.id == id
    ensures r.Some? && plans != [] && plans[0].id == id ==> r.value == plans[0]
    ensures r.Some? ==> exists k :: 0 <= k < |plans| && plans[k] == r.value && forall j :: 0 <= j < k ==> plans[j].id != id
  {
    if plans == [] then None
    else if plans[0].id == id then Some(plans[0])
    else FindPlan(plans[1..], id)
  }

  /** The organization row for a form and its plan: a free plan starts a trial,
      any other plan is active; the window is thirty days from `now`; the caps
      are the plan's; an empty description is stored as null. */
  function OrganizationRow(f: OrganizationForm, plan: PlanRow, now: int): (o: NewOrganization)
    ensures o.status == "trial" <==> plan.name == "Free"
    ensures o.status == "active" <==> plan.name != "Free"
    ensures o.endDate - o.startDate == TrialPeriod && o.startDate == now
    ensures (o.maxUsers, o.maxProducts, o.maxRiders) == (plan.maxUsers, plan.maxProducts, plan.maxRiders)
    ensures o.description.None? <==> f.description == ""
    ensures o.description.Some? ==> o.description.value == f.description
    ensures o.name == f.name && o.slug == f.slug && o.planId == f.planId && o.isActive
  {
    NewOrganization(f.name, f.slug, if f.description == "" then None else Some(f.description), f.planId,
                    if plan.name == "Free" then "trial" else "active", now, now + TrialPeriod,
                    plan.maxUsers, plan.maxProducts, plan.maxRiders, true)
  }

  /** The first history row: the plan's price, "free" for a free plan and
      "pending" otherwise, over the same thirty days. */
  function HistoryRow(orgId: string, f: OrganizationForm, plan: PlanRow, now: int): (h: NewHistory)
    ensures h.paymentStatus == "free" <==> plan.name == "Free"
    ensures h.paymentStatus == "pending" <==> plan.name != "Free"
    ensures h.amount == plan.price && h.organizationId == orgId && h.planId == f.planId
    ensures h.startDate == now && h.endDate == now + TrialPeriod
  {
    NewHistory(orgId, f.planId, now, now + TrialPeriod, plan.price, if plan.name == "Free" then "free" else "pending")
  }

  /** A new organization on the free plan is a trial whose history is marked free. */
  lemma FreePlanStartsTrial(f: OrganizationForm, plan: PlanRow, now: int, orgId: string)
    requires plan.name == "Free"
    ensures OrganizationRow(f, plan, now).status == "trial"
    ensures HistoryRow(orgId, f, plan, now).paymentStatus == "free"
    ensures OrganizationRow(f, plan, now).endDate == HistoryRow(orgId, f, plan, now).endDate
  {
  }

  /** The page's state: the loaded plans and the form. */
  class CreateOrganizationPage {
    var plans: seq<PlanRow>
    var form: OrganizationForm

    constructor (loaded: seq<PlanRow>)
      ensures plans == loaded && form == EmptyOrganizationForm
    {
      plans := loaded;
      form := EmptyOrganizationForm;
    }

    /** `handleNameChange`: the name and its slug change, nothing else. */
    method HandleNameChange(value: string)
      modifies this`form
      ensures form == old(form).(name := value, slug := GenerateSlug(value))
    {
      form := form.(name := value, slug := GenerateSlug(value));
    }

    /** Any other field's `onChange`. */
    method Edit(f: OrganizationForm)
      modifies this`form
      ensures form == f
    {
      form := f;
    }

    /** `handleSubmit`: validate, look up the plan, insert the organization, then
        insert the history row without checking its result. */
    method HandleSubmit(now: int, orgResult: InsertResult)
      returns (org: Option<NewOrganization>, history: Option<NewHistory>, outcome: CreateOutcome)
      ensures form.name == "" || form.planId == "" ==>
        outcome == Incomplete("Please fill in all required fields") && org.None?
      ensures form.name != "" && form.planId != "" && FindPlan(plans, form.planId).None? ==>
        outcome == CreateFailed("Invalid subscription plan") && org.None?
      ensures org.Some? <==> form.name != "" && form.planId != "" && FindPlan(plans, form.planId).Some?
      ensures org.Some? ==> org.value == OrganizationRow(form, FindPlan(plans, form.planId).value, now)
      ensures history.Some? <==> org.Some? && orgResult.Inserted?
      ensures history.Some? ==>
        history.value == HistoryRow(orgResult.id, form, FindPlan(plans, form.planId).value, now)
      ensures outcome.Created? <==> history.Some?
      ensures outcome.Created? ==> outcome.navigateTo == "/super-admin"
      ensures org.Some? && orgResult.InsertError? ==>
        outcome == CreateFailed(if orgResult.message != "" then orgResult.message else "Failed to create organization")
    {
      org, history := None, None;
      if form.name == "" || form.planId == "" {
        outcome := Incomplete("Please fill in all required fields");
        return;
      }
      var plan := FindPlan(plans, form.planId);
      if plan.None? {
        outcome := CreateFailed("Invalid subscription plan");
        return;
      }
      org := Some(OrganizationRow(form, plan.value, now));
      match orgResult
      case InsertError(message) =>
        outcome := CreateFailed(if message != "" then message else "Failed to create organization");
      case Inserted(id) =>
        history := Some(HistoryRow(id, form, plan.value, now));
        outcome := Created("/super-admin");
    }
  }

  /** Typing a name fills the slug; submitting without a plan is rejected, and
      with the free plan chosen the organization starts as a thirty-day trial. */
  method CreateScenario(now: int, name: string)
    requires name != ""
  {
    var page := new CreateOrganizationPage([PlanRow("p1", "Free", 0, 5, 50, 3)]);
    page.HandleNameChange(name);
    var org, history, outcome := page.HandleSubmit(now, Inserted("o1"));
    assert outcome == Incomplete("Please fill in all required fields");
    page.Edit(page.form.(planId := "p1"));
    org, history, outcome := page.HandleSubmit(now, Inserted("o1"));
    assert org.value.status == "trial" && history.value.paymentStatus == "free";
    assert outcome == Created("/super-admin");
    assert org.value.slug == GenerateSlug(name) && org.value.endDate == now + TrialPeriod;
  }
}
