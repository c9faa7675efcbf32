/** The super admin's plan editor: the features list edited as one line per
    feature, the numeric fallbacks of the limit inputs, the edit and save
    handlers, and the shortened feature list on each plan card. */
module SubscriptionPlans {
  import opened Wrappers
  import opened Js

  /** A `subscription_plans` row. Prices are whole rupiah here. */
  datatype Plan = Plan(
    id: string, name: string, displayName: string, priceMonthly: int, priceYearly: int,
    maxUsers: int, maxProducts: int, maxRiders: int, features: Option<seq<string>>, isActive: bool)

  /** The edit dialog's form: the features as one text. */
  datatype EditForm = EditForm(
    displayName: string, priceMonthly: int, priceYearly: int,
    maxUsers: int, maxProducts: int, maxRiders: int, features: string, isActive: bool)

  const InitialForm := EditForm("", 0, 0, 0, 0, 0, "", true)

  /** The columns `handleSave` writes. */
  datatype PlanUpdate = PlanUpdate(
    displayName: string, priceMonthly: int, priceYearly: int,
    maxUsers: int, maxProducts: int, maxRiders: int, features: seq<string>, isActive: bool)

  /** A feature as it is stored: non-empty, trimmed, on one line. */
  predicate IsFeatureLine(f: string) {
    f != "" && IsTrimmed(f) && '\n' !in f
  }

  function DropEmpty(parts: seq<string>): (r: seq<string>)
    ensures |r| <= |parts|
    ensures forall f :: f in r <==> f in parts && f != ""
  {
    if parts == [] then [] else (if parts[0] == "" then [] else [parts[0]]) + DropEmpty(parts[1..])
  }

  /** `text.split("\n").map(f => f.trim()).filter(f => f.length > 0)`. */
  function ParseFeatures(text: string): (fs: seq<string>)
    ensures forall f :: f in fs ==> IsFeatureLine(f)
  {
    var pieces := Split(text, '\n');
    TrimKeepsSeparatorOut(pieces, '\n');
    DropEmpty(TrimAll(pieces))
  }

  /** `plan.features ? plan.features.join("\n") : ""`. */
  function FeaturesText(features: Option<seq<string>>): (text: string)
    ensures features.None? ==> text == ""
  {
    if features.Some? then Join(features.value, '\n') else ""
  }

  lemma {:induction false} DropEmptyOfNonEmpty(parts: seq<string>)
    requires forall i :: 0 <= i < |parts| ==> parts[i] != ""
    ensures DropEmpty(parts) == parts
  {
    if parts != [] {
      DropEmptyOfNonEmpty(parts[1..]);
    }
  }

  /** Showing a stored list in the form and saving it unchanged gives the same
      list back. */
  lemma {:induction false} ParseJoin(fs: seq<string>)
    requires forall i :: 0 <= i < |fs| ==> IsFeatureLine(fs[i])
    ensures ParseFeatures(Join(fs, '\n')) == fs
  {
    if fs == [] {
      assert Split("", '\n') == [""];
      assert TrimAll([""]) == [""];
      assert DropEmpty([""]) == [];
    } else {
      SplitJoin(fs, '\n');
      TrimAllOfTrimmed(fs);
      DropEmptyOfNonEmpty(fs);
    }
  }

  /** Saving is idempotent: re-opening a saved list and saving again changes nothing. */
  lemma {:induction false} ParseFeaturesIdempotent(text: string)
    ensures ParseFeatures(Join(ParseFeatures(text), '\n')) == ParseFeatures(text)
  {
    var fs := ParseFeatures(text);
    assert forall i :: 0 <= i < |fs| ==> fs[i] in fs;
    ParseJoin(fs);
  }

  /** A plan without a features list is saved with an empty one. */
  lemma NullFeaturesSaveEmpty()
    ensures ParseFeatures(FeaturesText(None)) == []
  {
    assert Split("", '\n') == [""];
    assert TrimAll([""]) == [""];
  }

  /** Blank lines and surrounding white space are dropped. */
  lemma ParseExample()
    ensures ParseFeatures(" a\n ") == ["a"]
  {
    SplitExample();
    TrimExample();
    assert DropEmpty(["a", ""]) == ["a"];
  }

  lemma SplitExample()
    ensures Split(" a\n ", '\n') == [" a", " "]
  {
    SplitOther(' ', "", '\n');
    assert [' '] + "" == " ";
    assert Split(" ", '\n') == [" "];
    SplitAtSeparator(" ", '\n');
    assert ['\n'] + " " == "\n ";
    assert Split("\n ", '\n') == ["", " "];
    SplitOther('a', "\n ", '\n');
    assert ['a'] + "\n " == "a\n ";
    assert ['a'] + "" == "a";
    assert Split("a\n ", '\n') == ["a", " "];
    SplitOther(' ', "a\n ", '\n');
    assert [' '] + "a\n " == " a\n ";
    assert [' '] + "a" == " a";
  }

  lemma TrimExample()
    ensures TrimAll([" a", " "]) == ["a", ""]
  {
    assert Trim(" a") == "a" by {
      assert TrimStart(" a") == "a";
    }
    assert Trim(" ") == "" by {
      assert TrimStart(" ") == "";
    }
  }

  /** `parseInt(v) || 1` of the three limit inputs: an unparsable input and 0
      both store 1. */
  function LimitInput(v: string): (n: int)
    ensures n != 0
    ensures ParseInt(v).None? || ParseInt(v) == Some(0) ==> n == 1
    ensures ParseInt(v).Some? && ParseInt(v).value != 0 ==> n == ParseInt(v).value
  {
    var p := ParseInt(v);
    if p.None? || p.value == 0 then 1 else p.value
  }

  /** So a limit of 0 cannot be entered; every other number is kept. */
  lemma LimitInputOfNumber(n: int)
    ensures LimitInput(Show(n)) == if n == 0 then 1 else n
  {
    ParseShow(n);
  }

  /** The feature block of a plan card. */
  datatype FeatureCard = NoFeatureList | FeatureList(first: seq<string>, more: Option<nat>)

  /** At most the first three features, then "+N more" exactly when there are more than three. */
  function CardFeatures(features: Option<seq<string>>): (c: FeatureCard)
    ensures c.NoFeatureList? <==> features.None? || features.value == []
    ensures c.FeatureList? ==> c.first <= features.value && |c.first| == if |features.value| < 3 then |features.value| else 3
    ensures c.FeatureList? ==> (c.more.Some? <==> |features.value| > 3)
    ensures c.FeatureList? && c.more.Some? ==> c.more.value + |c.first| == |features.value|
  {
    if features.None? || features.value == [] then NoFeatureList
    else
      var fs := features.value;
      FeatureList(if |fs| < 3 then fs else fs[..3], if |fs| > 3 then Some(|fs| - 3) else None)
  }

  /** The form `handleEdit` fills in from a plan. */
  function FormOf(p: Plan): (f: EditForm)
    ensures f.features == FeaturesText(p.features)
  {
    EditForm(p.displayName, p.priceMonthly, p.priceYearly, p.maxUsers, p.maxProducts, p.maxRiders,
             FeaturesText(p.features), p.isActive)
  }

  /** The columns saved from a form. */
  function UpdateOf(f: EditForm): (u: PlanUpdate)
    ensures u.features == ParseFeatures(f.features)
  {
    PlanUpdate(f.displayName, f.priceMonthly, f.priceYearly, f.maxUsers, f.maxProducts, f.maxRiders,
               ParseFeatures(f.features), f.isActive)
  }

  /** Opening a plan and saving without edits writes the plan's own values; a
      null features list becomes an empty one. */
  lemma {:induction false} EditSaveRoundTrip(p: Plan)
    requires p.features.Some? ==> forall i :: 0 <= i < |p.features.value| ==> IsFeatureLine(p.features.value[i])
    ensures UpdateOf(FormOf(p)) == PlanUpdate(p.displayName, p.priceMonthly, p.priceYearly, p.maxUsers,
                                              p.maxProducts, p.maxRiders, p.features.GetOr([]), p.isActive)
  {
    if p.features.Some? {
      ParseJoin(p.features.value);
    } else {
      NullFeaturesSaveEmpty();
    }
  }

  /** The update `handleSave` sends: the columns and the row they go to. */
  datatype PlanWrite = PlanWrite(planId: string, update: PlanUpdate)

  datatype SaveNotice = NotSaved | PlanSaved | SaveFailed(message: string)

  class PlanManager {
    var plans: seq<Plan>
    var selectedPlan: Option<Plan>
    var form: EditForm
    var editDialogOpen: bool

    constructor ()
      ensures plans == [] && selectedPlan.None? && form == InitialForm && !editDialogOpen
    {
      plans := [];
      selectedPlan := None;
      form := InitialForm;
      editDialogOpen := false;
    }

    /** `fetchPlans`: the rows, or the old list on an error. */
    method FetchPlans(result: Option<seq<Plan>>)
      modifies this`plans
      ensures plans == if result.Some? then result.value else old(plans)
    {
      if result.Some? {
        plans := result.value;
      }
    }

    /** `handleEdit`: select the plan, copy every field into the form, open the dialog. */
    method HandleEdit(p: Plan)
      modifies this`selectedPlan, this`form, this`editDialogOpen
      ensures selectedPlan == Some(p) && form == FormOf(p) && editDialogOpen
    {
      selectedPlan := Some(p);
      form := FormOf(p);
      editDialogOpen := true;
    }

    /** A field's `onChange`; the limit fields go through `LimitInput`. */
    method SetForm(f: EditForm)
      modifies this`form
      ensures form == f
    {
      form := f;
    }

    /** `handleSave`: nothing without a selected plan; otherwise the parsed form
        is written to the selected plan's id, and a successful write closes the
        dialog. */
    method HandleSave(error: Option<string>) returns (write: Option<PlanWrite>, notice: SaveNotice)
      modifies this`editDialogOpen
      ensures old(selectedPlan).None? ==> write.None? && notice == NotSaved && editDialogOpen == old(editDialogOpen)
      ensures selectedPlan.Some? ==> write == Some(PlanWrite(selectedPlan.value.id, UpdateOf(form)))
      ensures selectedPlan.Some? && error.None? ==> notice == PlanSaved && !editDialogOpen
      ensures selectedPlan.Some? && error.Some? ==>
        notice == SaveFailed(if error.value != "" then error.value else "Failed to update subscription plan")
        && editDialogOpen == old(editDialogOpen)
    {
      if selectedPlan.None? {
        write, notice := None, NotSaved;
        return;
      }
      write := Some(PlanWrite(selectedPlan.value.id, UpdateOf(form)));
      if error.None? {
        notice := PlanSaved;
        editDialogOpen := false;
      } else {
        notice := SaveFailed(if error.value != "" then error.value else "Failed to update subscription plan");
      }
    }
  }

  /** Saving before any plan is chosen writes nothing; after choosing one, the
      write goes to its id. */
  method SaveScenario() {
    var m := new PlanManager();
    var w, n := m.HandleSave(None);
    assert w.None? && n == NotSaved;
    var p := Plan("p1", "basic", "Basic", 99000, 990000, 25, 200, 10, None, true);
    m.HandleEdit(p);
    NullFeaturesSaveEmpty();
    w, n := m.HandleSave(None);
    assert w == Some(PlanWrite("p1", PlanUpdate("Basic", 99000, 990000, 25, 200, 10, [], true)));
    assert !m.editDialogOpen;
  }
}
