/** The public self-service signup wizard: four steps (business info, plan, admin
    account, confirmation) with per-step validation, the default branding,
    terminology and feature presets it provisions, and the order of the two
    remote calls on submit. */
module Signup {
  import opened Wrappers
  import opened Js

  // ---------------------------------------------------------------------------
  // Validation
  // ---------------------------------------------------------------------------

  /** No white space and no `@`: the class `[^\s@]` of the email pattern. */
  predicate Plain(t: string) {
    forall i :: 0 <= i < |t| ==> !IsSpace(t[i]) && t[i] != '@'
  }

  /** `^[^\s@]+@[^\s@]+\.[^\s@]+$` read literally: a non-empty local part, `@`,
      a non-empty name, a dot, and a non-empty tail, none holding white space or `@`. */
  ghost predicate MatchesEmailPattern(s: string) {
    exists i, j :: 0 < i && i + 1 < j && j + 1 < |s| && s[i] == '@' && s[j] == '.' &&
      Plain(s[..i]) && Plain(s[i + 1..j]) && Plain(s[j + 1..])
  }

  /** The same test computed by scanning: no white space, exactly one `@`, not in
      first position, and a dot strictly inside what follows it. */
  predicate IsEmail(s: string) {
    var at := IndexOf(s, '@');
    && (forall i :: 0 <= i < |s| ==> !IsSpace(s[i]))
    && 0 < at && at + 4 <= |s|
    && '@' !in s[at + 1..]
    && '.' in s[at + 2..|s| - 1]
  }

  lemma {:induction false} IsEmailSound(s: string)
    requires IsEmail(s)
    ensures MatchesEmailPattern(s)
  {
    var i := IndexOf(s, '@');
    var tail := s[i + 2..|s| - 1];
    var k := IndexOf(tail, '.');
    var j := i + 2 + k;
    assert s[j] == '.';
    assert Plain(s[..i]);
    forall m | i + 1 <= m < |s|
      ensures s[m] != '@'
    {
      assert s[m] == s[i + 1..][m - i - 1];
    }
    assert Plain(s[i + 1..j]);
    assert Plain(s[j + 1..]);
  }

  lemma {:induction false} IsEmailComplete(s: string)
    requires MatchesEmailPattern(s)
    ensures IsEmail(s)
  {
    var i, j :| 0 < i && i + 1 < j && j + 1 < |s| && s[i] == '@' && s[j] == '.' &&
      Plain(s[..i]) && Plain(s[i + 1..j]) && Plain(s[j + 1..]);
    PlainParts(s, i, j);
    AtOnlyAt(s, i);
    assert s[j] == s[i + 2..|s| - 1][j - i - 2];
  }

  /** The three plain parts leave no white space and no other `@`. */
  lemma PlainParts(s: string, i: int, j: int)
    requires 0 < i && i + 1 < j && j + 1 < |s| && s[i] == '@' && s[j] == '.'
    requires Plain(s[..i]) && Plain(s[i + 1..j]) && Plain(s[j + 1..])
    ensures forall m :: 0 <= m < |s| ==> !IsSpace(s[m]) && (m != i ==> s[m] != '@')
  {
    forall m | 0 <= m < |s|
      ensures !IsSpace(s[m]) && (m != i ==> s[m] != '@')
    {
      if m < i {
        assert s[m] == s[..i][m];
      } else if i < m < j {
        assert s[m] == s[i + 1..j][m - i - 1];
      } else if j < m {
        assert s[m] == s[j + 1..][m - j - 1];
      }
    }
  }

  /** A string whose only `@` is at `i` finds it there and has none after it. */
  lemma AtOnlyAt(s: string, i: int)
    requires 0 <= i < |s| && s[i] == '@'
    requires forall m :: 0 <= m < |s| && m != i ==> s[m] != '@'
    ensures IndexOf(s, '@') == i && '@' !in s[i + 1..]
  {
  }

  /** The computed test is exactly the regular expression. */
  lemma EmailTestIsPattern(s: string)
    ensures IsEmail(s) <==> MatchesEmailPattern(s)
  {
    if IsEmail(s) {
      IsEmailSound(s);
    }
    if MatchesEmailPattern(s) {
      IsEmailComplete(s);
    }
  }

  /** What the user has typed so far. */
  datatype SignupForm = SignupForm(
    organizationName: string,
    businessType: string,
    email: string,
    phone: string,
    selectedPlan: string,
    fullName: string,
    password: string,
    confirmPassword: string)

  const EmptyForm := SignupForm("", "", "", "", "free", "", "", "")

  const MissingFields := "Mohon lengkapi semua field"
  const BadEmail := "Format email tidak valid"
  const ShortPassword := "Password minimal 6 karakter"
  const PasswordMismatch := "Password tidak cocok"

  /** The validation `handleNext` runs before advancing, with the first message
      it would show. Steps 2 and 4 have no checks. */
  function ValidateStep(step: int, f: SignupForm): (error: Option<string>)
    ensures step != 1 && step != 3 ==> error == None
    ensures step == 1 ==>
      (error.None? <==> f.organizationName != "" && f.businessType != "" && f.email != "" && f.phone != "" && IsEmail(f.email))
    ensures step == 3 ==>
      (error.None? <==> f.fullName != "" && f.password != "" && f.confirmPassword != "" && |f.password| >= 6 && f.password == f.confirmPassword)
    ensures step == 1 && error.Some? ==>
      error.value == if f.organizationName == "" || f.businessType == "" || f.email == "" || f.phone == "" then MissingFields else BadEmail
    ensures step == 3 && error.Some? ==>
      error.value == (if f.fullName == "" || f.password == "" || f.confirmPassword == "" then MissingFields
                      else if |f.password| < 6 then ShortPassword else PasswordMismatch)
  {
    if step == 1 && (f.organizationName == "" || f.businessType == "" || f.email == "" || f.phone == "") then Some(MissingFields)
    else if step == 1 && !IsEmail(f.email) then Some(BadEmail)
    else if step == 3 && (f.fullName == "" || f.password == "" || f.confirmPassword == "") then Some(MissingFields)
    else if step == 3 && |f.password| < 6 then Some(ShortPassword)
    else if step == 3 && f.password != f.confirmPassword then Some(PasswordMismatch)
    else None
  }

  /** Step 1 accepts a well-formed address and rejects one without a dot after the `@`. */
  lemma EmailExamples()
    ensures IsEmail("a@b.id")
    ensures !IsEmail("a@bc")
    ensures !IsEmail("@b.id")
    ensures !IsEmail("a b@c.d")
  {
    EmailAccepted();
    assert !IsEmail("a@bc") by {
      assert IndexOf("a@bc", '@') == 1;
    }
    assert !IsEmail("@b.id") by {
      assert IndexOf("@b.id", '@') == 0;
    }
    assert !IsEmail("a b@c.d") by {
      assert "a b@c.d"[1] == ' ';
    }
  }

  lemma EmailAccepted()
    ensures IsEmail("a@b.id")
  {
    var s := "a@b.id";
    assert IndexOf(s, '@') == 1;
    assert s[2..5][1] == '.';
    assert '@' !in s[2..] by {
      assert s[2..] == "b.id";
    }
  }

  // ---------------------------------------------------------------------------
  // Default presets
  // ---------------------------------------------------------------------------

  /** `getDefaultBranding`: the same object whatever the business type. */
  function DefaultBranding(businessType: string): (b: Json)
    ensures b.JObj? && b.fields.Keys == {"app_name", "primary_color", "secondary_color", "logo_url", "favicon_url"}
    ensures b.fields["app_name"] == JStr("BK POS")
    ensures b.fields["logo_url"] == JNull && b.fields["favicon_url"] == JNull
  {
    JObj(map["app_name" := JStr("BK POS"), "primary_color" := JStr("#3b82f6"),
             "secondary_color" := JStr("#8b5cf6"), "logo_url" := JNull, "favicon_url" := JNull])
  }

  const TerminologyKeys: set<string> := {
    "rider", "warehouse", "pos", "product", "product_plural", "customer", "order",
    "order_plural", "return", "report", "report_plural", "dashboard", "settings",
    "rider_plural", "warehouse_plural", "customer_plural"}

  /** The preset for food businesses. */
  const FoodTerminology: map<string, string> := map[
    "rider" := "Kurir", "warehouse" := "Dapur", "pos" := "Kasir", "product" := "Menu",
    "product_plural" := "Menu", "customer" := "Pelanggan", "order" := "Pesanan",
    "order_plural" := "Pesanan", "return" := "Retur", "report" := "Laporan",
    "report_plural" := "Laporan", "dashboard" := "Dashboard", "settings" := "Pengaturan",
    "rider_plural" := "Kurir", "warehouse_plural" := "Dapur", "customer_plural" := "Pelanggan"]

  /** The preset for every other business type. */
  const GeneralTerminology: map<string, string> := map[
    "rider" := "Rider", "warehouse" := "Gudang", "pos" := "POS", "product" := "Produk",
    "product_plural" := "Produk", "customer" := "Pelanggan", "order" := "Transaksi",
    "order_plural" := "Transaksi", "return" := "Return", "report" := "Laporan",
    "report_plural" := "Laporan", "dashboard" := "Dashboard", "settings" := "Pengaturan",
    "rider_plural" := "Riders", "warehouse_plural" := "Gudang", "customer_plural" := "Pelanggan"]

  /** `getDefaultTerminology`: the food preset exactly for restaurants and cafes;
      both presets name the same sixteen terms. */
  function DefaultTerminology(businessType: string): (t: map<string, string>)
    ensures t.Keys == TerminologyKeys
    ensures t["warehouse"] == "Dapur" <==> businessType == "restaurant" || businessType == "cafe"
    ensures t == FoodTerminology || t == GeneralTerminology
  {
    PresetKeys();
    WarehouseTerms();
    if businessType == "restaurant" || businessType == "cafe" then FoodTerminology else GeneralTerminology
  }

  lemma PresetKeys()
    ensures FoodTerminology.Keys == TerminologyKeys
    ensures GeneralTerminology.Keys == TerminologyKeys
  {
    assert FoodTerminology.Keys == TerminologyKeys;
  }

  lemma WarehouseTerms()
    ensures "warehouse" in FoodTerminology && FoodTerminology["warehouse"] == "Dapur"
    ensures "warehouse" in GeneralTerminology && GeneralTerminology["warehouse"] == "Gudang"
  {
    assert FoodTerminology["warehouse"] == "Dapur";
  }

  const FeatureKeys: set<string> := {
    "pos", "warehouse", "reports", "gps_tracking", "production_tracking", "low_stock_alerts",
    "returns_management", "weather_widget", "advanced_reports", "api_access", "multi_currency",
    "barcode_scanner", "email_notifications", "sms_notifications"}

  const BaseFeatures: map<string, bool> := map[
    "pos" := true, "warehouse" := true, "reports" := true, "gps_tracking" := false,
    "production_tracking" := false, "low_stock_alerts" := true, "returns_management" := true,
    "weather_widget" := false, "advanced_reports" := false, "api_access" := false,
    "multi_currency" := false, "barcode_scanner" := false, "email_notifications" := false,
    "sms_notifications" := false]

  /** `getDefaultFeatures`: the base table with a plan's additions. */
  function DefaultFeatures(plan: string): (m: map<string, bool>)
    ensures m.Keys == FeatureKeys
    ensures plan != "basic" && plan != "pro" && plan != "enterprise" ==> m == BaseFeatures
  {
    if plan == "basic" then
      BaseFeatures["gps_tracking" := true]["email_notifications" := true]
    else if plan == "pro" then
      BaseFeatures["gps_tracking" := true]["production_tracking" := true]["advanced_reports" := true]
                  ["email_notifications" := true]["barcode_scanner" := true]["weather_widget" := true]
    else if plan == "enterprise" then
      map k | k in BaseFeatures :: true
    else BaseFeatures
  }

  /** The features a table switches on. */
  function Enabled(m: map<string, bool>): set<string> {
    set k | k in m && m[k]
  }

  /** Each plan enables everything the cheaper one does, and enterprise enables all. */
  lemma FeaturesGrowWithPlan()
    ensures Enabled(DefaultFeatures("free")) <= Enabled(DefaultFeatures("basic"))
    ensures Enabled(DefaultFeatures("basic")) <= Enabled(DefaultFeatures("pro"))
    ensures Enabled(DefaultFeatures("pro")) <= Enabled(DefaultFeatures("enterprise"))
    ensures Enabled(DefaultFeatures("enterprise")) == FeatureKeys
  {
  }

  /** The concrete "pro" row of the table. */
  lemma ProFeatures()
    ensures DefaultFeatures("pro")["production_tracking"]
    ensures !DefaultFeatures("pro")["multi_currency"]
    ensures !DefaultFeatures("pro")["api_access"]
  {
  }

  // ---------------------------------------------------------------------------
  // Submit
  // ---------------------------------------------------------------------------

  /** `auth.signUp` answers with an error or with data that may lack a user. */
  datatype SignUpResponse = SignUpError(message: string) | SignedUp(user: Option<string>)

  /** The `signup_organization` call answers with an error or an organization id
      (`None` for `null`). */
  datatype RpcResponse = RpcError(message: string) | RpcData(orgId: Option<string>)

  /** The arguments of the `signup_organization` call. */
  datatype ProvisionCall = ProvisionCall(
    organizationName: string,
    subscriptionPlan: string,
    branding: Json,
    terminology: Json,
    features: Json,
    dashboardLayout: Json,
    reportTemplates: Json,
    fullName: string,
    phone: string,
    userId: string)

  datatype SubmitOutcome = Created(orgId: string, navigateTo: string) | Failed(message: string)

  /** The toast shown for a caught error: its message, or the generic one when empty. */
  function ErrorToast(message: string): (t: string)
    ensures t != ""
    ensures message != "" ==> t == message
  {
    if message != "" then message else "Gagal membuat akun"
  }

  /** The provisioning call `handleSubmit` builds for a user id. */
  function ProvisionArgs(f: SignupForm, userId: string): (c: ProvisionCall)
    ensures c.organizationName == f.organizationName && c.subscriptionPlan == f.selectedPlan
    ensures c.fullName == f.fullName && c.phone == f.phone && c.userId == userId
    ensures c.branding == DefaultBranding(f.businessType)
    ensures c.terminology == StrObj(DefaultTerminology(f.businessType))
    ensures c.features == BoolObj(DefaultFeatures(f.selectedPlan))
    ensures c.dashboardLayout == JObj(map[]) && c.reportTemplates == JObj(map[])
  {
    ProvisionCall(f.organizationName, f.selectedPlan, DefaultBranding(f.businessType),
                  StrObj(DefaultTerminology(f.businessType)),
                  BoolObj(DefaultFeatures(f.selectedPlan)), JObj(map[]), JObj(map[]),
                  f.fullName, f.phone, userId)
  }

  /** What the settings reader relies on in a provisioning call: a terminology
      object naming the sixteen preset terms and an empty dashboard layout. */
  predicate ProvisionedShape(c: ProvisionCall) {
    && c.terminology.JObj?
    && c.terminology.fields.Keys == TerminologyKeys
    && c.dashboardLayout == JObj(map[])
  }

  lemma ProvisionArgsShape(f: SignupForm, userId: string)
    ensures ProvisionedShape(ProvisionArgs(f, userId))
  {
    var t := DefaultTerminology(f.businessType);
    assert t.Keys == TerminologyKeys;
  }

  /** The wizard's state: the current step and the form fields. */
  class SignupWizard {
    var step: int
    var form: SignupForm

    constructor ()
      ensures step == 1 && form == EmptyForm
    {
      step := 1;
      form := EmptyForm;
    }

    /** `handleNext`: advance by one step when the current step validates. */
    method HandleNext() returns (error: Option<string>)
      modifies this`step
      ensures error == ValidateStep(old(step), form)
      ensures step == if error.None? then old(step) + 1 else old(step)
    {
      error := ValidateStep(step, form);
      if error.None? {
        step := step + 1;
      }
    }

    /** `handleBack`. */
    method HandleBack()
      modifies this`step
      ensures step == old(step) - 1
    {
      step := step - 1;
    }

    /** One keystroke or selection in any field. */
    method Edit(f: SignupForm)
      modifies this`form
      ensures form == f
    {
      form := f;
    }

    /** `handleSubmit`: create the account first; only a user returned without an
        error is provisioned; success needs the procedure to answer without an
        error and with an organization id. The wizard's state is not changed. */
    method HandleSubmit(signUp: SignUpResponse, rpc: RpcResponse)
      returns (call: Option<ProvisionCall>, outcome: SubmitOutcome)
      ensures call.Some? <==> signUp.SignedUp? && signUp.user.Some?
      ensures call.Some? ==> call.value == ProvisionArgs(form, signUp.user.value)
      ensures outcome.Created? <==> call.Some? && rpc.RpcData? && rpc.orgId.Some? && rpc.orgId.value != ""
      ensures outcome.Created? ==> outcome == Created(rpc.orgId.value, "/dashboard")
      ensures signUp.SignUpError? ==> outcome == Failed(ErrorToast(signUp.message))
      ensures signUp == SignedUp(None) ==> outcome == Failed("Failed to create user")
      ensures call.Some? && rpc.RpcError? ==>
        outcome == Failed(if rpc.message != "" then rpc.message else "Failed to create organization")
      ensures call.Some? && rpc.RpcData? && (rpc.orgId.None? || rpc.orgId.value == "") ==>
        outcome == Failed("Failed to get organization ID")
    {
      call := None;
      if signUp.SignUpError? {
        outcome := Failed(ErrorToast(signUp.message));
        return;
      }
      if signUp.user.None? {
        outcome := Failed("Failed to create user");
        return;
      }
      call := Some(ProvisionArgs(form, signUp.user.value));
      if rpc.RpcError? {
        outcome := Failed(ErrorToast(if rpc.message != "" then rpc.message else "Failed to create organization"));
        return;
      }
      if rpc.orgId.None? || rpc.orgId.value == "" {
        outcome := Failed("Failed to get organization ID");
        return;
      }
      outcome := Created(rpc.orgId.value, "/dashboard");
    }
  }

  /** Walking the wizard forward with valid input reaches the confirmation step. */
  method WizardScenario(f: SignupForm)
    requires f.organizationName != "" && f.businessType != "" && f.phone != "" && IsEmail(f.email)
    requires f.fullName != "" && |f.password| >= 6 && f.confirmPassword == f.password
  {
    var w := new SignupWizard();
    w.Edit(f);
    var e := w.HandleNext();
    assert e.None? && w.step == 2;
    e := w.HandleNext();
    assert w.step == 3;
    e := w.HandleNext();
    assert e.None? && w.step == 4;
  }

  /** On the account step a short password keeps the wizard where it is. */
  method ShortPasswordScenario(f: SignupForm)
    requires f.fullName != "" && f.password == "abc" && f.confirmPassword == "abc"
  {
    var w := new SignupWizard();
    w.Edit(f);
    w.step := 3;
    var e := w.HandleNext();
    assert e == Some(ShortPassword) && w.step == 3;
  }
}
