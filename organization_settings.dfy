/** The super admin's per-organization settings editor: loading the five
    free-form sections with their fallbacks, the single-key updaters, the
    widget, chart and report-section check lists, the numeric fallbacks of the
    inputs, saving, and the feature descriptions. */
module OrganizationSettings {
  import opened Wrappers
  import opened Js
  import Signup

  /** The five editable sections, each free-form JSON. */
  datatype EditableSettings = EditableSettings(
    branding: Json, terminology: Json, features: Json, dashboardLayout: Json, reportTemplates: Json)

  const EmptyObject: Json := JObj(map[])

  /** The initial state: every section `{}`. */
  const EmptySettings := EditableSettings(EmptyObject, EmptyObject, EmptyObject, EmptyObject, EmptyObject)

  datatype Section = Branding | Terminology | Features | DashboardLayout | ReportTemplates

  function SectionOf(s: EditableSettings, sec: Section): Json {
    match sec
    case Branding => s.branding
    case Terminology => s.terminology
    case Features => s.features
    case DashboardLayout => s.dashboardLayout
    case ReportTemplates => s.reportTemplates
  }

  function WithSection(s: EditableSettings, sec: Section, v: Json): (r: EditableSettings)
    ensures SectionOf(r, sec) == v
    ensures forall o :: o != sec ==> SectionOf(r, o) == SectionOf(s, o)
  {
    match sec
    case Branding => s.(branding := v)
    case Terminology => s.(terminology := v)
    case Features => s.(features := v)
    case DashboardLayout => s.(dashboardLayout := v)
    case ReportTemplates => s.(reportTemplates := v)
  }

  /** `{ ...obj, [key]: value }`. */
  function SetKey(obj: Option<Json>, key: string, value: Json): (r: Json)
    ensures r.JObj? && key in r.fields && r.fields[key] == value
    ensures r.fields.Keys == Spread(obj).Keys + {key}
    ensures forall k :: k in Spread(obj) && k != key ==> r.fields[k] == Spread(obj)[k]
  {
    JObj(Spread(obj)[key := value])
  }

  /** `updateBranding`, `updateTerminology`, `updateFeature` and
      `updateDashboardLayout`: one key of one section is set, every other key of
      that section and every other section is kept. */
  function Update(s: EditableSettings, sec: Section, key: string, value: Json): (r: EditableSettings)
    ensures SectionOf(r, sec).JObj? && key in SectionOf(r, sec).fields && SectionOf(r, sec).fields[key] == value
    ensures SectionOf(r, sec).fields.Keys == Spread(Some(SectionOf(s, sec))).Keys + {key}
    ensures forall k :: k in Spread(Some(SectionOf(s, sec))) && k != key ==>
      SectionOf(r, sec).fields[k] == Spread(Some(SectionOf(s, sec)))[k]
    ensures forall o :: o != sec ==> SectionOf(r, o) == SectionOf(s, o)
  {
    WithSection(s, sec, SetKey(Some(SectionOf(s, sec)), key, value))
  }

  /** `updateReportTemplate`: one key of one report is set; the report's other
      keys, every other report and every other section are kept. */
  function UpdateReport(s: EditableSettings, report: string, key: string, value: Json): (r: EditableSettings)
    ensures r == s.(reportTemplates := r.reportTemplates)
    ensures r.reportTemplates.JObj? && report in r.reportTemplates.fields
    ensures r.reportTemplates.fields.Keys == Spread(Some(s.reportTemplates)).Keys + {report}
    ensures forall k :: k in Spread(Some(s.reportTemplates)) && k != report ==>
      r.reportTemplates.fields[k] == Spread(Some(s.reportTemplates))[k]
    ensures var t := r.reportTemplates.fields[report];
      var before := Spread(Get(Some(s.reportTemplates), report));
      && t.JObj? && key in t.fields && t.fields[key] == value
      && t.fields.Keys == before.Keys + {key}
      && forall k :: k in before && k != key ==> t.fields[k] == before[k]
  {
    s.(reportTemplates := SetKey(Some(s.reportTemplates), report,
                                 SetKey(Get(Some(s.reportTemplates), report), key, value)))
  }

  // ---------------------------------------------------------------------------
  // Check lists
  // ---------------------------------------------------------------------------

  /** `list.filter(x => x !== e)`. */
  function RemoveAll(l: seq<Json>, e: Json): (r: seq<Json>)
    ensures forall x :: x in r <==> x in l && x != e
    ensures |r| <= |l|
  {
    if l == [] then [] else (if l[0] == e then [] else [l[0]]) + RemoveAll(l[1..], e)
  }

  /** The filter works element by element: it distributes over concatenation,
      so the kept elements stay in their order. */
  lemma {:induction false} RemoveAllAppend(a: seq<Json>, b: seq<Json>, e: Json)
    ensures RemoveAll(a + b, e) == RemoveAll(a, e) + RemoveAll(b, e)
  {
    if a == [] {
      assert a + b == b;
    } else {
      assert (a + b)[1..] == a[1..] + b;
      RemoveAllAppend(a[1..], b, e);
    }
  }

  lemma RemoveAllSingle(x: Json, e: Json)
    ensures RemoveAll([x], e) == if x == e then [] else [x]
  {
    assert [x][1..] == [];
  }

  /** Checking appends the key; unchecking removes every copy of it. */
  function Toggle(current: seq<Json>, key: string, checked: bool): (r: seq<Json>)
    ensures forall e :: e in r <==> if e == JStr(key) then checked else e in current
    ensures checked ==> r == current + [JStr(key)]
  {
    if checked then current + [JStr(key)] else RemoveAll(current, JStr(key))
  }

  function Strs(l: seq<string>): (r: seq<Json>)
    ensures |r| == |l|
    ensures forall i :: 0 <= i < |l| ==> r[i] == JStr(l[i])
    ensures forall x :: JStr(x) in r <==> x in l
  {
    var r := seq(|l|, i requires 0 <= i < |l| => JStr(l[i]));
    StrsMembers(l, r);
    r
  }

  lemma StrsMembers(l: seq<string>, r: seq<Json>)
    requires |r| == |l| && forall i :: 0 <= i < |l| ==> r[i] == JStr(l[i])
    ensures forall x :: JStr(x) in r <==> x in l
  {
    forall x | JStr(x) in r
      ensures x in l
    {
      var i :| 0 <= i < |r| && r[i] == JStr(x);
      assert l[i] == x;
    }
    forall x | x in l
      ensures JStr(x) in r
    {
      var i :| 0 <= i < |l| && l[i] == x;
      assert r[i] == JStr(x);
    }
  }

  /** `layout[listKey] || []` for the widget and chart lists. */
  function CurrentList(layout: Json, listKey: string): (items: seq<Json>)
    ensures Get(Some(layout), listKey).Some? && Get(Some(layout), listKey).value.JArr? ==>
      items == Get(Some(layout), listKey).value.items
  {
    var v := Get(Some(layout), listKey);
    if v.Some? && v.value.JArr? then v.value.items else []
  }

  /** `layout[listKey]?.includes(key) || false`: whether the box is ticked. */
  predicate Listed(layout: Json, listKey: string, key: string) {
    var v := Get(Some(layout), listKey);
    v.Some? && v.value.JArr? && JStr(key) in v.value.items
  }

  /** A widget or chart checkbox change: only the one list of the dashboard
      layout is rewritten; the layout's other keys and every other section are
      kept. */
  function ToggleListed(s: EditableSettings, listKey: string, key: string, checked: bool): (r: EditableSettings)
    ensures forall o :: o != DashboardLayout ==> SectionOf(r, o) == SectionOf(s, o)
    ensures r.dashboardLayout.JObj? && listKey in r.dashboardLayout.fields
    ensures r.dashboardLayout.fields.Keys == Spread(Some(s.dashboardLayout)).Keys + {listKey}
    ensures forall k :: k in Spread(Some(s.dashboardLayout)) && k != listKey ==>
      r.dashboardLayout.fields[k] == Spread(Some(s.dashboardLayout))[k]
  {
    Update(s, DashboardLayout, listKey, JArr(Toggle(CurrentList(s.dashboardLayout, listKey), key, checked)))
  }

  /** After a change the box shows the new value, and every other box of the
      same list shows what it showed before. */
  lemma {:induction false} ToggleListedShows(s: EditableSettings, listKey: string, key: string, checked: bool, other: string)
    requires other != key
    ensures Listed(ToggleListed(s, listKey, key, checked).dashboardLayout, listKey, key) == checked
    ensures Listed(ToggleListed(s, listKey, key, checked).dashboardLayout, listKey, other) ==
            Listed(s.dashboardLayout, listKey, other)
  {
    var cur := CurrentList(s.dashboardLayout, listKey);
    var r := ToggleListed(s, listKey, key, checked);
    var newList := Toggle(cur, key, checked);
    assert Get(Some(r.dashboardLayout), listKey) == Some(JArr(newList));
    assert JStr(other) in cur <==> Listed(s.dashboardLayout, listKey, other);
  }

  // ---------------------------------------------------------------------------
  // Report templates
  // ---------------------------------------------------------------------------

  const ReportKinds: set<string> := {"sales_report", "stock_report", "rider_report", "financial_report"}

  /** The four section checkboxes each report offers. */
  function ReportOptions(report: string): (options: seq<string>)
    ensures report in ReportKinds ==> |options| == 4
  {
    if report == "sales_report" then ["summary", "by_product", "by_rider", "by_payment_method"]
    else if report == "stock_report" then ["current_stock", "low_stock_alerts", "stock_movement", "expiry_tracking"]
    else if report == "rider_report" then ["delivery_summary", "gps_routes", "performance_metrics", "attendance"]
    else if report == "financial_report" then ["revenue", "expenses", "profit_loss", "tax_summary"]
    else []
  }

  /** A report's `sections` list, when it holds one. */
  function SectionsOf(templates: Json, report: string): (l: Option<seq<Json>>)
  {
    var v := Get(Get(Some(templates), report), "sections");
    if v.Some? && v.value.JArr? then Some(v.value.items) else None
  }

  /** `templates[report]?.sections?.includes(option) ?? true`: an unset list
      shows every section ticked. */
  predicate SectionShown(templates: Json, report: string, option: string) {
    var l := SectionsOf(templates, report);
    l.None? || JStr(option) in l.value
  }

  /** `templates[report]?.enabled ?? true`. */
  predicate ReportEnabled(templates: Json, report: string) {
    Truthy(Nullish(Get(Get(Some(templates), report), "enabled"), JBool(true)))
  }

  /** `r` differs from `s` only in the key `key` of the report `report`: every
      other section, every other report and the report's other keys are kept. */
  predicate OnlyReportKeyChanged(s: EditableSettings, r: EditableSettings, report: string, key: string) {
    && r == s.(reportTemplates := r.reportTemplates)
    && r.reportTemplates.JObj? && report in r.reportTemplates.fields
    && r.reportTemplates.fields.Keys == Spread(Some(s.reportTemplates)).Keys + {report}
    && (forall k :: k in Spread(Some(s.reportTemplates)) && k != report ==>
          r.reportTemplates.fields[k] == Spread(Some(s.reportTemplates))[k])
    && var t := r.reportTemplates.fields[report];
       var before := Spread(Get(Some(s.reportTemplates), report));
       && t.JObj? && key in t.fields
       && t.fields.Keys == before.Keys + {key}
       && forall k :: k in before && k != key ==> t.fields[k] == before[k]
  }

  /** A section checkbox change, starting from `defaults` when the list is unset. */
  function ToggleSectionFrom(s: EditableSettings, report: string, option: string, checked: bool,
                             defaults: seq<string>): (r: EditableSettings)
    ensures OnlyReportKeyChanged(s, r, report, "sections")
    ensures SectionsOf(r.reportTemplates, report) ==
      Some(Toggle(if SectionsOf(s.reportTemplates, report).Some? then SectionsOf(s.reportTemplates, report).value
                  else Strs(defaults), option, checked))
  {
    var l := SectionsOf(s.reportTemplates, report);
    var current := if l.Some? then l.value else Strs(defaults);
    UpdateReport(s, report, "sections", JArr(Toggle(current, option, checked)))
  }

  /** The lists the page starts from when unticking a box of an unset list, as
      written: the sales list has all four options, the other three lists only
      their first three. */
  function DefaultSectionsAsWritten(report: string): (defaults: seq<string>)
    ensures report == "sales_report" ==> defaults == ReportOptions(report)
    ensures report in {"stock_report", "rider_report", "financial_report"} ==>
      defaults == ReportOptions(report)[..3]
  {
    if report == "sales_report" then ["summary", "by_product", "by_rider", "by_payment_method"]
    else if report == "stock_report" then ["current_stock", "low_stock_alerts", "stock_movement"]
    else if report == "rider_report" then ["delivery_summary", "gps_routes", "performance_metrics"]
    else if report == "financial_report" then ["revenue", "expenses", "profit_loss"]
    else []
  }

  /** The section checkbox handler as written. */
  function ToggleSectionAsWritten(s: EditableSettings, report: string, option: string, checked: bool): (r: EditableSettings)
    ensures OnlyReportKeyChanged(s, r, report, "sections")
  {
    ToggleSectionFrom(s, report, option, checked, DefaultSectionsAsWritten(report))
  }

  /** As written, unticking "current stock" on a fresh stock report also unticks
      "expiry tracking", which was shown ticked and was not touched. */
  lemma StockUncheckDropsExpiry()
    ensures SectionShown(EmptySettings.reportTemplates, "stock_report", "expiry_tracking")
    ensures !SectionShown(ToggleSectionAsWritten(EmptySettings, "stock_report", "current_stock", false).reportTemplates,
                          "stock_report", "expiry_tracking")
  {
    var defaults := DefaultSectionsAsWritten("stock_report");
    assert SectionsOf(EmptySettings.reportTemplates, "stock_report").None?;
    var after := ToggleSectionAsWritten(EmptySettings, "stock_report", "current_stock", false);
    assert SectionsOf(after.reportTemplates, "stock_report") == Some(Toggle(Strs(defaults), "current_stock", false));
    ExpiryNotInStockDefaults();
  }

  /** The list written for an unset stock report lacks "expiry tracking", and
      unticking "current stock" does not bring it in. */
  lemma ExpiryNotInStockDefaults()
    ensures JStr("expiry_tracking") !in Toggle(Strs(DefaultSectionsAsWritten("stock_report")), "current_stock", false)
  {
    var defaults := DefaultSectionsAsWritten("stock_report");
    assert "expiry_tracking" !in defaults;
    assert JStr("expiry_tracking") !in Strs(defaults);
  }

  /** The corrected handler: an unset list starts from every option the report
      shows ticked. */
  function ToggleSection(s: EditableSettings, report: string, option: string, checked: bool): (r: EditableSettings)
    ensures OnlyReportKeyChanged(s, r, report, "sections")
  {
    ToggleSectionFrom(s, report, option, checked, ReportOptions(report))
  }

  /** With the correction, a change to one section checkbox shows the new value
      there and leaves what every other box of the report shows unchanged. */
  lemma {:induction false} ToggleSectionIndependent(s: EditableSettings, report: string, option: string,
                                                    checked: bool, other: string)
    requires other in ReportOptions(report)
    ensures SectionShown(ToggleSection(s, report, option, checked).reportTemplates, report, other) ==
      if other == option then checked else SectionShown(s.reportTemplates, report, other)
  {
    var l := SectionsOf(s.reportTemplates, report);
    assert JStr(other) in Strs(ReportOptions(report));
  }

  /** For the sales report the written and the corrected handler coincide. */
  lemma SalesHandlerUnaffected(s: EditableSettings, option: string, checked: bool)
    ensures ToggleSectionAsWritten(s, "sales_report", option, checked) == ToggleSection(s, "sales_report", option, checked)
  {
  }

  /** Unticking "enabled" hides the report's section list. */
  lemma {:induction false} DisableReport(s: EditableSettings, report: string)
    ensures ReportEnabled(s.reportTemplates, report) ==
      (Get(Get(Some(s.reportTemplates), report), "enabled") !in {Some(JBool(false)), Some(JNum(0)), Some(JStr(""))})
    ensures !ReportEnabled(UpdateReport(s, report, "enabled", JBool(false)).reportTemplates, report)
    ensures ReportEnabled(UpdateReport(s, report, "enabled", JBool(true)).reportTemplates, report)
  {
    var v := Get(Get(Some(s.reportTemplates), report), "enabled");
    assert v == None || v == Some(JNull) ==> Truthy(Nullish(v, JBool(true)));
  }

  // ---------------------------------------------------------------------------
  // Inputs with fallbacks
  // ---------------------------------------------------------------------------

  /** `parseInt(v) || 30`: an unparsable input and 0 both store 30. */
  function RefreshInput(v: string): (n: int)
    ensures n != 0
    ensures ParseInt(v).None? || ParseInt(v) == Some(0) ==> n == 30
    ensures ParseInt(v).Some? && ParseInt(v).value != 0 ==> n == ParseInt(v).value
  {
    var p := ParseInt(v);
    if p.None? || p.value == 0 then 30 else p.value
  }

  /** So "Set to 0 to disable" cannot be stored: typing 0 gives 30, any other
      number is kept. */
  lemma RefreshInputOfNumber(n: int)
    ensures RefreshInput(Show(n)) == if n == 0 then 30 else n
  {
    ParseShow(n);
  }

  /** The refresh input with only an unparsable entry falling back to 30, so
      that 0 can be stored to switch auto-refresh off. */
  function RefreshInputCorrected(v: string): (n: int)
    ensures ParseInt(v).None? ==> n == 30
    ensures ParseInt(v).Some? ==> n == ParseInt(v).value
  {
    var p := ParseInt(v);
    if p.None? then 30 else p.value
  }

  /** Typing any number, 0 included, stores that number. */
  lemma RefreshInputCorrectedOfNumber(n: int)
    ensures RefreshInputCorrected(Show(n)) == n
  {
    ParseShow(n);
  }

  /** A displayed value: `section[key] || fallback`. */
  function Shown(section: Json, key: string, fallback: Json): (v: Json)
    ensures Get(Some(section), key).Some? && Truthy(Get(Some(section), key).value) ==> v == Get(Some(section), key).value
    ensures !(Get(Some(section), key).Some? && Truthy(Get(Some(section), key).value)) ==> v == fallback
  {
    Or(Get(Some(section), key), fallback)
  }

  /** An interval stored as 0 elsewhere is shown as 30. */
  lemma ZeroIntervalShownAs30(layout: Json)
    requires Get(Some(layout), "refresh_interval") == Some(JNum(0))
    ensures Shown(layout, "refresh_interval", JNum(30)) == JNum(30)
  {
  }

  /** The `descriptions` record of `getFeatureDescription`. */
  const FeatureDescriptions: map<string, string> := map[
    "pos" := "Point of Sale module",
    "warehouse" := "Warehouse & stock management",
    "reports" := "Sales and inventory reports",
    "gps_tracking" := "GPS tracking for riders",
    "production_tracking" := "Production & manufacturing tracking",
    "low_stock_alerts" := "Automatic low stock notifications",
    "returns_management" := "Product returns management",
    "weather_widget" := "Weather information widget",
    "advanced_reports" := "Advanced analytics & insights",
    "api_access" := "API access for integrations",
    "multi_currency" := "Multiple currency support",
    "barcode_scanner" := "Barcode scanning feature",
    "email_notifications" := "Email notification system",
    "sms_notifications" := "SMS notification system"]

  /** The record describes exactly the fourteen feature keys, none with an empty
      text or the fallback text. */
  lemma DescriptionsCoverFeatures()
    ensures FeatureDescriptions.Keys == Signup.FeatureKeys
    ensures forall k :: k in FeatureDescriptions ==>
      FeatureDescriptions[k] != "" && FeatureDescriptions[k] != "Feature configuration"
  {
    DescriptionTexts();
  }

  lemma DescriptionTexts()
    ensures "" !in FeatureDescriptions.Values && "Feature configuration" !in FeatureDescriptions.Values
  {
  }

  /** `getFeatureDescription`: `descriptions[key] || "Feature configuration"`. */
  function FeatureDescription(key: string): (d: string)
    ensures d == "Feature configuration" <==> key !in Signup.FeatureKeys
    ensures key in FeatureDescriptions ==> d == FeatureDescriptions[key]
  {
    DescriptionsCoverFeatures();
    if key in FeatureDescriptions && FeatureDescriptions[key] != "" then FeatureDescriptions[key]
    else "Feature configuration"
  }

  // ---------------------------------------------------------------------------
  // The page
  // ---------------------------------------------------------------------------

  /** The full query: an error (the new columns may not exist) or the row; a
      `None` section is a null column. */
  datatype FullLoad = FullError | FullRow(
    name: string, branding: Option<Json>, terminology: Option<Json>, features: Option<Json>,
    dashboardLayout: Option<Json>, reportTemplates: Option<Json>)

  /** The fallback query of the name only. */
  datatype BasicLoad = BasicError | BasicRow(name: string)

  datatype Notice = NoNotice | MigrationRequired | LoadFailed | Saved | SaveFailed(message: string)

  /** `x || {}` for one loaded section. */
  function OrEmpty(v: Option<Json>): (j: Json)
    ensures v.Some? && Truthy(v.value) ==> j == v.value
    ensures !(v.Some? && Truthy(v.value)) ==> j == EmptyObject
  {
    Or(v, EmptyObject)
  }

  class SettingsEditor {
    var orgName: string
    var settings: EditableSettings
    var loading: bool

    constructor ()
      ensures orgName == "" && settings == EmptySettings && loading
    {
      orgName := "";
      settings := EmptySettings;
      loading := true;
    }

    /** `loadSettings`: the full row replaces each section, a missing one by
        `{}`; when the full query fails only the name is loaded and the
        migration notice raised; when that fails too, the generic error. */
    method LoadSettings(full: FullLoad, basic: BasicLoad) returns (notice: Notice)
      modifies this
      ensures !loading
      ensures full.FullRow? ==>
        && orgName == full.name && notice == NoNotice
        && settings == EditableSettings(OrEmpty(full.branding), OrEmpty(full.terminology), OrEmpty(full.features),
                                        OrEmpty(full.dashboardLayout), OrEmpty(full.reportTemplates))
      ensures full.FullError? ==> settings == old(settings)
      ensures full.FullError? && basic.BasicRow? ==> orgName == basic.name && notice == MigrationRequired
      ensures full.FullError? && basic.BasicError? ==> orgName == old(orgName) && notice == LoadFailed
    {
      match full {
        case FullRow(name, b, t, f, d, r) =>
          orgName := name;
          settings := EditableSettings(OrEmpty(b), OrEmpty(t), OrEmpty(f), OrEmpty(d), OrEmpty(r));
          notice := NoNotice;
        case FullError =>
          match basic {
            case BasicRow(name) =>
              orgName := name;
              notice := MigrationRequired;
            case BasicError =>
              notice := LoadFailed;
          }
      }
      loading := false;
    }

    /** One of the four `update*` handlers of a plain section. */
    method UpdateSection(sec: Section, key: string, value: Json)
      requires sec != ReportTemplates
      modifies this`settings
      ensures settings == Update(old(settings), sec, key, value)
    {
      settings := Update(settings, sec, key, value);
    }

    method UpdateReportTemplate(report: string, key: string, value: Json)
      modifies this`settings
      ensures settings == UpdateReport(old(settings), report, key, value)
    {
      settings := UpdateReport(settings, report, key, value);
    }

    /** A widget (`listKey` "widgets") or chart ("charts") checkbox. */
    method OnListCheckbox(listKey: string, key: string, checked: bool)
      modifies this`settings
      ensures settings == ToggleListed(old(settings), listKey, key, checked)
    {
      settings := ToggleListed(settings, listKey, key, checked);
    }

    /** A report-section checkbox, with the corrected default list. */
    method OnSectionCheckbox(report: string, option: string, checked: bool)
      modifies this`settings
      ensures settings == ToggleSection(old(settings), report, option, checked)
    {
      settings := ToggleSection(settings, report, option, checked);
    }

    /** The refresh-interval input. */
    method OnRefreshInput(v: string)
      modifies this`settings
      ensures settings == Update(old(settings), DashboardLayout, "refresh_interval", JNum(RefreshInputCorrected(v)))
    {
      settings := Update(settings, DashboardLayout, "refresh_interval", JNum(RefreshInputCorrected(v)));
    }

    /** `handleSave`: all five sections are written as they stand; the state is
        not changed. */
    method HandleSave(result: Option<string>) returns (payload: EditableSettings, notice: Notice)
      ensures payload == settings
      ensures result.None? ==> notice == Saved
      ensures result.Some? ==> notice == SaveFailed(if result.value != "" then result.value else "Failed to save settings")
    {
      payload := settings;
      notice := if result.None? then Saved
                else SaveFailed(if result.value != "" then result.value else "Failed to save settings");
    }
  }

  /** An organization without a layout: ticking one widget stores a one-item list. */
  method EditorScenario() {
    var e := new SettingsEditor();
    var n := e.LoadSettings(FullRow("Toko", None, None, None, None, None), BasicError);
    assert e.settings == EmptySettings && n == NoNotice;
    e.OnListCheckbox("widgets", "sales_summary", true);
    assert Listed(e.settings.dashboardLayout, "widgets", "sales_summary");
  }

  /** Typing text into the refresh-interval input saves 30. */
  method RefreshScenario() {
    var e := new SettingsEditor();
    TextIsNotANumber();
    e.OnRefreshInput("abc");
    var p, m := e.HandleSave(None);
    assert m == Saved && p.dashboardLayout.fields["refresh_interval"] == JNum(30);
  }

  lemma TextIsNotANumber()
    ensures RefreshInput("abc") == 30 && RefreshInputCorrected("abc") == 30
  {
    assert LeadingSpaces("abc") == 0;
    assert TrimStart("abc") == "abc";
  }
}
