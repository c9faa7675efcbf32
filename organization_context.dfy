/** The organization settings provider: the default settings, the per-section
    fallback applied to the caller's organization row, the cache, the branding
    side effects, and the hook that reads the settings. */
module OrganizationContext {
  import opened Wrappers
  import opened Js
  import Signup

  /** The settings object every page reads. The four sections are free-form JSON
      in the database, so they are kept as `Json`. */
  datatype Settings = Settings(
    branding: Json,
    terminology: Json,
    features: Json,
    dashboardLayout: Json,
    organizationId: Option<string>,
    organizationName: Option<string>)

  const DefaultBranding: Json := StrObj(map[
    "primary_color" := "#3b82f6", "secondary_color" := "#8b5cf6", "app_name" := "BK POS"])

  const DefaultTerminologyTable: map<string, string> := map[
    "rider" := "Rider", "rider_plural" := "Riders", "warehouse" := "Warehouse", "pos" := "POS",
    "product" := "Product", "product_plural" := "Products", "customer" := "Customer",
    "customer_plural" := "Customers", "order" := "Order", "order_plural" := "Orders",
    "return" := "Return", "return_plural" := "Returns", "report" := "Report",
    "report_plural" := "Reports", "dashboard" := "Dashboard", "settings" := "Settings"]

  const DefaultFeatureTable: map<string, bool> := map[
    "pos" := true, "warehouse" := true, "reports" := true, "gps_tracking" := true,
    "production_tracking" := false, "low_stock_alerts" := true, "returns_management" := true,
    "weather_widget" := false, "advanced_reports" := false, "api_access" := false,
    "multi_currency" := false, "barcode_scanner" := true, "email_notifications" := true,
    "sms_notifications" := false]

  const DefaultLayout: Json := JObj(map[
    "widgets" := JArr([JStr("sales"), JStr("stock"), JStr("riders"), JStr("orders")]),
    "charts" := JArr([JStr("daily_sales"), JStr("top_products")]),
    "show_weather" := JBool(false),
    "show_gps_map" := JBool(true),
    "default_view" := JStr("grid"),
    "refresh_interval" := JNum(300)])

  /** `defaultSettings`: no organization id or name. */
  const DefaultSettings: Settings := Settings(
    DefaultBranding, StrObj(DefaultTerminologyTable), BoolObj(DefaultFeatureTable), DefaultLayout, None, None)

  /** The default feature table has the same fourteen keys as the signup preset. */
  lemma DefaultFeatureKeys()
    ensures DefaultFeatureTable.Keys == Signup.FeatureKeys
  {
  }

  /** The default feature table is the base preset (what the free plan gets)
      with exactly three more features switched on. */
  lemma DefaultFeaturesAgainstSignup()
    ensures !Signup.BaseFeatures["gps_tracking"] && !Signup.BaseFeatures["barcode_scanner"]
      && !Signup.BaseFeatures["email_notifications"]
    ensures DefaultFeatureTable ==
      Signup.BaseFeatures["gps_tracking" := true]["barcode_scanner" := true]["email_notifications" := true]
  {
  }

  /** The `id, name, branding, terminology, features, dashboard_layout` row; a
      `None` section is a null column. */
  datatype OrganizationRow = OrganizationRow(
    id: string, name: string,
    branding: Option<Json>, terminology: Option<Json>, features: Option<Json>, dashboardLayout: Option<Json>)

  /** One section: the organization's value when it is truthy, otherwise the
      whole default section; the two are never merged key by key. */
  predicate SectionFrom(resolved: Json, stored: Option<Json>, default: Json) {
    if stored.Some? && Truthy(stored.value) then resolved == stored.value else resolved == default
  }

  /** The settings built from a loaded row against a set of defaults. */
  function ResolveWith(row: OrganizationRow, defaults: Settings): (s: Settings)
    ensures SectionFrom(s.branding, row.branding, defaults.branding)
    ensures SectionFrom(s.terminology, row.terminology, defaults.terminology)
    ensures SectionFrom(s.features, row.features, defaults.features)
    ensures SectionFrom(s.dashboardLayout, row.dashboardLayout, defaults.dashboardLayout)
    ensures s.organizationId == Some(row.id) && s.organizationName == Some(row.name)
  {
    Settings(Or(row.branding, defaults.branding),
             Or(row.terminology, defaults.terminology),
             Or(row.features, defaults.features),
             Or(row.dashboardLayout, defaults.dashboardLayout),
             Some(row.id), Some(row.name))
  }

  /** The settings the provider builds from a loaded row. */
  function Resolve(row: OrganizationRow): Settings {
    ResolveWith(row, DefaultSettings)
  }

  /** No key is filled in from the defaults, whatever they are: a branding that
      only names the app leaves both colours unset. */
  lemma NoPerFieldMerge(row: OrganizationRow, defaults: Settings)
    requires row.branding == Some(JObj(map["app_name" := JStr("Kopi")]))
    ensures ResolveWith(row, defaults).branding.fields.Keys == {"app_name"}
    ensures "primary_color" !in ResolveWith(row, defaults).branding.fields
  {
  }

  lemma ReturnPluralOnlyInDefaults()
    ensures "return_plural" !in Signup.TerminologyKeys
    ensures "return_plural" in DefaultSettings.terminology.fields
  {
    assert "return_plural" in DefaultTerminologyTable;
  }

  /** An organization provisioned at signup keeps its empty dashboard layout (an
      empty object is truthy), and its terminology lacks `return_plural`, which
      the defaults have (`ReturnPluralOnlyInDefaults`); neither depends on the
      defaults. `Signup.ProvisionArgsShape` shows every signup call has this shape. */
  lemma SignupProvisionedSettings(call: Signup.ProvisionCall, id: string, defaults: Settings)
    requires Signup.ProvisionedShape(call)
    ensures var s := ResolveWith(OrganizationRow(id, call.organizationName, Some(call.branding), Some(call.terminology),
                                                 Some(call.features), Some(call.dashboardLayout)), defaults);
      && s.dashboardLayout == JObj(map[])
      && s.terminology.JObj? && "return_plural" !in s.terminology.fields
  {
    assert "return_plural" !in Signup.TerminologyKeys;
  }

  /** What `applyBranding` does to the document. */
  datatype BrandingEffect = BrandingEffect(
    primaryColor: Option<Json>, secondaryColor: Option<Json>, title: Option<Json>, faviconHref: Option<Json>)

  /** The colours are always written; the title only for a truthy app name; the
      favicon only for a truthy URL and when the page has an icon link. */
  function ApplyBranding(branding: Json, hasIconLink: bool): (e: BrandingEffect)
    ensures e.primaryColor == Get(Some(branding), "primary_color")
    ensures e.secondaryColor == Get(Some(branding), "secondary_color")
    ensures e.title.Some? <==> branding.JObj? && "app_name" in branding.fields && Truthy(branding.fields["app_name"])
    ensures e.title.Some? ==> e.title.value == branding.fields["app_name"]
    ensures e.faviconHref.Some? <==>
      hasIconLink && branding.JObj? && "favicon_url" in branding.fields && Truthy(branding.fields["favicon_url"])
    ensures e.faviconHref.Some? ==> e.faviconHref.value == branding.fields["favicon_url"]
  {
    var name := Get(Some(branding), "app_name");
    var icon := Get(Some(branding), "favicon_url");
    BrandingEffect(Get(Some(branding), "primary_color"), Get(Some(branding), "secondary_color"),
                   if name.Some? && Truthy(name.value) then name else None,
                   if hasIconLink && icon.Some? && Truthy(icon.value) then icon else None)
  }

  /** Signup branding sets the title to "BK POS" and, its favicon being null, never the icon. */
  lemma SignupBrandingEffect(businessType: string, hasIconLink: bool)
    ensures ApplyBranding(Signup.DefaultBranding(businessType), hasIconLink).title == Some(JStr("BK POS"))
    ensures ApplyBranding(Signup.DefaultBranding(businessType), hasIconLink).faviconHref.None?
  {
  }

  /** The answer of the organization query. */
  datatype OrganizationQuery = QueryFailed | NoRow | Row(row: OrganizationRow)

  /** `useOrganization`: the defaults when there is no context value. */
  function UseOrganization(context: Option<Settings>): (s: Settings)
    ensures context.None? ==> s == DefaultSettings
    ensures context.Some? ==> s == context.value
  {
    context.GetOr(DefaultSettings)
  }

  /** The provider's state, with the two outside effects it writes: the
      `org_settings` cache entry and the branding applied to the document. */
  class OrganizationProvider {
    var settings: Settings
    var loading: bool
    var cache: Option<Settings>
    var lastBranding: Option<BrandingEffect>

    constructor ()
      ensures settings == DefaultSettings && loading && cache.None? && lastBranding.None?
    {
      settings := DefaultSettings;
      loading := true;
      cache := None;
      lastBranding := None;
    }

    /** `loadOrganizationSettings`. `profileOrgId` is the profile's
        `organization_id` (`None` when there is no profile). Without a user,
        without an organization id, on a query error or without a row, the
        settings stay as they were; otherwise they are resolved from the row,
        cached and their branding applied. Loading ends in every case. */
    method LoadOrganizationSettings(user: Option<string>, profileOrgId: Option<string>,
                                    query: OrganizationQuery, hasIconLink: bool)
      modifies this
      ensures !loading
      ensures var found := user.Some? && profileOrgId.Some? && profileOrgId.value != "" && query.Row?;
        && (!found ==> settings == old(settings) && cache == old(cache) && lastBranding == old(lastBranding))
        && (found ==> settings == Resolve(query.row) && cache == Some(settings)
                      && lastBranding == Some(ApplyBranding(settings.branding, hasIconLink)))
    {
      if user.None? || profileOrgId.None? || profileOrgId.value == "" {
        loading := false;
        return;
      }
      match query
      case Row(row) =>
        settings := Resolve(row);
        cache := Some(settings);
        lastBranding := Some(ApplyBranding(settings.branding, hasIconLink));
        loading := false;
      case _ =>
        loading := false;
    }
  }

  /** A fresh provider whose user has no organization keeps the defaults. */
  method NoOrganizationScenario() {
    var p := new OrganizationProvider();
    p.LoadOrganizationSettings(Some("u1"), None, NoRow, true);
    assert p.settings == DefaultSettings && !p.loading && p.cache.None?;
    assert UseOrganization(Some(p.settings)).dashboardLayout == DefaultLayout;
  }
}
