/** The application's route table: which page each path shows, which guard level
    wraps it, and the role-based redirect from `/`. */
module Routes {
  import opened Js
  import opened AccessGuard

  /** The guard a route is wrapped in. */
  datatype Guard = Unguarded | SessionOnly | AdminOnly | SuperAdminOnly

  datatype Page =
    | Root
    | AuthPage
    | EmailVerifiedPage
    | ResetPasswordPage
    | DashboardPage
    | ProductsPage
    | WarehousePage
    | ReportsPage
    | PosPage
    | SettingsPage
    | SuperAdminHome
    | CreateOrganizationPage
    | OrganizationDetailPage(id: string)
    | SubscriptionPlansPage
    | NotFound

  const OrganizationPrefix := "/super-admin/organization/"

  /** The `:id` segment of `/super-admin/organization/:id`: one non-empty path segment. */
  predicate IsSegment(s: string) {
    s != [] && '/' !in s
  }

  /** The page a path selects; anything not in the table (including `/signup`)
      falls to the catch-all. Matching is exact and case-sensitive. */
  function Match(path: string): Page {
    if path == "/" then Root
    else if path == "/auth" then AuthPage
    else if path == "/email-verified" then EmailVerifiedPage
    else if path == "/reset-password" then ResetPasswordPage
    else if path == "/dashboard" then DashboardPage
    else if path == "/products" then ProductsPage
    else if path == "/warehouse" then WarehousePage
    else if path == "/reports" then ReportsPage
    else if path == "/pos" then PosPage
    else if path == "/settings" then SettingsPage
    else if path == "/super-admin" then SuperAdminHome
    else if path == "/super-admin/create-organization" then CreateOrganizationPage
    else if path == "/super-admin/subscription-plans" then SubscriptionPlansPage
    else if StartsWith(path, OrganizationPrefix) && IsSegment(path[|OrganizationPrefix|..]) then
      OrganizationDetailPage(path[|OrganizationPrefix|..])
    else NotFound
  }

  /** The guard level each page is declared with. */
  function GuardOf(p: Page): Guard {
    match p
    case AuthPage | EmailVerifiedPage | ResetPasswordPage | NotFound => Unguarded
    case Root | ProductsPage | PosPage | SettingsPage => SessionOnly
    case DashboardPage | WarehousePage | ReportsPage => AdminOnly
    case SuperAdminHome | CreateOrganizationPage | OrganizationDetailPage(_) | SubscriptionPlansPage => SuperAdminOnly
  }

  /** The target of the function child of `/`. */
  function RootTarget(isAdmin: bool): (target: string)
    ensures target == "/dashboard" <==> isAdmin
    ensures target == "/pos" <==> !isAdmin
  {
    if isAdmin then "/dashboard" else "/pos"
  }

  /** What a navigation to `path` shows, given the guard's state. */
  datatype Screen =
    | Guarding(view: View)
    | Shows(page: Page)
    | Redirects(target: string)

  function Navigate(path: string, loading: bool, signedIn: bool, flags: RoleFlags): (s: Screen)
    ensures s.Shows? ==> s.page == Match(path)
  {
    var page := Match(path);
    var g := GuardOf(page);
    if g == Unguarded then Shows(page)
    else
      match Decide(loading, signedIn, g == AdminOnly, g == SuperAdminOnly, flags)
      case Content(isAdmin, _) => if page == Root then Redirects(RootTarget(isAdmin)) else Shows(page)
      case v => Guarding(v)
  }

  /** `/` sends an admin to the dashboard and everyone else who is signed in to the POS. */
  lemma RootRedirects(flags: RoleFlags)
    ensures Navigate("/", false, true, flags) == Redirects(if flags.isAdmin then "/dashboard" else "/pos")
  {
  }

  lemma AdminRoutes()
    ensures GuardOf(Match("/dashboard")) == AdminOnly
    ensures GuardOf(Match("/warehouse")) == AdminOnly
    ensures GuardOf(Match("/reports")) == AdminOnly
    ensures GuardOf(Match("/products")) == SessionOnly
    ensures GuardOf(Match("/pos")) == SessionOnly
    ensures GuardOf(Match("/settings")) == SessionOnly
    ensures Match("/signup") == NotFound
  {
  }

  /** Every page under `/super-admin` that exists requires a super admin. */
  lemma {:induction false} SuperAdminSubtree(path: string)
    requires StartsWith(path, "/super-admin")
    requires Match(path) != NotFound
    ensures GuardOf(Match(path)) == SuperAdminOnly
  {
    assert path[..|"/super-admin"|] == "/super-admin";
    assert path[1] == 's' && path[2] == 'u';
  }

  /** Only `/auth`, `/email-verified`, `/reset-password` and unknown paths are
      shown without a session. */
  lemma {:induction false} UnguardedPaths(path: string)
    ensures GuardOf(Match(path)) == Unguarded <==>
      path in {"/auth", "/email-verified", "/reset-password"} || Match(path) == NotFound
  {
  }

  /** A guarded page is shown only to a signed-in caller whose flags meet its
      guard; `/` shows no page at all, only a redirect. */
  lemma {:induction false} ShownPagesAreAuthorised(path: string, loading: bool, signedIn: bool, flags: RoleFlags)
    requires Navigate(path, loading, signedIn, flags).Shows?
    requires GuardOf(Match(path)) != Unguarded
    ensures !loading && signedIn
    ensures GuardOf(Match(path)) == AdminOnly ==> flags.isAdmin
    ensures GuardOf(Match(path)) == SuperAdminOnly ==> flags.isSuperAdmin
    ensures Match(path) != Root
  {
    var page := Match(path);
    var g := GuardOf(page);
    var v := Decide(loading, signedIn, g == AdminOnly, g == SuperAdminOnly, flags);
    assert v.Content?;
  }
}
