# BK POS tenant, subscription and access policy in Dafny

BK POS is a multi-tenant point-of-sale, warehouse and rider app. Its web client is a thin React layer over a hosted database and auth service. The code written in that client is mostly small decision rules, and together they make up the app's policy:

- who may see which page;
- how a new organization is provisioned at signup or by the super admin;
- how a plan change and a status toggle are written;
- how the remaining subscription days are classified;
- how an organization's settings fall back to the defaults and are edited;
- what the super admin dashboard counts;
- how the migration runner reads its environment file, splits SQL and counts results.

This project models those rules and proves properties of them. Every remote answer is an input to the model: a query result, an RPC error, a session or a thrown exception. Time is an integer number of milliseconds.

One module per source file:

| module | file | form |
|---|---|---|
| `AccessGuard` | `access_guard.dfy` | the role-to-flags lookup and the render cascade as functions; the `ProtectedRoute` component as a class whose callbacks update its state and respect the `mounted` flag |
| `Routes` | `routes.dfy` | the route table, guard levels and the `/` redirect as functions |
| `Signup` | `signup.dfy` | the email test as a scanning function proved equal to the pattern; the presets as maps; the four-step wizard as a class |
| `CreateOrganization` | `create_organization.dfy` | slug generation as a chain of string functions; the create page as a class with the two-insert submit |
| `OrganizationDetail` | `organization_detail.dfy` | badge maps, rider count and history enrichment as functions; the page as a class with the toggle and the plan change |
| `SubscriptionBadge` | `subscription_badge.dfy` | days remaining, the warnings and the display conditions as functions |
| `OrganizationContext` | `organization_context.dfy` | defaults and the per-section fallback as functions; the provider as a class with its cache and branding effects |
| `OrganizationSettings` | `organization_settings.dfy` | the single-key updaters and list toggles as functions; the editor as a class |
| `SubscriptionPlans` | `subscription_plans.dfy` | the features text round trip and the input fallbacks as functions; the plan manager as a class |
| `SuperAdminDashboard` | `super_admin_dashboard.dfy` | the access decision, the statistics and the table as functions; the dashboard as a class |
| `Migrations` | `migrations.dfy` | the `.env` loop, the statement loop and the file loop as methods with invariants, proved against functions for the line pattern, the sort, the statement split and the counts |

Two helper modules have no source file of their own:
- `Wrappers` (`wrappers.dfy`) holds `Option`.
- `Js` (`js.dfy`) holds the JavaScript built-ins these pages rely on:
  - white space, `trim`, `split` and `join`;
  - `startsWith` and decimal `parseInt`;
  - JSON values with JavaScript truthiness, `||`, `??` and object spread;
  - `StrObj` and `BoolObj`, which turn a string or flag table into a JSON object (used by both the signup call and the default settings).

## Model

| member | source | states |
|---|---|---|
| AccessGuard.FlagsOfRole | src/components/ProtectedRoute.tsx:56-61 | super admin exactly for the role `super_admin`; admin exactly for `admin` or `super_admin`; no other role grants anything |
| AccessGuard.FlagsOfLookup | src/components/ProtectedRoute.tsx:37-75 | a query error or an exception clears both flags; otherwise the flags of the role found, so super admin always implies admin |
| AccessGuard.ProtectedRoute.Render | src/components/ProtectedRoute.tsx:150-200 | the guard renders `Decide` of its own loading flag, whether a user is recorded, and its role flags; `RiderSessionScenario` walks it through the outcomes |
| AccessGuard.Decide | src/components/ProtectedRoute.tsx:152-200 | the render cascade, each outcome as an if-and-only-if: the spinner exactly while loading; the redirect to `/auth` exactly when loading is over without a user; the super-admin denial exactly for a signed-in non-super-admin on a super-admin route; the admin denial exactly when that check passes and an admin route meets a non-admin; content (with both flags) exactly when every requirement is met |
| AccessGuard.AdminOnSuperAdminView | src/components/ProtectedRoute.tsx:164-176 | a plain admin on a super-admin route gets the super-admin denial whatever `requireAdmin` says |
| AccessGuard.NoElevatedRoleIsDenied | src/components/ProtectedRoute.tsx:37-75 | failing closed: no role row, any other role, a lookup error or an exception is denied every admin or super-admin view, with one of the two placeholders |
| AccessGuard.ProtectedRoute.constructor | src/components/ProtectedRoute.tsx:17-20 | no user, no flags, loading, mounted |
| AccessGuard.ProtectedRoute.OnAuthStateChange | src/components/ProtectedRoute.tsx:79-119 | ignored once unmounted; otherwise records the session's user and clears both flags when there is none; loading is untouched |
| AccessGuard.ProtectedRoute.OnRoleLookup | src/components/ProtectedRoute.tsx:26-76 | while mounted the flags become those of the lookup; nothing else changes |
| AccessGuard.ProtectedRoute.OnSessionResult | src/components/ProtectedRoute.tsx:122-144 | while mounted: an error ends loading and keeps the user; a session records its user and ends loading only when there is no user |
| AccessGuard.ProtectedRoute.OnInitialRoleLookup | src/components/ProtectedRoute.tsx:130-133 | the flags as by any lookup, then loading ends (while mounted) |
| AccessGuard.ProtectedRoute.Unmount | src/components/ProtectedRoute.tsx:146-149 | clears the liveness flag and nothing else |
| AccessGuard.UnmountedGuardIsFrozen | src/components/ProtectedRoute.tsx:23-150 | after cleanup no callback, in any order, changes the user, the flags or the loading state |
| Routes.RootTarget | src/App.tsx:43-45 | `/dashboard` exactly for an admin, `/pos` exactly for everyone else |
| Routes.Match | src/App.tsx:38-141 | the route table: each listed path gives its page, and any other path gives the catch-all `NotFound`; `AdminRoutes`, `SuperAdminSubtree` and `UnguardedPaths` state the table's shape |
| Routes.GuardOf | src/App.tsx:39-140 | the wrapper of each page: no guard, a session, an admin or a super admin; `AdminRoutes`, `SuperAdminSubtree` and `UnguardedPaths` state which paths get which |
| Routes.Navigate | src/App.tsx:38-141 | a page that is shown is the page the path matches |
| Routes.RootRedirects | src/App.tsx:39-48 | a signed-in caller on `/` is redirected to the dashboard when admin and to the POS otherwise |
| Routes.AdminRoutes | src/App.tsx:53-100 | dashboard, warehouse and reports need an admin; products, POS and settings only a session; `/signup` has no route |
| Routes.SuperAdminSubtree | src/App.tsx:102-137 | every existing page under `/super-admin` needs a super admin |
| Routes.UnguardedPaths | src/App.tsx:49-141 | a page is unguarded exactly for `/auth`, `/email-verified`, `/reset-password` and unknown paths |
| Routes.ShownPagesAreAuthorised | src/App.tsx:38-141 | a guarded page is shown only when loading is over, a user is signed in and the flags meet the page's guard; `/` itself is never shown, only redirected |
| Signup.IsEmail | src/pages/PublicSignup.tsx:87 | the e-mail test as a predicate; `IsEmailSound`, `IsEmailComplete` and `EmailTestIsPattern` prove it is exactly the regular expression |
| Signup.EmailTestIsPattern | src/pages/PublicSignup.tsx:87 | the scanning test accepts exactly the strings the pattern `^[^\s@]+@[^\s@]+\.[^\s@]+$` matches (both directions) |
| Signup.IsEmailSound | src/pages/PublicSignup.tsx:87 | whatever the test accepts has a non-empty local part, one `@`, a non-empty name, a dot and a non-empty tail, none holding white space or `@` |
| Signup.IsEmailComplete | src/pages/PublicSignup.tsx:87 | every string of that shape passes the test |
| Signup.EmailExamples | src/pages/PublicSignup.tsx:87-90 | `a@b.id` passes; `a@bc`, `@b.id` and `a b@c.d` are rejected |
| Signup.ValidateStep | src/pages/PublicSignup.tsx:81-106 | steps 2 and 4 never fail; step 1 passes exactly when the four fields are filled and the email passes; step 3 exactly when the fields are filled, the password has 6 or more characters and both passwords agree; the message is the first failed check's |
| Signup.DefaultBranding | src/pages/PublicSignup.tsx:182-190 | the same five keys whatever the business type: app name "BK POS", null logo and favicon |
| Signup.DefaultTerminology | src/pages/PublicSignup.tsx:192-232 | the food preset (warehouse = "Dapur") exactly for `restaurant` and `cafe`; both presets name the same sixteen terms |
| Signup.PresetKeys | src/pages/PublicSignup.tsx:194-231 | both presets have exactly the sixteen term keys |
| Signup.WarehouseTerms | src/pages/PublicSignup.tsx:192-231 | the warehouse is "Dapur" in the food preset and "Gudang" in the other |
| Signup.DefaultFeatures | src/pages/PublicSignup.tsx:234-271 | always the fourteen feature keys; any plan other than basic, pro and enterprise gets the base table unchanged |
| Signup.FeaturesGrowWithPlan | src/pages/PublicSignup.tsx:234-271 | free ⊆ basic ⊆ pro ⊆ enterprise in switched-on features, and enterprise switches on all fourteen |
| Signup.ProFeatures | src/pages/PublicSignup.tsx:255-265 | pro switches on production tracking but not multi-currency or API access |
| Signup.ErrorToast | src/pages/PublicSignup.tsx:173-175 | the caught error's message, or the generic text when it is empty; never empty |
| Signup.ProvisionArgs | src/pages/PublicSignup.tsx:134-145 | the procedure gets the typed organization name, full name and phone unchanged, the selected plan, the user id, the business type's default branding and terminology, the plan's features and empty layout and report templates |
| Signup.ProvisionArgsShape | src/pages/PublicSignup.tsx:138-140 | every provisioning call carries a terminology object with the sixteen term keys and an empty dashboard layout |
| Signup.SignupWizard.constructor | src/pages/PublicSignup.tsx:64-79 | step 1, every field empty, plan "free" |
| Signup.SignupWizard.HandleNext | src/pages/PublicSignup.tsx:81-109 | the step's validation result is returned; the step advances by one exactly when it passed |
| Signup.SignupWizard.HandleBack | src/pages/PublicSignup.tsx:111-113 | the step goes back by one |
| Signup.SignupWizard.Edit | src/pages/PublicSignup.tsx:68-79 | the form becomes the typed values |
| Signup.SignupWizard.HandleSubmit | src/pages/PublicSignup.tsx:115-179 | the organization is provisioned exactly when sign-up returned a user without error, with that user's id; success exactly when the procedure then answers with an id, navigating to `/dashboard` on every plan; each failure carries its own message |
| CreateOrganization.LowerChar | src/pages/CreateOrganization.tsx:57 | ASCII capitals move 32 code points down to lower case; every other character is kept |
| CreateOrganization.Lower | src/pages/CreateOrganization.tsx:57 | same length, each character lowered by `LowerChar` |
| CreateOrganization.Alnum | src/pages/CreateOrganization.tsx:58 | only characters of `[a-z0-9]` remain |
| CreateOrganization.SkipRun | src/pages/CreateOrganization.tsx:58 | what is left starts inside `[a-z0-9]` or is empty, is strictly shorter when the input starts outside the class, and has the same letters and digits; `SkipRunDropsOneRun` states that exactly the leading run is dropped |
| CreateOrganization.SkipRunDropsOneRun | src/pages/CreateOrganization.tsx:58 | the result is a suffix of the input and every dropped character is outside `[a-z0-9]`; with `SkipRun`'s own clause that the result starts inside the class, exactly one maximal leading run is dropped |
| CreateOrganization.SkipRunOfRun | src/pages/CreateOrganization.tsx:58 | skipping a whole run outside the class, followed by nothing or by a letter or digit, lands exactly on what follows it |
| CreateOrganization.Collapse | src/pages/CreateOrganization.tsx:58 | only `[a-z0-9-]`, no `--`, the first letter or digit kept in front, empty exactly for an empty input, and the same letters and digits in order; `CollapseKeeps` and `CollapseSteps` state how each character and each run is rewritten |
| CreateOrganization.CollapseKeeps | src/pages/CreateOrganization.tsx:58 | a letter or digit in front stays in front of the collapse of the rest, whatever the rest is |
| CreateOrganization.CollapseSteps | src/pages/CreateOrganization.tsx:58 | a maximal non-empty run outside `[a-z0-9]` becomes exactly one dash in front of the collapse of what follows |
| CreateOrganization.CollapseOfSpacedPair | src/pages/CreateOrganization.tsx:58 | the two step lemmas fix the collapse of "a b" to "a-b" |
| CreateOrganization.StripDashes | src/pages/CreateOrganization.tsx:59 | at most two characters are dropped, all of them dashes: the leading one exactly when the input starts with a dash, otherwise the result is a prefix; what remains has no dash at either end |
| CreateOrganization.AlnumAppend | src/pages/CreateOrganization.tsx:58 | the letters and digits of a concatenation are those of the parts |
| CreateOrganization.AlnumOfStripDashes | src/pages/CreateOrganization.tsx:59 | stripping the end dashes keeps every letter and digit |
| CreateOrganization.GenerateSlug | src/pages/CreateOrganization.tsx:55-60 | lower-case, collapse every run of other characters to `-`, drop an edge dash; `SlugIsWellFormed`, `SlugKeepsAlnum` and `SlugIdempotent` state its properties |
| CreateOrganization.SlugIsWellFormed | src/pages/CreateOrganization.tsx:55-60 | for every name the slug uses only `[a-z0-9-]`, has no `--` and no dash at either end |
| CreateOrganization.SlugKeepsAlnum | src/pages/CreateOrganization.tsx:55-60 | the slug keeps exactly the letters and digits of the lower-cased name, in order |
| CreateOrganization.CollapseOfSlugBody | src/pages/CreateOrganization.tsx:58 | a string of `[a-z0-9-]` without `--` is its own collapse |
| CreateOrganization.SlugOfSlug | src/pages/CreateOrganization.tsx:55-60 | a well-formed slug is its own slug |
| CreateOrganization.SlugIdempotent | src/pages/CreateOrganization.tsx:55-60 | generating a slug from a slug changes nothing |
| CreateOrganization.SlugExample | src/pages/CreateOrganization.tsx:55-60 | "A b!" becomes "a-b" |
| CreateOrganization.FindPlan | src/pages/CreateOrganization.tsx:82 | a plan is found exactly when some plan has the id; the result is plan `k` with that id and no plan before `k` has it, so it is the first such plan |
| CreateOrganization.OrganizationRow | src/pages/CreateOrganization.tsx:86-100 | status "trial" exactly for the plan named "Free", "active" otherwise; a thirty-day window from now; the plan's three caps; an empty description stored as null; active |
| CreateOrganization.HistoryRow | src/pages/CreateOrganization.tsx:107-114 | payment status "free" exactly for the "Free" plan, "pending" otherwise; the plan's price over the same thirty days |
| CreateOrganization.FreePlanStartsTrial | src/pages/CreateOrganization.tsx:93-113 | a free-plan organization is a trial whose history row is marked free and ends when the organization's subscription does |
| CreateOrganization.CreateOrganizationPage.constructor | src/pages/CreateOrganization.tsx:25-53 | the plans as loaded (none after a failed load) and an empty form |
| CreateOrganization.CreateOrganizationPage.HandleNameChange | src/pages/CreateOrganization.tsx:62-68 | the name and its generated slug change, nothing else |
| CreateOrganization.CreateOrganizationPage.Edit | src/pages/CreateOrganization.tsx:26-33 | the form becomes the typed values |
| CreateOrganization.CreateOrganizationPage.HandleSubmit | src/pages/CreateOrganization.tsx:70-124 | nothing is inserted without a name and a plan, or for an unknown plan; the organization row is inserted exactly otherwise; the history row follows exactly when that insert returned an id; success (back to `/super-admin`) exactly then; an insert error shows its message |
| OrganizationDetail.StatusVariant | src/pages/OrganizationDetail.tsx:273-286 | "default" exactly for active, "secondary" exactly for trial, "destructive" exactly for expired, "outline" for every other status |
| OrganizationDetail.RoleColor | src/pages/OrganizationDetail.tsx:288-300 | blue, green and purple for admin, rider and super admin; gray exactly for every other role |
| OrganizationDetail.Riders | src/pages/OrganizationDetail.tsx:514 | exactly the users whose role is `rider`, and no more of them than users |
| OrganizationDetail.IsRider | src/pages/OrganizationDetail.tsx:514 | a user counts as a rider exactly when the joined role is `rider`; `Riders` and `RiderCount` state the filter and count built on it |
| OrganizationDetail.RiderCount | src/pages/OrganizationDetail.tsx:514 | the number of users whose role is `rider`, never more than the users; `RiderCountAppend` and `RiderCountIgnoresOthers` state how it counts |
| OrganizationDetail.RiderCountAppend | src/pages/OrganizationDetail.tsx:514 | the rider count adds up over a split of the user list |
| OrganizationDetail.RiderCountIgnoresOthers | src/pages/OrganizationDetail.tsx:514 | a user without a role row, or with any other role, does not change the count |
| OrganizationDetail.PlanOptionDisabled | src/pages/OrganizationDetail.tsx:405 | an option is disabled exactly when it is the organization's current plan |
| OrganizationDetail.Distinct | src/pages/OrganizationDetail.tsx:177 | the same ids without repeats, the first one first |
| OrganizationDetail.PlanIds | src/pages/OrganizationDetail.tsx:177 | the plan id of every history row, in order |
| OrganizationDetail.PlansById | src/pages/OrganizationDetail.tsx:183 | an id is a key exactly when some returned plan has it; the value is plan `i` with that id and no plan after `i` has it (`LastWins`), so the last plan with an id wins |
| OrganizationDetail.Enrich | src/pages/OrganizationDetail.tsx:185-188 | every row is kept in order; a row gets its plan exactly when the plan was returned, otherwise the placeholder |
| OrganizationDetail.PlanLabel | src/pages/OrganizationDetail.tsx:756 | the plan's name when it has one, otherwise "Unknown"; never empty |
| OrganizationDetail.PlanChangeEntry | src/pages/OrganizationDetail.tsx:245-255 | "paid" with a payment date exactly for the plan named "free", "pending" without one otherwise; the plan's monthly price over thirty days from now |
| OrganizationDetail.FindPlanByName | src/pages/OrganizationDetail.tsx:230 | found exactly when an offered plan has the name; the result is plan `k` with that name and no plan before `k` has it, so it is the first such plan |
| OrganizationDetail.OrganizationDetailPage.constructor | src/pages/OrganizationDetail.tsx:83-96 | the route id, no organization, no users, no history, no plans, no choice, dialog closed |
| OrganizationDetail.OrganizationDetailPage.LoadAvailablePlans | src/pages/OrganizationDetail.tsx:105-118 | the active plans as returned; an error keeps the list |
| OrganizationDetail.OrganizationDetailPage.LoadOrganizationData | src/pages/OrganizationDetail.tsx:120-201 | a failed organization query changes nothing; otherwise the organization is stored, the users (none on a users error), and the enriched history; the plans are asked for by their distinct ids exactly when there is history |
| OrganizationDetail.OrganizationDetailPage.SelectPlan | src/pages/OrganizationDetail.tsx:93-94 | the chosen plan is recorded and the dialog opens |
| OrganizationDetail.OrganizationDetailPage.HandleToggleStatus | src/pages/OrganizationDetail.tsx:203-221 | writes the negated flag; only a successful write changes the local row, and only its `is_active`; an error keeps it and shows the message |
| OrganizationDetail.OrganizationDetailPage.HandleChangePlan | src/pages/OrganizationDetail.tsx:223-271 | nothing without an organization and a choice; an unknown plan stops before any write; the history row is inserted exactly after a successful plan update; the dialog closes and the choice clears exactly when both writes succeed |
| SubscriptionBadge.DaysRemaining | src/components/SubscriptionBadge.tsx:68-70 | the day count is the ceiling of the remaining milliseconds over one day: the remaining time lies in the half-open interval ending at that many days |
| SubscriptionBadge.IsExpired | src/components/SubscriptionBadge.tsx:146 | no days left; `ExpiredIffPastEnd` proves this is exactly an end not after now |
| SubscriptionBadge.IsExpiringSoon | src/components/SubscriptionBadge.tsx:145 | one to seven days left; `ExpiringSoonWindow` proves this is exactly an end within seven days after now, and `ExclusiveWarnings` that it never holds together with expiry |
| SubscriptionBadge.ExpiredIffPastEnd | src/components/SubscriptionBadge.tsx:146 | the subscription reads as expired exactly when its end is not after the current time |
| SubscriptionBadge.ExpiringSoonWindow | src/components/SubscriptionBadge.tsx:145 | it reads as expiring soon exactly when the end lies after now and at most seven days ahead |
| SubscriptionBadge.ExclusiveWarnings | src/components/SubscriptionBadge.tsx:145-146 | a day count is never both expired and expiring soon |
| SubscriptionBadge.PlanColor | src/components/SubscriptionBadge.tsx:88-96 | blue, purple and yellow for basic, pro and enterprise; gray exactly for the free plan and any unknown plan |
| SubscriptionBadge.PlanFeatures | src/components/SubscriptionBadge.tsx:98-133 | an empty list exactly for an unknown plan; four, five, seven and seven features for free, basic, pro and enterprise, the enterprise list carrying the "Semua Fitur Pro" label |
| SubscriptionBadge.LoadSubscription | src/components/SubscriptionBadge.tsx:37-86 | a subscription exactly when there is a user, a non-empty organization id, the organization row and its latest history row; its plan, name, payment status and end come from those rows and its day count from the end date |
| SubscriptionBadge.Render | src/components/SubscriptionBadge.tsx:143-265 | nothing while loading or without a subscription; a day badge exactly for non-free plans, reading Expired exactly when no day is left; the warning and the expired notice never together; the upgrade card for every plan but enterprise |
| SubscriptionBadge.ThreeDaysLeft | src/components/SubscriptionBadge.tsx:67-79 | a paid pro subscription ending in exactly three days shows the purple badge, "3d", paid and the expiring warning |
| SubscriptionBadge.FreePlanExpired | src/components/SubscriptionBadge.tsx:160-164 | an expired free plan shows no day badge but still the expired notice |
| OrganizationContext.DefaultFeatureKeys | src/contexts/OrganizationContext.tsx:90-105 | the default feature object has the same fourteen keys as the feature preset written at signup |
| OrganizationContext.DefaultFeaturesAgainstSignup | src/contexts/OrganizationContext.tsx:90-105 | the default features are the signup base preset with GPS tracking, barcode scanner and email notifications switched on, and only those |
| OrganizationContext.Resolve | src/contexts/OrganizationContext.tsx:173-182 | the settings of a loaded row with the built-in defaults, whose per-field choice `ResolveWith` states |
| OrganizationContext.ResolveWith | src/contexts/OrganizationContext.tsx:173-182 | each of the four sections is the row's value when it is truthy and otherwise the whole default section; the id and name come from the row |
| OrganizationContext.NoPerFieldMerge | src/contexts/OrganizationContext.tsx:176 | a stored branding that names only the app keeps only that key: no colour is filled in from the defaults |
| OrganizationContext.ReturnPluralOnlyInDefaults | src/contexts/OrganizationContext.tsx:84 | `return_plural` is in the default terminology but not among the terminology keys signup writes |
| OrganizationContext.SignupProvisionedSettings | src/contexts/OrganizationContext.tsx:176-179 | an organization provisioned at signup keeps its empty dashboard layout instead of the default one, and its terminology has no `return_plural`, whatever the defaults are |
| OrganizationContext.ApplyBranding | src/contexts/OrganizationContext.tsx:199-216 | both colours are always written; the title exactly when the app name is truthy, and then to it; the favicon exactly when its URL is truthy and the page has an icon link, and then to it |
| OrganizationContext.SignupBrandingEffect | src/contexts/OrganizationContext.tsx:205-215 | the branding written at signup sets the title to "BK POS" and never touches the favicon |
| OrganizationContext.UseOrganization | src/contexts/OrganizationContext.tsx:118-124 | the defaults without a context value, the context value otherwise |
| OrganizationContext.OrganizationProvider.constructor | src/contexts/OrganizationContext.tsx:131-132 | the provider starts on the defaults, loading, with nothing cached or applied |
| OrganizationContext.OrganizationProvider.LoadOrganizationSettings | src/contexts/OrganizationContext.tsx:138-197 | loading always ends; without a user, an organization id or a row, or on a query error, nothing else changes; with a row, the settings are resolved from it, cached and their branding applied |
| OrganizationSettings.WithSection | src/pages/OrganizationSettings.tsx:139-176 | the chosen section is replaced and the four others are kept |
| OrganizationSettings.SetKey | src/pages/OrganizationSettings.tsx:141 | the spread object gains the key with the new value; its other keys keep their values; no other key appears |
| OrganizationSettings.Update | src/pages/OrganizationSettings.tsx:138-164 | one key of one section gets the new value; every other key of that section and every other section is kept |
| OrganizationSettings.UpdateReport | src/pages/OrganizationSettings.tsx:166-177 | only the report templates change; the named report gains or sets the key, its other keys and every other report stay as they were |
| OrganizationSettings.RemoveAll | src/pages/OrganizationSettings.tsx:402 | the filtered list holds exactly the elements of the list that differ from the removed one, and is no longer |
| OrganizationSettings.RemoveAllAppend | src/pages/OrganizationSettings.tsx:402 | filtering distributes over concatenation, so the kept elements stay in order |
| OrganizationSettings.Toggle | src/pages/OrganizationSettings.tsx:400-402 | ticking appends the key at the end; unticking removes every copy; every other element stays in or out as before |
| OrganizationSettings.CurrentList | src/pages/OrganizationSettings.tsx:399 | the stored widget or chart list when there is one, otherwise the empty list |
| OrganizationSettings.ToggleListed | src/pages/OrganizationSettings.tsx:398-404 | a widget or chart checkbox changes only the dashboard layout, and in it only the one list: the layout's keys are its old keys plus that list, and every other key keeps its value |
| OrganizationSettings.Listed | src/pages/OrganizationSettings.tsx:397 | a widget or chart box is ticked exactly when its list is an array holding the key; `ToggleListedShows` states how a change moves it |
| OrganizationSettings.ToggleListedShows | src/pages/OrganizationSettings.tsx:397-403 | after a widget or chart change the box shows the new value and every other box of that list shows what it showed before |
| OrganizationSettings.ReportOptions | src/pages/OrganizationSettings.tsx:536 | each of the four reports offers four section checkboxes |
| OrganizationSettings.ToggleSectionFrom | src/pages/OrganizationSettings.tsx:542-547 | a section checkbox writes the toggled list, starting from the stored list or, when none is stored, from the given defaults; `OnlyReportKeyChanged` holds: every other section, every other report and the report's other keys (such as `enabled`) are kept |
| OrganizationSettings.DefaultSectionsAsWritten | src/pages/OrganizationSettings.tsx:586 | as written, the sales fallback list has all four options but the stock, rider and financial ones only their first three |
| OrganizationSettings.ToggleSectionAsWritten | src/pages/OrganizationSettings.tsx:584-590 | the section handler as written changes only the report's `sections` key (`OnlyReportKeyChanged`) |
| OrganizationSettings.StockUncheckDropsExpiry | src/pages/OrganizationSettings.tsx:584-590 | on a fresh stock report expiry tracking shows ticked, yet unticking current stock also unticks it |
| OrganizationSettings.ToggleSection | src/pages/OrganizationSettings.tsx:541-547 | the corrected handler falls back to every option the report shows and changes only the report's `sections` key (`OnlyReportKeyChanged`) |
| OrganizationSettings.SectionShown | src/pages/OrganizationSettings.tsx:584 | a section box is ticked when the report has no section list or the list holds the option; `StockUncheckDropsExpiry` and `ToggleSectionIndependent` state how a change moves it |
| OrganizationSettings.SectionsOf | src/pages/OrganizationSettings.tsx:541 | a report's `sections` list when it is an array, else none; `SectionShown` and `ToggleSectionFrom` state what it decides |
| OrganizationSettings.ToggleSectionIndependent | src/pages/OrganizationSettings.tsx:584-590 | with the correction, a section checkbox shows its new value and every other box of the report is left as it was shown |
| OrganizationSettings.SalesHandlerUnaffected | src/pages/OrganizationSettings.tsx:543 | for the sales report the written and corrected handlers agree on every state |
| OrganizationSettings.ReportEnabled | src/pages/OrganizationSettings.tsx:527 | a report is enabled unless its stored `enabled` is set and falsy; `DisableReport` states how the switch moves it |
| OrganizationSettings.DisableReport | src/pages/OrganizationSettings.tsx:527-532 | a report is enabled unless its flag is stored falsy; unticking the flag hides the report's sections, ticking it shows them |
| OrganizationSettings.RefreshInput | src/pages/OrganizationSettings.tsx:497 | an unparsable input and 0 both store 30; any other parsed number is stored as it is |
| OrganizationSettings.RefreshInputOfNumber | src/pages/OrganizationSettings.tsx:497-501 | typing a number stores it unless it is 0, which stores 30, so auto-refresh cannot be switched off |
| OrganizationSettings.RefreshInputCorrected | src/pages/OrganizationSettings.tsx:497-501 | an unparsable input stores 30; any parsed number, 0 included, is stored as it is |
| OrganizationSettings.RefreshInputCorrectedOfNumber | src/pages/OrganizationSettings.tsx:497-501 | typing any number, 0 included, stores that number, so 0 can switch auto-refresh off as the help text says |
| OrganizationSettings.Shown | src/pages/OrganizationSettings.tsx:496 | a field shows its stored value when truthy, otherwise the fallback |
| OrganizationSettings.ZeroIntervalShownAs30 | src/pages/OrganizationSettings.tsx:496 | an interval stored as 0 is shown as 30 |
| OrganizationSettings.DescriptionsCoverFeatures | src/pages/OrganizationSettings.tsx:698-713 | the description table covers exactly the fourteen feature keys, each text non-empty and different from the fallback |
| OrganizationSettings.FeatureDescription | src/pages/OrganizationSettings.tsx:697-715 | the fallback text exactly for a key outside the fourteen features, otherwise the table's text |
| OrganizationSettings.OrEmpty | src/pages/OrganizationSettings.tsx:82-86 | a truthy loaded section is kept, anything else becomes an empty object |
| OrganizationSettings.SettingsEditor.constructor | src/pages/OrganizationSettings.tsx:31-40 | the editor starts with no name, all five sections empty, and loading |
| OrganizationSettings.SettingsEditor.LoadSettings | src/pages/OrganizationSettings.tsx:48-98 | loading ends; the full row replaces every section with the empty fallback; when the full query fails, the settings are kept and only the name is loaded with the migration notice, or on a second failure the load-error notice is raised |
| OrganizationSettings.SettingsEditor.UpdateSection | src/pages/OrganizationSettings.tsx:138-164 | the settings become the single-key update of the section |
| OrganizationSettings.SettingsEditor.UpdateReportTemplate | src/pages/OrganizationSettings.tsx:166-177 | the settings become the single-key update of the report |
| OrganizationSettings.SettingsEditor.OnListCheckbox | src/pages/OrganizationSettings.tsx:398-404 | the settings become the toggled widget or chart list |
| OrganizationSettings.SettingsEditor.OnSectionCheckbox | src/pages/OrganizationSettings.tsx:584-590 | the settings become the corrected section toggle `ToggleSection`, not the as-written `ToggleSectionAsWritten` (see Findings) |
| OrganizationSettings.SettingsEditor.OnRefreshInput | src/pages/OrganizationSettings.tsx:497 | the refresh interval is set by the corrected input `RefreshInputCorrected` (see Findings): the parsed number, or 30 for an unparsable entry |
| OrganizationSettings.SettingsEditor.HandleSave | src/pages/OrganizationSettings.tsx:100-136 | all five sections are sent as they stand; success gives the saved notice, a failure its message or the stock text when the message is empty |
| SubscriptionPlans.DropEmpty | src/pages/ManageSubscriptionPlans.tsx:122 | the kept lines are exactly the non-empty ones, and there are no more of them than lines |
| SubscriptionPlans.ParseFeatures | src/pages/ManageSubscriptionPlans.tsx:119-122 | every saved feature is non-empty, trimmed and on one line |
| SubscriptionPlans.ParseJoin | src/pages/ManageSubscriptionPlans.tsx:106-122 | a stored list of feature lines, joined for the form and parsed back on save, is the same list |
| SubscriptionPlans.ParseFeaturesIdempotent | src/pages/ManageSubscriptionPlans.tsx:106-122 | re-opening a saved list and saving again changes nothing |
| SubscriptionPlans.NullFeaturesSaveEmpty | src/pages/ManageSubscriptionPlans.tsx:106 | a plan without a features list is saved with an empty one |
| SubscriptionPlans.ParseExample | src/pages/ManageSubscriptionPlans.tsx:119-122 | blank lines and surrounding white space are dropped |
| SubscriptionPlans.LimitInput | src/pages/ManageSubscriptionPlans.tsx:350 | an unparsable limit input and 0 both store 1; any other parsed number is stored as it is |
| SubscriptionPlans.LimitInputOfNumber | src/pages/ManageSubscriptionPlans.tsx:350 | typing a number stores it unless it is 0, which stores 1 |
| SubscriptionPlans.CardFeatures | src/pages/ManageSubscriptionPlans.tsx:244-258 | no feature block exactly for a missing or empty list; otherwise the first three features at most, and a "+N more" line exactly when there are more than three, N being the rest |
| SubscriptionPlans.FormOf | src/pages/ManageSubscriptionPlans.tsx:99-108 | the form shows the plan's features joined one per line, or nothing for a null list; see EditSaveRoundTrip |
| SubscriptionPlans.FeaturesText | src/pages/ManageSubscriptionPlans.tsx:106 | a null feature list shows as the empty text; `ParseJoin` and `NullFeaturesSaveEmpty` state how the text parses back |
| SubscriptionPlans.UpdateOf | src/pages/ManageSubscriptionPlans.tsx:126-135 | the saved features are the parsed form text; see EditSaveRoundTrip |
| SubscriptionPlans.EditSaveRoundTrip | src/pages/ManageSubscriptionPlans.tsx:97-135 | opening a plan and saving without edits writes the plan's own values, a null features list becoming an empty one |
| SubscriptionPlans.PlanManager.constructor | src/pages/ManageSubscriptionPlans.tsx:55-68 | no plans, no selection, the initial form and a closed dialog |
| SubscriptionPlans.PlanManager.FetchPlans | src/pages/ManageSubscriptionPlans.tsx:75-95 | the loaded rows replace the list; on an error the list is kept |
| SubscriptionPlans.PlanManager.HandleEdit | src/pages/ManageSubscriptionPlans.tsx:97-110 | the plan is selected, its fields copied into the form and the dialog opened |
| SubscriptionPlans.PlanManager.SetForm | src/pages/ManageSubscriptionPlans.tsx:350 | an input change replaces the form |
| SubscriptionPlans.PlanManager.HandleSave | src/pages/ManageSubscriptionPlans.tsx:112-157 | without a selected plan nothing is written; otherwise the parsed form goes to the selected plan's id, success closes the dialog, and a failure keeps it open with the error message or the stock text |
| SuperAdminDashboard.CountStatus | src/pages/SuperAdminDashboard.tsx:91-92 | the count is at most the number of organizations, and zero exactly when none has the status |
| SuperAdminDashboard.CountStatusAppend | src/pages/SuperAdminDashboard.tsx:91-92 | the status count adds up over a split of the organization list |
| SuperAdminDashboard.ActiveAndTrialBound | src/pages/SuperAdminDashboard.tsx:91-92 | active and trial organizations together are never more than all organizations |
| SuperAdminDashboard.PaidRevenue | src/pages/SuperAdminDashboard.tsx:95-100 | the revenue is 0 when no history row is paid, and a single row contributes its amount exactly when it is paid; with `PaidRevenueAppend` this makes it the sum of the amounts of the paid rows |
| SuperAdminDashboard.PaidRevenueAppend | src/pages/SuperAdminDashboard.tsx:100 | the revenue adds up over a split of the payment list |
| SuperAdminDashboard.PaidRevenueBound | src/pages/SuperAdminDashboard.tsx:95-100 | with non-negative amounts the revenue is at least every single paid amount |
| SuperAdminDashboard.PaidRevenueNonNegative | src/pages/SuperAdminDashboard.tsx:100 | with non-negative amounts the revenue is non-negative |
| SuperAdminDashboard.StatsOf | src/pages/SuperAdminDashboard.tsx:88-107 | the total is the number of organizations; active and trial are `CountStatus` of "active" and "trial", so together they never exceed the total; the revenue is `PaidRevenue` of the history rows, and 0 for a null payments answer |
| SuperAdminDashboard.CheckAccess | src/pages/SuperAdminDashboard.tsx:48-76 | the data is loaded exactly when nothing throws, there is a user and the role row is super admin; the page goes to sign-in exactly when there is no user, and otherwise home |
| SuperAdminDashboard.AdminIsSentHome | src/pages/SuperAdminDashboard.tsx:64-67 | an admin who is not a super admin is sent home |
| SuperAdminDashboard.PlanBadgeColor | src/pages/SuperAdminDashboard.tsx:132-145 | gray exactly for the free plan and any unknown plan |
| SuperAdminDashboard.PlanBadgeAgreesWithHeader | src/pages/SuperAdminDashboard.tsx:132-145 | the dashboard's plan colours agree with the header badge's on every plan |
| SuperAdminDashboard.RowView | src/pages/SuperAdminDashboard.tsx:289-316 | a row links to its organization's detail page, shows the plan colour and status badge, and the placeholder exactly for a null end date |
| SuperAdminDashboard.Render | src/pages/SuperAdminDashboard.tsx:163-289 | the spinner exactly while loading, nothing exactly for a non super admin, the empty-table message exactly for no organizations, and otherwise one row per organization in order, with the statistics |
| SuperAdminDashboard.Dashboard.constructor | src/pages/SuperAdminDashboard.tsx:34-42 | loading, not a super admin, no rows and zero statistics |
| SuperAdminDashboard.Dashboard.LoadDashboardData | src/pages/SuperAdminDashboard.tsx:78-115 | loading ends; on a query error the rows and statistics are kept, otherwise they become the loaded rows and their statistics |
| SuperAdminDashboard.Dashboard.CheckSuperAdminAccess | src/pages/SuperAdminDashboard.tsx:48-76 | a navigation leaves the state as it was; loading marks the caller super admin and then loads the data as LoadDashboardData does |
| SuperAdminDashboard.ExampleStats | src/pages/SuperAdminDashboard.tsx:88-107 | one active and one trial organization with one paid and one pending payment give totals 2, 1 and 1 and the paid amount as revenue |
| SuperAdminDashboard.ExampleRows | src/pages/SuperAdminDashboard.tsx:289-316 | the example table links each row to its organization and shows the placeholder for the missing end date |
| Migrations.ParseLine | run-all-migrations.mjs:15-20 | one `.env` line against the pattern; `ParseLineMatchesPattern` proves it accepts exactly the pattern's lines and returns the trimmed groups |
| Migrations.ParseLineMatchesPattern | run-all-migrations.mjs:15 | the line parser accepts exactly the lines the pattern matches, and then gives the trimmed text before and after the matched `=` |
| Migrations.ParseLineAt | run-all-migrations.mjs:15-18 | wherever the pattern splits a line, the parser returns that key and value, trimmed |
| Migrations.CommentLineIgnored | run-all-migrations.mjs:15 | a line starting with `#` defines nothing |
| Migrations.OneCharacterKeyIgnored | run-all-migrations.mjs:15 | a one-character key is never read, since the first group needs two characters |
| Migrations.ParseLineOfEntry | run-all-migrations.mjs:15-19 | a line `KEY=value` with a trimmed key of two or more characters and a non-empty trimmed one-line value reads back that key and value |
| Migrations.ParseLines | run-all-migrations.mjs:14-15 | one parse result per line, each the parse of that line |
| Migrations.EnvOf | run-all-migrations.mjs:14-21 | the variables the lines define; `EnvKeys` and `LastDefinitionWins` state which keys it has and that the last definition wins |
| Migrations.EnvKeys | run-all-migrations.mjs:14-21 | a variable is defined exactly when some accepted line names it |
| Migrations.LastDefinitionWins | run-all-migrations.mjs:19 | a variable's value is the one on the last line that defines it |
| Migrations.LoadEnv | run-all-migrations.mjs:12-21 | the loop over the lines builds the same variables as applying the parsed lines in order |
| Migrations.ReadConfig | run-all-migrations.mjs:23-29 | the script stops exactly when the URL or the service key is missing or empty; otherwise it uses both |
| Migrations.BlankUrlAborts | run-all-migrations.mjs:18-26 | a URL of only white space is trimmed to nothing and also stops the script |
| Migrations.NameLeTotal | run-all-migrations.mjs:45 | any two file names are ordered one way or the other |
| Migrations.NameLeTransitive | run-all-migrations.mjs:45 | the name order is transitive |
| Migrations.Insert | run-all-migrations.mjs:45 | inserting a name adds exactly that one name to the list |
| Migrations.InsertSorted | run-all-migrations.mjs:45 | inserting into a sorted list keeps it sorted |
| Migrations.SortNames | run-all-migrations.mjs:45 | the sorted names are in order and a permutation of the input |
| Migrations.SqlFiles | run-all-migrations.mjs:44 | only `.sql` names are kept, each as many times as it occurs, and nothing else appears |
| Migrations.IsSqlFile | run-all-migrations.mjs:44 | a name is a migration exactly when it ends in `.sql`; `SqlFiles` states the filter |
| Migrations.MigrationOrder | run-all-migrations.mjs:43-45 | the run order is sorted, holds only `.sql` entries of the directory, and every `.sql` entry exactly as often as it appears |
| Migrations.KeepStatements | run-all-migrations.mjs:59 | the kept chunks are exactly those that are non-empty and do not start with `--` |
| Migrations.StatementsAsWritten | run-all-migrations.mjs:56-59 | split on `;`, trim, drop empty chunks and chunks starting with `--`; `StatementsAsWrittenAreStatements`, `StatementsOfJoin` and `CommentedStatementIsLost` state what it sends |
| Migrations.StatementsAsWrittenAreStatements | run-all-migrations.mjs:56-59 | as written, every statement sent is non-empty, trimmed, free of `;` and not a comment |
| Migrations.CommentedStatementIsLost | run-all-migrations.mjs:56-59 | as written, a file holding a comment line followed by one statement sends nothing |
| Migrations.LeadingCommentLines | run-all-migrations.mjs:59 | counts the comment and blank lines a chunk starts with, stopping at the first other line |
| Migrations.Statements | run-all-migrations.mjs:56-59 | the corrected split, which strips leading comment lines from each chunk before the filter; `StatementsAreStatements` and `CommentedStatementIsKept` state what it sends |
| Migrations.StripLeadingComments | run-all-migrations.mjs:56-59 | the corrected treatment of a chunk: its leading comment and blank lines are removed before it is trimmed; `StatementsAreStatements` and `CommentedStatementIsKept` state the result |
| Migrations.StatementsAreStatements | run-all-migrations.mjs:56-59 | with the correction, every statement sent is still non-empty, trimmed, free of `;` and not a comment |
| Migrations.CommentedStatementIsKept | run-all-migrations.mjs:56-59 | with the correction, the comment line is skipped and the statement behind it is sent |
| Migrations.StatementsOfJoin | run-all-migrations.mjs:56-59 | statements joined with `;` split back into the same statements |
| Migrations.FirstThrow | run-all-migrations.mjs:61-94 | the index of the first call that throws, or the count when none does |
| Migrations.RunStatements | run-all-migrations.mjs:61-87 | the loop sends each statement with its `;` in order until a call throws, the throwing one included; it succeeds exactly when nothing throws; a warning is raised exactly for a statement whose RPC and fallback both fail |
| Migrations.ExecuteSql | run-all-migrations.mjs:53-95 | on the corrected split `Statements` (see Findings): a file succeeds exactly when no call throws; it sends the file's statements in order with their `;`, up to and including the first throw, and warns exactly where both calls fail |
| Migrations.WellAnswered | run-all-migrations.mjs:61-94 | a file carries exactly one remote answer per statement it sends, so the loop's outcomes are all given as inputs |
| Migrations.CountSucceeded | run-all-migrations.mjs:104-115 | the successes are at most the number of files |
| Migrations.AllSucceededIff | run-all-migrations.mjs:104-115 | every file succeeds exactly when none hits an exception |
| Migrations.ReplaceFirst | run-all-migrations.mjs:125 | a leading pattern is replaced, and a string without the pattern is unchanged; `ReplaceFirstAt` covers a first occurrence anywhere |
| Migrations.ReplaceFirstAt | run-all-migrations.mjs:125 | when the pattern first occurs at index `i`, the result is the text before `i`, the replacement, and the text after that occurrence: only the first occurrence is replaced |
| Migrations.DashboardLink | run-all-migrations.mjs:125 | for a URL starting with `https://` the link is `https://supabase.com/dashboard/project/` followed by the rest of the URL (the whole host, e.g. `<ref>.supabase.co`) and `/sql/new`; a URL without `https://` only gains the `/sql/new` suffix |
| Migrations.RunFile | run-all-migrations.mjs:107-109 | a file succeeds exactly when none of its calls throws |
| Migrations.RunMigrations | run-all-migrations.mjs:98-129 | the success count is the number of files without an exception, successes and failures add up to the files, the summary is all-succeeded exactly when nothing failed, and otherwise it offers the dashboard link |
| Migrations.FilesInOrder | run-all-migrations.mjs:104-107 | the files of the run, one per name and in the order of the names |
| Migrations.ModeOf | run-all-migrations.mjs:157-159 | print mode exactly when `--print` or `-p` is among the arguments |
| Migrations.RunScript | run-all-migrations.mjs:12-169 | the script stops exactly when the credentials are missing; otherwise it prints exactly in print mode; printing and running both use the sorted `.sql` order; a run counts every file once, and its success count is the number of files, in that order, whose calls never throw |

## Left out

- Remote calls are not modelled: database queries, RPCs, auth calls, `fetch` and the auth-state subscription. Their answers are parameters. The `from('_')` probe query in `executeSql` is modelled as having no effect, since its answer is never read.
- Some effects are recorded as fields rather than performed: the DOM writes of `applyBranding`, the `org_settings` entry in `localStorage`, and navigation targets.
- Timers and asynchronous ordering are not modelled: the `setTimeout` deferrals in the route guard, the page reload after a settings save, and the overlapping of concurrent callbacks. Each callback is a method called in some order; `UnmountedGuardIsFrozen` covers every order after cleanup.
- Dates and locale formatting are left out: `Date` parsing, `toLocaleDateString`, `toISOString` and `Intl.NumberFormat`. A handler that reads the clock twice is given one `now`.
- Floating point is left out:
  - prices entered through `parseFloat` are whole numbers;
  - `Number(amount)` in the revenue sum is an integer;
  - the progress-bar percentages on the organization page are not modelled.
- `Js.ParseInt` reads optional white space, a sign and decimal digits only. The `0x` prefix and other radix rules of JavaScript's `parseInt` are not modelled; the inputs concerned are number fields.
- `CreateOrganization.Lower` lowers ASCII capitals only. JavaScript's full Unicode case mapping is not modelled, so non-ASCII letters later count as separators.
- String lengths and comparisons are on Dafny characters, not UTF-16 code units. This affects the password length check and the order `.sort()` puts file names in (`Migrations.NameLe`).
- `OrganizationSettings.SetKey` treats a spread of anything but an object as `{}`. JavaScript would spread a string or an array into index keys. A widget, chart or section list that holds something other than an array is treated as absent.
- `OrganizationContext.UseOrganization` also stands for `useTerminology`, `useFeatures`, `useBranding` and `useDashboardLayout`, each of which returns one field of its result. The provider's loading screen is the `loading` field.
- `Routes.Match` is exact and case-sensitive and does not normalise a trailing slash, whereas the router ignores case by default.
- JSX markup, CSS classes other than the colour maps, icons, toasts and console output are not modelled. The warning printed for a statement that may need manual execution is the `warnings` output of `Migrations.RunStatements`.
- The `saving` flags of the settings editor and the plan manager are not modelled. Nor is the products query of the organization page, whose rows are only displayed.
- `Migrations.RunScript` does not model the banner and the SQL text that print mode writes; print mode is modelled as the order it prints.
- `Migrations.ExecuteSql` has a precondition: `WellAnswered` requires exactly one answer per statement. Each statement's possible outcomes are modelled: the RPC succeeds, the RPC fails while the fallback request succeeds or fails, or a call throws.
- `Migrations.ExecuteSql` splits a file with the corrected `Migrations.Statements`, not with the split the script uses (`Migrations.StatementsAsWritten`, see Findings). So `RunFile`, `RunMigrations` and `RunScript` run the corrected statements, and `WellAnswered` counts them.
- `OrganizationSettings.SettingsEditor.OnSectionCheckbox` applies the corrected toggle `ToggleSection`, not the handler as written (`ToggleSectionAsWritten`, see Findings).
- `OrganizationSettings.SettingsEditor.OnRefreshInput` applies the corrected input `RefreshInputCorrected`, not `parseInt(value) || 30` as written (`RefreshInput`, see Findings). The displayed value keeps its `|| 30` fallback (`ZeroIntervalShownAs30`).
- `OrganizationDetail.OrganizationDetailPage.HandleChangePlan`: reloading the page after a successful change (line 264) is a separate `LoadOrganizationData` call.
- `SubscriptionPlans.PlanManager.HandleSave`: reloading the list after a successful save is a separate `FetchPlans` call.
- `CreateOrganization.CreateOrganizationPage.constructor` does not model the error toast for a failed plan load. The state is the same as for an empty list.
- `Migrations.LoadEnv`, `Migrations.RunMigrations` and `Migrations.RunScript` assume every file read succeeds. The reads of `.env.local` (line 12), of the migrations directory (line 44), of each migration (line 107) and of each file in print mode (line 142) can throw, and none is modelled. A missing `.env.local` or migrations directory stops the script before anything runs. An unreadable migration rejects `runMigrations`: the remaining files are skipped, the rejection is only logged, and no summary is printed. In print mode the script stops at that file.
- The `.env` pattern never matches a line that ends in a carriage return, because `.` stops there. This is modelled as written, so a file with Windows line endings defines nothing.

## Findings

| source | as written | input that shows it | evidently intended | confidence | as-written member | corrected member |
|---|---|---|---|---|---|---|
| src/pages/OrganizationSettings.tsx:586 | unticking a section of a report with no stored list starts from a fallback list; for the stock, rider and financial reports that list holds only the first three of the four options, while all four were shown ticked | a fresh stock report, untick "current_stock": "expiry_tracking" is unticked as well | start from every option the report shows ticked, as the sales report does at line 543 | not executed | OrganizationSettings.StockUncheckDropsExpiry | OrganizationSettings.ToggleSectionIndependent |
| run-all-migrations.mjs:59 | after the split on `;`, a chunk that starts with `--` is dropped whole, including the statement after the comment's line break | `-- create table\nCREATE TABLE t (id int);` sends nothing | skip the comment lines and send the statement behind them | not executed | Migrations.CommentedStatementIsLost | Migrations.CommentedStatementIsKept |
| src/pages/OrganizationSettings.tsx:497 | the fallback to 30 after `parseInt(value)` applies to every falsy result, so a typed 0 becomes 30, although the help text at line 501 says 0 disables auto-refresh | type `0` into the refresh-interval input: 30 is stored | fall back to 30 only for an unparsable entry and store 0 as typed | not executed | OrganizationSettings.RefreshInputOfNumber | OrganizationSettings.RefreshInputCorrectedOfNumber |

The editor's checkbox method `OrganizationSettings.SettingsEditor.OnSectionCheckbox` uses the corrected handler. `Migrations.ExecuteSql` uses the corrected split `Migrations.Statements`. The refresh-interval input method `OrganizationSettings.SettingsEditor.OnRefreshInput` uses `RefreshInputCorrected`. The as-written versions, `ToggleSectionAsWritten`, `StatementsAsWritten` and `RefreshInput`, are kept beside them for the three findings.
