/** The access guard wrapped around every protected view: it maps the caller's
    role row to the `isAdmin`/`isSuperAdmin` flags (failing closed), keeps the
    session, flags and loading state that the auth callbacks update, and decides
    what the view renders. */
module AccessGuard {
  import opened Wrappers

  type UserId = string

  /** The two flags the guard hands to its content. */
  datatype RoleFlags = RoleFlags(isAdmin: bool, isSuperAdmin: bool)

  const NoAccess := RoleFlags(false, false)

  /** Outcome of the `user_roles` lookup with `.maybeSingle()`: a query error, a
      thrown exception, or the row's role (`None` when there is no row). */
  datatype RoleLookup = QueryError | Thrown | Found(role: Option<string>)

  /** Outcome of `getSession()`: an error (returned or a rejected promise), or a
      session that may hold no user. */
  datatype SessionResult = SessionError | Session(user: Option<UserId>)

  /** What the guard renders. */
  datatype View =
    | Spinner
    | RedirectToAuth
    | SuperAdminDenied
    | AdminDenied
    | Content(isAdmin: bool, isSuperAdmin: bool)

  /** The flags of a role string: super admin only for "super_admin", admin for
      "admin" and "super_admin", and nothing for any other role or no role. */
  function FlagsOfRole(role: Option<string>): (f: RoleFlags)
    ensures f.isSuperAdmin <==> role == Some("super_admin")
    ensures f.isAdmin <==> role == Some("admin") || role == Some("super_admin")
  {
    RoleFlags(role == Some("admin") || role == Some("super_admin"), role == Some("super_admin"))
  }

  /** The flags `fetchIsAdmin` settles on: an error or an exception clears both. */
  function FlagsOfLookup(r: RoleLookup): (f: RoleFlags)
    ensures r.QueryError? || r.Thrown? ==> f == NoAccess
    ensures f.isSuperAdmin ==> f.isAdmin
    ensures f.isAdmin <==> r == Found(Some("admin")) || r == Found(Some("super_admin"))
    ensures f.isSuperAdmin <==> r == Found(Some("super_admin"))
  {
    match r
    case QueryError => NoAccess
    case Thrown => NoAccess
    case Found(role) => FlagsOfRole(role)
  }

  /** The render cascade: loading, then no user, then the super-admin requirement,
      then the admin requirement, and only then the content with the flags. */
  function Decide(loading: bool, signedIn: bool, requireAdmin: bool, requireSuperAdmin: bool,
                  flags: RoleFlags): (v: View)
    ensures v == Spinner <==> loading
    ensures v == RedirectToAuth <==> !loading && !signedIn
    ensures v.Content? <==>
      !loading && signedIn && (requireSuperAdmin ==> flags.isSuperAdmin) && (requireAdmin ==> flags.isAdmin)
    ensures v.Content? ==> v == Content(flags.isAdmin, flags.isSuperAdmin)
    ensures v == SuperAdminDenied <==> !loading && signedIn && requireSuperAdmin && !flags.isSuperAdmin
    ensures v == AdminDenied <==>
      !loading && signedIn && (requireSuperAdmin ==> flags.isSuperAdmin) && requireAdmin && !flags.isAdmin
  {
    if loading then Spinner
    else if !signedIn then RedirectToAuth
    else if requireSuperAdmin && !flags.isSuperAdmin then SuperAdminDenied
    else if requireAdmin && !flags.isAdmin then AdminDenied
    else Content(flags.isAdmin, flags.isSuperAdmin)
  }

  /** An admin who is not a super admin never sees a super-admin view: the guard
      shows the super-admin denial, whatever `requireAdmin` says. */
  lemma AdminOnSuperAdminView(requireAdmin: bool)
    ensures Decide(false, true, requireAdmin, true, FlagsOfRole(Some("admin"))) == SuperAdminDenied
  {
  }

  /** Failing closed: a user with no role row, a rider, a failed lookup or a thrown
      lookup is denied every admin or super-admin view, and the denial is one of
      the two placeholders (never a redirect or another page). */
  lemma {:induction false} NoElevatedRoleIsDenied(r: RoleLookup, requireAdmin: bool, requireSuperAdmin: bool)
    requires r != Found(Some("admin")) && r != Found(Some("super_admin"))
    requires requireAdmin || requireSuperAdmin
    ensures Decide(false, true, requireAdmin, requireSuperAdmin, FlagsOfLookup(r)) in {SuperAdminDenied, AdminDenied}
  {
    var f := FlagsOfLookup(r);
    assert !f.isAdmin && !f.isSuperAdmin;
  }

  /** The state of one mounted guard. `mounted` is the liveness flag that the
      effect's cleanup clears; every callback checks it before writing. */
  class ProtectedRoute {
    var user: Option<UserId>
    var flags: RoleFlags
    var loading: bool
    var mounted: bool

    /** The flags are only ever set together from one role, so super admin
        implies admin. */
    ghost predicate Valid()
      reads this
    {
      flags.isSuperAdmin ==> flags.isAdmin
    }

    /** The initial `useState` values. */
    constructor ()
      ensures Valid()
      ensures user == None && flags == NoAccess && loading && mounted
    {
      user := None;
      flags := NoAccess;
      loading := true;
      mounted := true;
    }

    /** What the guard renders for a route with the given requirements. */
    function Render(requireAdmin: bool, requireSuperAdmin: bool): View
      reads this
    {
      Decide(loading, user.Some?, requireAdmin, requireSuperAdmin, flags)
    }

    /** The `onAuthStateChange` callback: record the session's user; a session
        without a user clears both flags. A session with a user schedules a role
        lookup, whose completion is `OnRoleLookup`. */
    method OnAuthStateChange(session: Option<UserId>)
      requires Valid()
      modifies this
      ensures Valid()
      ensures mounted == old(mounted) && loading == old(loading)
      ensures !old(mounted) ==> user == old(user) && flags == old(flags)
      ensures old(mounted) ==> user == session
      ensures old(mounted) ==> flags == if session.None? then NoAccess else old(flags)
    {
      if !mounted {
        return;
      }
      user := session;
      if session.None? {
        flags := NoAccess;
      }
    }

    /** Completion of `fetchIsAdmin` scheduled by the auth callback. */
    method OnRoleLookup(r: RoleLookup)
      requires Valid()
      modifies this
      ensures Valid()
      ensures user == old(user) && loading == old(loading) && mounted == old(mounted)
      ensures flags == if old(mounted) then FlagsOfLookup(r) else old(flags)
    {
      if mounted {
        flags := FlagsOfLookup(r);
      }
    }

    /** Completion of `getSession()`. With a user, a role lookup follows, whose
        completion is `OnInitialRoleLookup`; with an error or no user, loading ends. */
    method OnSessionResult(result: SessionResult)
      requires Valid()
      modifies this
      ensures Valid()
      ensures flags == old(flags) && mounted == old(mounted)
      ensures !old(mounted) ==> user == old(user) && loading == old(loading)
      ensures old(mounted) && result.Session? ==> user == result.user
      ensures old(mounted) && result.SessionError? ==> user == old(user)
      ensures old(mounted) ==> loading == (old(loading) && result.Session? && result.user.Some?)
    {
      match result
      case SessionError =>
        if mounted {
          loading := false;
        }
      case Session(u) =>
        if mounted {
          user := u;
        }
        if u.None? && mounted {
          loading := false;
        }
    }

    /** `fetchIsAdmin(...).finally(...)` after `getSession()`: the flags are set as
        by any lookup, and then loading ends. */
    method OnInitialRoleLookup(r: RoleLookup)
      requires Valid()
      modifies this
      ensures Valid()
      ensures user == old(user) && mounted == old(mounted)
      ensures flags == if old(mounted) then FlagsOfLookup(r) else old(flags)
      ensures loading == (old(loading) && !old(mounted))
    {
      OnRoleLookup(r);
      if mounted {
        loading := false;
      }
    }

    /** The effect's cleanup. */
    method Unmount()
      modifies this
      ensures !mounted
      ensures user == old(user) && flags == old(flags) && loading == old(loading)
    {
      mounted := false;
    }
  }

  /** After cleanup, no callback changes the guard's state, in any order. */
  method UnmountedGuardIsFrozen(g: ProtectedRoute, session: Option<UserId>, r: RoleLookup, s: SessionResult)
    requires g.Valid() && !g.mounted
    modifies g
    ensures g.user == old(g.user) && g.flags == old(g.flags) && g.loading == old(g.loading) && !g.mounted
  {
    g.OnAuthStateChange(session);
    g.OnRoleLookup(r);
    g.OnSessionResult(s);
    g.OnInitialRoleLookup(r);
  }

  /** A fresh guard whose session has a rider ends up denying admin views and
      showing session-only views, with both flags false. */
  method RiderSessionScenario(uid: UserId)
  {
    var g := new ProtectedRoute();
    assert g.Render(false, false) == Spinner;
    g.OnSessionResult(Session(Some(uid)));
    assert g.Render(true, false) == Spinner;
    g.OnInitialRoleLookup(Found(Some("rider")));
    assert g.Render(true, false) == AdminDenied;
    assert g.Render(false, true) == SuperAdminDenied;
    assert g.Render(false, false) == Content(false, false);
    g.OnAuthStateChange(None);
    assert g.Render(false, false) == RedirectToAuth;
  }
}
