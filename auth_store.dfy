/**
 * The auth session store: whether someone is signed in, the signed-in user
 * and the session's tenant id, set by `login`, `logout` and `setUser`.
 */
module AuthStore {
  import opened Builtins
  import opened Types

  /** One snapshot of the store's three fields. */
  datatype Session = Session(isAuthenticated: bool, user: Option<User>, tenantId: Option<string>)

  const SignedOut := Session(false, None, None)

  function AfterLogin(s: Session, u: User): (r: Session)
    ensures r.user == Some(u) && Consistent(r) && TenantTracksUser(r)
  {
    Session(true, Some(u), Some(u.tenantId))
  }

  function AfterLogout(s: Session): (r: Session)
    ensures r.user.None? && Consistent(r) && TenantTracksUser(r)
  {
    SignedOut
  }

  /** `setUser` writes only the `user` field. */
  function AfterSetUser(s: Session, u: User): (r: Session)
    ensures r.user == Some(u) && r.isAuthenticated == s.isAuthenticated && r.tenantId == s.tenantId
  {
    s.(user := Some(u))
  }

  /** Signed in exactly when a user is stored. */
  predicate Consistent(s: Session)
  {
    s.isAuthenticated <==> s.user.Some?
  }

  /** The session's tenant id is the stored user's tenant id, and both are absent together. */
  predicate TenantTracksUser(s: Session)
  {
    (s.user.None? <==> s.tenantId.None?) &&
    (s.user.Some? ==> s.tenantId == Some(s.user.value.tenantId))
  }

  /** `login` and `logout` give a consistent session whatever the session was before. */
  lemma LoginLogoutConsistent(s: Session, u: User)
    ensures Consistent(AfterLogin(s, u)) && TenantTracksUser(AfterLogin(s, u))
    ensures Consistent(AfterLogout(s)) && TenantTracksUser(AfterLogout(s))
    ensures AfterLogout(s) == SignedOut
  {
  }

  /** `setUser` keeps everything but `user`, so the tenant id stays that of the signed-in user. */
  lemma SetUserKeepsSessionTenant(s: Session, u: User)
    ensures AfterSetUser(s, u).isAuthenticated == s.isAuthenticated
    ensures AfterSetUser(s, u).tenantId == s.tenantId
    ensures AfterSetUser(s, u).user == Some(u)
  {
  }

  /** `setUser` while signed out breaks "signed in iff a user is stored". */
  lemma SetUserWhileSignedOutBreaksConsistency(u: User)
    ensures Consistent(SignedOut)
    ensures !Consistent(AfterSetUser(SignedOut, u))
  {
  }

  /** `setUser` with a user of another tenant makes the tenant id diverge from the user's. */
  lemma SetUserCanDivergeTenant(s: Session, u: User)
    requires s.isAuthenticated && s.tenantId.Some? && s.tenantId.value != u.tenantId
    ensures !TenantTracksUser(AfterSetUser(s, u))
  {
  }

  /** One call on the store's API. */
  datatype Call = LoginCall(u: User) | LogoutCall | SetUserCall(u: User)

  function Apply(s: Session, c: Call): Session
  {
    match c
    case LoginCall(u) => AfterLogin(s, u)
    case LogoutCall => AfterLogout(s)
    case SetUserCall(u) => AfterSetUser(s, u)
  }

  /** The session after a run of calls. */
  function Run(s: Session, calls: seq<Call>): Session
    decreases |calls|
  {
    if calls == [] then s else Run(Apply(s, calls[0]), calls[1..])
  }

  /** A call that keeps the session consistent: anything but `setUser` while signed out. */
  predicate Guarded(s: Session, c: Call)
  {
    c.SetUserCall? ==> s.isAuthenticated
  }

  /** Every run in which `setUser` only comes while signed in keeps the session consistent. */
  predicate GuardedRun(s: Session, calls: seq<Call>)
    decreases |calls|
  {
    calls == [] || (Guarded(s, calls[0]) && GuardedRun(Apply(s, calls[0]), calls[1..]))
  }

  lemma {:induction false} GuardedRunStaysConsistent(s: Session, calls: seq<Call>)
    requires Consistent(s)
    requires GuardedRun(s, calls)
    ensures Consistent(Run(s, calls))
    decreases |calls|
  {
    if calls != [] {
      GuardedRunStaysConsistent(Apply(s, calls[0]), calls[1..]);
    }
  }

  /** A run made only of `login` and `logout` calls also keeps the tenant id tracking the user. */
  lemma {:induction false} LoginLogoutRunTracksTenant(s: Session, calls: seq<Call>)
    requires TenantTracksUser(s)
    requires forall i :: 0 <= i < |calls| ==> !calls[i].SetUserCall?
    ensures TenantTracksUser(Run(s, calls))
    decreases |calls|
  {
    if calls != [] {
      LoginLogoutRunTracksTenant(Apply(s, calls[0]), calls[1..]);
    }
  }

  /** The store. */
  class Store {
    var isAuthenticated: bool
    var user: Option<User>
    var tenantId: Option<string>

    function State(): Session
      reads this
    {
      Session(isAuthenticated, user, tenantId)
    }

    /** Signed out: not authenticated, no user, no tenant id. */
    constructor ()
      ensures State() == SignedOut
    {
      isAuthenticated := false;
      user := None;
      tenantId := None;
    }

    method Login(u: User)
      modifies this
      ensures State() == AfterLogin(old(State()), u)
    {
      isAuthenticated, user, tenantId := true, Some(u), Some(u.tenantId);
    }

    method Logout()
      modifies this
      ensures State() == AfterLogout(old(State()))
    {
      isAuthenticated, user, tenantId := false, None, None;
    }

    method SetUser(u: User)
      modifies this
      ensures State() == AfterSetUser(old(State()), u)
    {
      user := Some(u);
    }
  }
}
