/** The decision `login_view` takes on a submitted login form. */
module Login {
  import opened Common
  import opened Directory

  /** The outcome of a login attempt: one refusal message, or a session. */
  datatype LoginOutcome =
    | InvalidCredentials
    | AccountDisabled
    | NoLocationAssigned
    | LocationInactive
    | LoggedIn

  /**
   * Who may hold a session: an active account that either is a superuser or
   * has a location, and whose location, if any, is active.
   */
  predicate MayLogIn(u: User) {
    && u.isActive
    && (u.isSuperuser || u.location.Some?)
    && (u.location.Some? ==> u.location.value.active)
  }

  /**
   * The ladder of checks after `authenticate` (whose result is given, since
   * password checking is not modelled), taken in the source's order.
   */
  function Decide(authenticated: Option<User>): (o: LoginOutcome)
    ensures o == LoggedIn <==> authenticated.Some? && MayLogIn(authenticated.value)
    ensures o == InvalidCredentials <==> authenticated.None?
    ensures o == AccountDisabled <==> authenticated.Some? && !authenticated.value.isActive
    ensures o == NoLocationAssigned ==> !authenticated.value.isSuperuser && authenticated.value.location.None?
    ensures o == LocationInactive ==> authenticated.value.location.Some? && !authenticated.value.location.value.active
  {
    match authenticated
    case None => InvalidCredentials
    case Some(u) =>
      if !u.isActive then AccountDisabled
      else if !u.isSuperuser && u.location.None? then NoLocationAssigned
      else if u.location.Some? && !u.location.value.active then LocationInactive
      else LoggedIn
  }

  /** An inactive location turns away its users with correct credentials, superusers included. */
  lemma InactiveLocationRefused(u: User)
    requires u.isActive && u.location.Some? && !u.location.value.active
    ensures Decide(Some(u)) == LocationInactive
  {
  }

  /** A superuser needs no location; an active superuser without one logs in. */
  lemma SuperuserWithoutLocation(u: User)
    requires u.isActive && u.isSuperuser && u.location.None?
    ensures Decide(Some(u)) == LoggedIn
  {
  }
}
