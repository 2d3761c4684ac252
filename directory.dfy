/**
 * Reference data of the service centres and the access policy built on it:
 * locations, users (the actors) and service desks, all as values.
 */
module Directory {
  import opened Common

  type LocationId = nat
  type DeskId = nat
  type UserId = nat

  /** A public administration centre; only its identity and `active` flag matter here. */
  datatype Location = Location(id: LocationId, active: bool)

  /** A staff account. `role` is the free-text role column ("user" or "admin"). */
  datatype User = User(id: UserId, role: string, isSuperuser: bool, isActive: bool, location: Option<Location>)

  /** A service desk of one location; `deskNumber` is a label such as "Bàn 7". */
  datatype Desk = Desk(id: DeskId, location: LocationId, deskNumber: string, deskName: string, isActive: bool)

  /** Why a queue operation was refused before it changed anything. */
  datatype Rejection = NotAdmin | NotFound | Forbidden

  const AdminRole: string := "admin"

  /** `User.can_access_location`: a superuser sees every location, anyone else only their own. */
  predicate CanAccessLocation(u: User, target: LocationId) {
    u.isSuperuser || (u.location.Some? && u.location.value.id == target)
  }

  /** `User.is_admin_role`, the test behind the `admin_required` decorator. */
  predicate IsAdminRole(u: User) {
    u.role == AdminRole || u.isSuperuser
  }

  /**
   * The check the views repeat inline before touching a desk or a ticket:
   * `not user.is_superuser and target.location != user.location`.
   * It refuses exactly what the access policy refuses.
   */
  function LocationCheckDenies(u: User, target: LocationId): (deny: bool)
    ensures deny <==> !CanAccessLocation(u, target)
  {
    !u.isSuperuser && (u.location.None? || u.location.value.id != target)
  }

  /** The active locations of `all`, restricted to one identity when `only` is given. */
  function ActiveLocations(all: seq<Location>, only: Option<LocationId>): (r: seq<Location>)
    ensures forall l :: l in r <==> l in all && l.active && (only.None? || l.id == only.value)
    ensures |r| <= |all|
  {
    if all == [] then []
    else
      var rest := ActiveLocations(all[1..], only);
      assert all == [all[0]] + all[1..];
      if all[0].active && (only.None? || all[0].id == only.value) then [all[0]] + rest else rest
  }

  /**
   * `User.get_accessible_locations`: every active location for a superuser, the
   * user's own location when it is active, and nothing for a user without one.
   */
  function AccessibleLocations(u: User, all: seq<Location>): (r: seq<Location>)
    ensures forall l :: l in r <==> l in all && l.active && CanAccessLocation(u, l.id)
  {
    if u.isSuperuser then ActiveLocations(all, None)
    else if u.location.Some? then ActiveLocations(all, Some(u.location.value.id))
    else []
  }

  /** The desks of `all` that belong to one location. */
  function DesksAt(all: seq<Desk>, loc: LocationId): (r: seq<Desk>)
    ensures forall d :: d in r <==> d in all && d.location == loc
    ensures |r| <= |all|
  {
    if all == [] then []
    else
      var rest := DesksAt(all[1..], loc);
      assert all == [all[0]] + all[1..];
      if all[0].location == loc then [all[0]] + rest else rest
  }

  /**
   * The desk list of the dashboard: every desk for a superuser, otherwise the
   * desks of the user's location (none when the user has no location).
   */
  function VisibleDesks(u: User, all: seq<Desk>): (r: seq<Desk>)
    ensures forall d :: d in r <==> d in all && CanAccessLocation(u, d.location)
  {
    if u.isSuperuser then all
    else if u.location.Some? then DesksAt(all, u.location.value.id)
    else []
  }

  /** Looking a desk up by its identity (`get_object_or_404(Desk, id=...)`). */
  function FindDesk(all: seq<Desk>, id: DeskId): (r: Option<Desk>)
    ensures r.Some? ==> r.value in all && r.value.id == id
    ensures r.None? ==> forall d :: d in all ==> d.id != id
  {
    if all == [] then None
    else if all[0].id == id then Some(all[0])
    else
      assert all == [all[0]] + all[1..];
      FindDesk(all[1..], id)
  }
}
