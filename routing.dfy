/**
 * Role-based decisions that the screens make on their own: where each screen
 * navigates for a role, and who may open a record's edit form.
 */
module Routing {
  import opened Base

  const KnownRoles: set<string> := {"admin", "vet", "owner"}

  /**
   * The dashboard of a role, as chosen after saving an animal and by the
   * vaccination list's "Dashboard" button: vet and admin have their own,
   * every other role lands on the owner dashboard.
   */
  function DashboardRoute(role: string): (r: string)
    ensures r == "/vet-dashboard" <==> role == "vet"
    ensures r == "/admin-dashboard" <==> role == "admin"
    ensures r == "/user-dashboard" <==> role != "vet" && role != "admin"
  {
    if role == "vet" then "/vet-dashboard"
    else if role == "admin" then "/admin-dashboard"
    else "/user-dashboard"
  }

  /** Where a successful login navigates: an unrecognised role is sent to sign-up. */
  function LoginRoute(role: string): (r: string)
    ensures r == "/signup" <==> role !in KnownRoles
    ensures role in KnownRoles ==> r == DashboardRoute(role)
  {
    if role == "admin" then "/admin-dashboard"
    else if role == "vet" then "/vet-dashboard"
    else if role == "owner" then "/user-dashboard"
    else "/signup"
  }

  /** Where saving the owner form navigates: an unrecognised role is sent to the login screen. */
  function RegistrationRoute(role: string): (r: string)
    ensures r == "/login" <==> role !in KnownRoles
    ensures role in KnownRoles ==> r == DashboardRoute(role)
  {
    if role == "vet" then "/vet-dashboard"
    else if role == "admin" then "/admin-dashboard"
    else if role == "owner" then "/user-dashboard"
    else "/login"
  }

  /** The three role maps agree exactly on the recognised roles and all differ on every other role. */
  lemma RoutesAgree(role: string)
    ensures LoginRoute(role) == RegistrationRoute(role) <==> role in KnownRoles
    ensures LoginRoute(role) != DashboardRoute(role) <==> role !in KnownRoles
    ensures RegistrationRoute(role) != DashboardRoute(role) <==> role !in KnownRoles
  {
  }

  /** Vets and admins act on any record. */
  predicate Privileged(user: User) {
    user.role in {"admin", "vet"}
  }

  /**
   * The edit-form gate of the animal and owner screens: the record's owning
   * account is the caller's, or the caller is a vet or an admin.
   */
  predicate MayEdit(recordOwner: Option<string>, user: User) {
    recordOwner == Some(user.userId) || Privileged(user)
  }

  /**
   * An unprivileged caller may edit exactly the records their account owns; a
   * privileged caller may edit every record, including one with no owner.
   */
  lemma MayEditCases(recordOwner: Option<string>, user: User)
    ensures !Privileged(user) ==> (MayEdit(recordOwner, user) <==> recordOwner == Some(user.userId))
    ensures Privileged(user) ==> MayEdit(recordOwner, user)
    ensures recordOwner == None ==> (MayEdit(recordOwner, user) <==> Privileged(user))
  {
  }
}
