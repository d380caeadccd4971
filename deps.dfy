/**
 * Request dependencies of the FastAPI app (backend/app/api/deps.py): who the
 * caller is, the role gates, and organization scoping.  Token decoding is
 * outside the model: a gate receives the user id the token carried, if any.
 */
module Deps {
  import opened Common
  import opened UserModel

  /**
   * `get_current_user`: a token without a subject, an unknown user and an
   * inactive user are all refused with 401.
   */
  function CurrentUser(users: map<nat, User>, subject: Option<nat>): (r: Result<User>)
    ensures r.Ok? <==> subject.Some? && subject.value in users && users[subject.value].isActive
    ensures r.Ok? ==> r.value == users[subject.value]
    ensures r.Fail? ==> r.error == Unauthorized
  {
    if subject.None? then Fail(Unauthorized)
    else if subject.value !in users then Fail(Unauthorized)
    else if !users[subject.value].isActive then Fail(Unauthorized)
    else Ok(users[subject.value])
  }

  /**
   * The body of `get_optional_current_user` once a bearer header was sent:
   * the same lookup, but every failure means "anonymous". The bearer scheme
   * in front of it is required, so a request with no header at all is
   * answered 403 before this runs; that path is modelled only by
   * `GrantsApi.GetGrantByIdAsWritten`.
   */
  function OptionalCurrentUser(users: map<nat, User>, subject: Option<nat>): (r: Option<User>)
    ensures r.Some? <==> CurrentUser(users, subject).Ok?
    ensures r.Some? ==> r.value == CurrentUser(users, subject).value
  {
    match CurrentUser(users, subject)
    case Ok(u) => Some(u)
    case Fail(_) => None
  }

  /** The role gates: each admits the caller unchanged or raises 403. */
  datatype Gate = AdminGate | SuperAdminGate | ClientUserGate | ApplicantGate | ProfessionalGate

  predicate Admits(g: Gate, r: UserRole)
  {
    match g
    case AdminGate => IsAdmin(r)
    case SuperAdminGate => r == SuperAdmin
    case ClientUserGate => IsClientUser(r)
    case ApplicantGate => r == Applicant
    case ProfessionalGate => r == Professional
  }

  function ApplyGate(g: Gate, u: User): (r: Result<User>)
    ensures r.Ok? <==> Admits(g, u.role)
    ensures r.Ok? ==> r.value == u
    ensures r.Fail? ==> r.error == Forbidden
  {
    if Admits(g, u.role) then Ok(u) else Fail(Forbidden)
  }

  /**
   * The client-user gate refuses a super admin, while the admin gate admits
   * one; so every branch written for a super admin behind the client-user
   * gate is dead code.
   */
  lemma ClientGateRefusesSuperAdmin(u: User)
    requires u.role == SuperAdmin
    ensures ApplyGate(ClientUserGate, u) == Fail(Forbidden)
    ensures ApplyGate(AdminGate, u) == Ok(u)
  {
  }

  /** `check_organization_access`. */
  function CheckOrganizationAccess(organizationId: int, u: User): (b: bool)
    ensures u.role == SuperAdmin ==> b
    ensures IsClientUser(u.role) ==> (b <==> u.organizationId == Some(organizationId))
    ensures !IsClientUser(u.role) && u.role != SuperAdmin ==> !b
  {
    if u.role == SuperAdmin then true
    else if IsClientUser(u.role) then u.organizationId == Some(organizationId)
    else false
  }

  /** `require_organization_access`: 403 exactly when the check fails. */
  function RequireOrganizationAccess(organizationId: int, u: User): (r: Result<User>)
    ensures r.Fail? <==> !CheckOrganizationAccess(organizationId, u)
    ensures r.Fail? ==> r.error == Forbidden
    ensures r.Ok? ==> r.value == u
  {
    if !CheckOrganizationAccess(organizationId, u) then Fail(Forbidden) else Ok(u)
  }

  /** Organization access is never granted to applicants or professionals. */
  lemma NoAccessOutsideStaff(organizationId: int, u: User)
    requires u.role == Applicant || u.role == Professional
    ensures RequireOrganizationAccess(organizationId, u) == Fail(Forbidden)
  {
  }

  /**
   * The `role not in ["client_admin", "super_admin"]` check that opens the
   * management endpoints of several routers: 403 unless the role is an admin role.
   */
  function AdminRoleNameGate(caller: User): (r: Result<User>)
    ensures r.Ok? <==> IsAdmin(caller.role)
    ensures r.Fail? ==> r.error == Forbidden
    ensures r.Ok? ==> r.value == caller
  {
    AdminRoleNameIsAdmin(caller.role);
    if !HasAdminRoleName(caller.role) then Fail(Forbidden) else Ok(caller)
  }
}
