/**
 * The FastAPI user record: roles, account status, the role-class
 * properties and the defaults a new row receives (backend/app/models/user.py).
 */
module UserModel {
  import opened Common

  datatype UserRole = SuperAdmin | ClientAdmin | ClientUser | Applicant | Professional

  datatype UserStatus = Active | Inactive | Pending | Suspended

  /** The string value of each role, as stored and as compared by several endpoints. */
  function RoleName(r: UserRole): (name: string)
    ensures |name| > 0
  {
    match r
    case SuperAdmin => "super_admin"
    case ClientAdmin => "client_admin"
    case ClientUser => "client_user"
    case Applicant => "applicant"
    case Professional => "professional"
  }

  lemma RoleNameInjective(a: UserRole, b: UserRole)
    ensures RoleName(a) == RoleName(b) ==> a == b
  {
  }

  datatype User = User(
    id: nat,
    email: string,
    firstName: string,
    lastName: string,
    phone: Option<string>,
    bio: Option<string>,
    organizationName: Option<string>,
    avatarUrl: Option<string>,
    role: UserRole,
    status: UserStatus,
    isActive: bool,
    isVerified: bool,
    organizationId: Option<int>,
    lastLogin: Option<int>,
    verificationToken: Option<string>,
    passwordHash: string)

  /** A freshly inserted user row: the column defaults apply to everything not given. */
  function NewUser(id: nat, email: string, first: string, last: string, passwordHash: string,
                   role: UserRole, organizationId: Option<int>): (u: User)
    ensures u.id == id && u.email == email && u.role == role
    ensures u.status == Pending && u.isActive && !u.isVerified
    ensures u.lastLogin == None && u.organizationId == organizationId
  {
    User(id, email, first, last, None, None, None, None, role, Pending, true, false,
         organizationId, None, None, passwordHash)
  }

  /** `full_name`: first name, one space, last name. */
  function FullName(u: User): (s: string)
    ensures |s| == |u.firstName| + 1 + |u.lastName|
    ensures s[..|u.firstName|] == u.firstName
    ensures s[|u.firstName|] == ' '
    ensures s[|u.firstName| + 1..] == u.lastName
  {
    u.firstName + " " + u.lastName
  }

  predicate IsAdmin(r: UserRole)
  {
    r == SuperAdmin || r == ClientAdmin
  }

  predicate IsClientUser(r: UserRole)
  {
    r == ClientAdmin || r == ClientUser
  }

  predicate CanManageGrants(r: UserRole)
  {
    r == SuperAdmin || r == ClientAdmin || r == ClientUser
  }

  predicate CanApplyForGrants(r: UserRole)
  {
    r == Applicant
  }

  predicate CanProvideServices(r: UserRole)
  {
    r == Professional
  }

  /**
   * How the role classes relate: managing grants is exactly being an admin or
   * a client user, a super admin is not a client user, and no role both
   * applies for and manages grants or both applies and provides services.
   */
  lemma RoleClasses(r: UserRole)
    ensures CanManageGrants(r) <==> IsAdmin(r) || IsClientUser(r)
    ensures IsAdmin(r) && IsClientUser(r) <==> r == ClientAdmin
    ensures !(r == SuperAdmin && IsClientUser(r))
    ensures !(CanApplyForGrants(r) && CanManageGrants(r))
    ensures !(CanApplyForGrants(r) && CanProvideServices(r))
    ensures !(CanProvideServices(r) && CanManageGrants(r))
  {
  }

  /**
   * The check `role in ["client_admin", "super_admin"]` written by many
   * endpoints, on the role's string value.
   */
  predicate HasAdminRoleName(r: UserRole)
  {
    RoleName(r) == "client_admin" || RoleName(r) == "super_admin"
  }

  /** The role-name admin check admits exactly the `is_admin` roles. */
  lemma AdminRoleNameIsAdmin(r: UserRole)
    ensures HasAdminRoleName(r) <==> IsAdmin(r)
  {
  }
}
