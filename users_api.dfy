/**
 * The user-administration endpoints (backend/app/api/v1/users.py).  The
 * caller is the user the authentication dependency produced; the admin gate
 * runs before the query parameters are validated, as FastAPI resolves a
 * dependency that raises before it reports parameter errors.
 */
module UsersApi {
  import opened Common
  import opened UserModel
  import opened Deps
  import opened UserSchemas
  import opened UserCrud
  import opened Text

  /** The filters of `get_users`; `None` leaves a filter off. */
  datatype UserQuery = UserQuery(
    role: Option<UserRole>,
    status: Option<UserStatus>,
    organizationId: Option<int>,
    search: Option<string>)

  /** The text fields `get_users` searches: names, email and organization name. */
  predicate SearchHits(u: User, s: string)
  {
    ContainsIgnoringCase(u.firstName, s)
    || ContainsIgnoringCase(u.lastName, s)
    || ContainsIgnoringCase(u.email, s)
    || (u.organizationName.Some? && ContainsIgnoringCase(u.organizationName.value, s))
  }

  /** One row against `get_users`; an organization of 0 and an empty search count as absent. */
  predicate UserMatches(u: User, q: UserQuery)
  {
    UserCounted(u, q)
    && (q.search.None? || q.search.value == [] || SearchHits(u, q.search.value))
  }

  /** One row against `get_users_count`, which has no search. */
  predicate UserCounted(u: User, q: UserQuery)
  {
    (q.role.None? || u.role == q.role.value)
    && (q.status.None? || u.status == q.status.value)
    && (!Truthy(q.organizationId) || u.organizationId == q.organizationId)
  }

  function SelectUsers(users: map<nat, User>, q: UserQuery): (ids: set<nat>)
    ensures forall k :: k in ids <==> k in users && UserMatches(users[k], q)
  {
    set k | k in users && UserMatches(users[k], q)
  }

  function CountUsers(users: map<nat, User>, q: UserQuery): (ids: set<nat>)
    ensures forall k :: k in ids <==> k in users && UserCounted(users[k], q)
  {
    set k | k in users && UserCounted(users[k], q)
  }

  /** Lines 83-84: anyone but a super admin has the organization filter replaced by their own. */
  function PinnedQuery(caller: User, q: UserQuery): (r: UserQuery)
    ensures caller.role == SuperAdmin ==> r == q
    ensures caller.role != SuperAdmin ==> r.organizationId == caller.organizationId
    ensures r.role == q.role && r.status == q.status && r.search == q.search
  {
    if caller.role != SuperAdmin then q.(organizationId := caller.organizationId) else q
  }

  /** The body of `list_users`, with the listed ids before ordering and paging. */
  datatype UserPage = UserPage(ids: set<nat>, total: nat, page: nat, perPage: nat, pages: nat)

  function ListUsers(users: map<nat, User>, caller: User, skip: int, limit: int, q: UserQuery): (r: Result<UserPage>)
    ensures r.Fail? <==> !IsAdmin(caller.role) || skip < 0 || limit < 1 || limit > 1000
    ensures !IsAdmin(caller.role) ==> r == Fail(Forbidden)
    ensures IsAdmin(caller.role) && r.Fail? ==> r == Fail(Unprocessable)
    ensures r.Ok? ==> r.value.ids == SelectUsers(users, PinnedQuery(caller, q))
    ensures r.Ok? ==> r.value.total == |CountUsers(users, PinnedQuery(caller, q))|
    ensures r.Ok? ==> r.value.perPage == limit && r.value.page >= 1
    ensures r.Ok? ==> (r.value.page - 1) * limit <= skip < r.value.page * limit
    ensures r.Ok? ==> (r.value.pages - 1) * limit < r.value.total <= r.value.pages * limit
                      || (r.value.total == 0 && r.value.pages == 0)
  {
    if ApplyGate(AdminGate, caller).Fail? then Fail(Forbidden)
    else if skip < 0 || limit < 1 || limit > 1000 then Fail(Unprocessable)
    else
      var q' := PinnedQuery(caller, q);
      var total := |CountUsers(users, q')|;
      Ok(UserPage(SelectUsers(users, q'), total, PageNumber(skip, limit), limit, PageCount(total, limit)))
  }

  /**
   * A client admin who belongs to an organization lists only that
   * organization's users, whatever organization filter was asked for, and
   * never more users than the reported total.
   */
  lemma ListingPinnedToOwnOrganization(users: map<nat, User>, caller: User, skip: int, limit: int, q: UserQuery)
    requires caller.role == ClientAdmin && Truthy(caller.organizationId)
    requires ListUsers(users, caller, skip, limit, q).Ok?
    ensures forall k :: k in ListUsers(users, caller, skip, limit, q).value.ids ==>
              users[k].organizationId == caller.organizationId
    ensures |ListUsers(users, caller, skip, limit, q).value.ids| <= ListUsers(users, caller, skip, limit, q).value.total
  {
    var q' := PinnedQuery(caller, q);
    assert SelectUsers(users, q') <= CountUsers(users, q');
    SubsetCardinality(SelectUsers(users, q'), CountUsers(users, q'));
  }

  /**
   * The pin uses Python truthiness: a client admin with no organization gets
   * no organization filter at all, and so lists users of every organization.
   */
  lemma UnaffiliatedAdminIsNotPinned(users: map<nat, User>, caller: User, skip: int, limit: int, q: UserQuery)
    requires caller.role == ClientAdmin && caller.organizationId.None?
    requires ListUsers(users, caller, skip, limit, q).Ok?
    ensures ListUsers(users, caller, skip, limit, q).value.ids == SelectUsers(users, q.(organizationId := None))
  {
  }

  /** `get_user_by_id`: admin gate, then 404, then 403 across organizations. */
  function GetUserById(users: map<nat, User>, caller: User, userId: nat): (r: Result<User>)
    ensures r.Ok? <==> IsAdmin(caller.role) && userId in users
                       && (caller.role == SuperAdmin || users[userId].organizationId == caller.organizationId)
    ensures r.Ok? ==> r.value == users[userId]
    ensures !IsAdmin(caller.role) ==> r == Fail(Forbidden)
    ensures IsAdmin(caller.role) && userId !in users ==> r == Fail(NotFound)
    ensures r.Fail? ==> r.error == Forbidden || r.error == NotFound
  {
    if !IsAdmin(caller.role) then Fail(Forbidden)
    else if userId !in users then Fail(NotFound)
    else if caller.role != SuperAdmin && users[userId].organizationId != caller.organizationId then Fail(Forbidden)
    else Ok(users[userId])
  }

  /** A client admin asking for an existing user of another organization gets 403. */
  lemma ForeignUserIsForbidden(users: map<nat, User>, caller: User, userId: nat)
    requires caller.role == ClientAdmin && userId in users
    requires users[userId].organizationId != caller.organizationId
    ensures GetUserById(users, caller, userId) == Fail(Forbidden)
  {
  }

  /** The guards of `admin_update_user_by_id`, in order. */
  function AdminUpdateCheck(users: map<nat, User>, caller: User, userId: nat, upd: UserAdminUpdate): (r: Result<User>)
    ensures r.Ok? <==> GetUserById(users, caller, userId).Ok?
                       && (upd.role == Some(SuperAdmin) ==> caller.role == SuperAdmin)
    ensures GetUserById(users, caller, userId).Fail? ==> r == GetUserById(users, caller, userId)
    ensures r.Ok? ==> r.value == users[userId]
    ensures r.Fail? ==> r.error == Forbidden || r.error == NotFound
  {
    match GetUserById(users, caller, userId)
    case Fail(e) => Fail(e)
    case Ok(u) =>
      if upd.role == Some(SuperAdmin) && caller.role != SuperAdmin then Fail(Forbidden)
      else Ok(u)
  }

  /**
   * Only a super admin can make anyone a super admin through this endpoint;
   * a client admin asking for it is refused with 403 even for a user of
   * their own organization.
   */
  lemma OnlySuperAdminGrantsSuperAdmin(users: map<nat, User>, caller: User, userId: nat, upd: UserAdminUpdate)
    requires upd.role == Some(SuperAdmin) && caller.role != SuperAdmin
    ensures AdminUpdateCheck(users, caller, userId, upd).Fail?
    ensures IsAdmin(caller.role) && userId in users && users[userId].organizationId == caller.organizationId
            ==> AdminUpdateCheck(users, caller, userId, upd) == Fail(Forbidden)
  {
  }

  /** `admin_update_user_by_id`. */
  method AdminUpdateUserById(s: UserStore, caller: User, userId: nat, upd: UserAdminUpdate) returns (r: Result<User>)
    requires s.Valid()
    modifies s
    ensures s.Valid()
    ensures r.Fail? <==> AdminUpdateCheck(old(s.users), caller, userId, upd).Fail?
    ensures r.Fail? ==> r == AdminUpdateCheck(old(s.users), caller, userId, upd) && s.users == old(s.users)
    ensures r.Ok? ==> r.value == ApplyAdminUpdate(old(s.users)[userId], upd)
                      && s.users == old(s.users)[userId := r.value]
  {
    var check := AdminUpdateCheck(s.users, caller, userId, upd);
    if check.Fail? {
      return Fail(check.error);
    }
    var updated := s.AdminUpdateUser(userId, upd);
    r := Ok(updated.value);
  }

  /** The guards of `deactivate_user_by_id`, in order: 403 gate, 404, 403 organization, 403 super admin, 400 self. */
  function DeactivateCheck(users: map<nat, User>, caller: User, userId: nat): (r: Result<User>)
    ensures r.Ok? <==> GetUserById(users, caller, userId).Ok?
                       && users[userId].role != SuperAdmin && users[userId].id != caller.id
    ensures GetUserById(users, caller, userId).Fail? ==> r == GetUserById(users, caller, userId)
    ensures GetUserById(users, caller, userId).Ok? && users[userId].role == SuperAdmin ==> r == Fail(Forbidden)
    ensures GetUserById(users, caller, userId).Ok? && users[userId].role != SuperAdmin && users[userId].id == caller.id
            ==> r == Fail(BadRequest)
    ensures r.Ok? ==> r.value == users[userId]
  {
    match GetUserById(users, caller, userId)
    case Fail(e) => Fail(e)
    case Ok(u) =>
      if u.role == SuperAdmin then Fail(Forbidden)
      else if u.id == caller.id then Fail(BadRequest)
      else Ok(u)
  }

  /**
   * No caller can deactivate a super admin, and no admin can deactivate
   * themselves; a super admin trying to deactivate their own account is
   * refused by the super-admin rule (403) before the self rule (400).
   */
  lemma DeactivationGuards(users: map<nat, User>, caller: User, userId: nat)
    requires userId in users && users[userId].id == userId
    ensures users[userId].role == SuperAdmin ==> DeactivateCheck(users, caller, userId).Fail?
    ensures userId == caller.id ==> DeactivateCheck(users, caller, userId).Fail?
    ensures caller.role == SuperAdmin && userId == caller.id && users[userId].role == SuperAdmin
            ==> DeactivateCheck(users, caller, userId) == Fail(Forbidden)
  {
  }

  /** `deactivate_user_by_id`: a success answers only a confirmation message. */
  method DeactivateUserById(s: UserStore, caller: User, userId: nat) returns (r: Result<()>)
    requires s.Valid()
    modifies s
    ensures s.Valid()
    ensures r.Fail? <==> DeactivateCheck(old(s.users), caller, userId).Fail?
    ensures r.Fail? ==> r.error == DeactivateCheck(old(s.users), caller, userId).error && s.users == old(s.users)
    ensures r.Ok? ==> s.users == old(s.users)[userId := Deactivate(old(s.users)[userId])]
  {
    var check := DeactivateCheck(s.users, caller, userId);
    if check.Fail? {
      return Fail(check.error);
    }
    var updated := s.DeactivateUser(userId);
    r := Ok(());
  }

  /** `update_my_profile`: the caller's own row, 404 should it have vanished. */
  method UpdateMyProfile(s: UserStore, caller: User, upd: UserUpdate) returns (r: Result<User>)
    requires s.Valid()
    modifies s
    ensures s.Valid()
    ensures r.Fail? <==> caller.id !in old(s.users)
    ensures r.Fail? ==> r == Fail(NotFound) && s.users == old(s.users)
    ensures r.Ok? ==> r.value == ApplyUserUpdate(old(s.users)[caller.id], upd)
                      && s.users == old(s.users)[caller.id := r.value]
  {
    var updated := s.UpdateUser(caller.id, upd);
    if updated.None? {
      return Fail(NotFound);
    }
    r := Ok(updated.value);
  }

  /** `get_organization_users_list`: organization access, then the organization's users. */
  function OrganizationUsers(users: map<nat, User>, caller: User, organizationId: int): (r: Result<set<nat>>)
    ensures r.Fail? <==> !CheckOrganizationAccess(organizationId, caller)
    ensures r.Fail? ==> r.error == Forbidden
    ensures r.Ok? ==> forall k :: k in r.value <==> k in users && users[k].organizationId == Some(organizationId)
  {
    match RequireOrganizationAccess(organizationId, caller)
    case Fail(e) => Fail(e)
    case Ok(_) => Ok(set k | k in users && users[k].organizationId == Some(organizationId))
  }

  /** The body of `get_user_stats`; `superAdmins` is the optional key. */
  datatype UserStats = UserStats(
    totalUsers: nat,
    activeUsers: nat,
    pendingUsers: nat,
    applicants: nat,
    professionals: nat,
    clientUsers: nat,
    clientAdmins: nat,
    superAdmins: Option<nat>)

  function RoleCount(users: map<nat, User>, role: UserRole, org: Option<int>): nat
  {
    |CountUsers(users, UserQuery(Some(role), None, org, None))|
  }

  function StatusCount(users: map<nat, User>, status: UserStatus, org: Option<int>): nat
  {
    |CountUsers(users, UserQuery(None, Some(status), org, None))|
  }

  function GetUserStats(users: map<nat, User>, caller: User): (r: Result<UserStats>)
    ensures r.Fail? <==> !IsAdmin(caller.role)
    ensures r.Fail? ==> r.error == Forbidden
    ensures r.Ok? ==> (r.value.superAdmins.Some? <==> caller.role == SuperAdmin)
    ensures r.Ok? ==> r.value.activeUsers <= r.value.totalUsers && r.value.pendingUsers <= r.value.totalUsers
    ensures r.Ok? ==> r.value.applicants + r.value.professionals + r.value.clientUsers + r.value.clientAdmins
                      <= r.value.totalUsers
    ensures r.Ok? && caller.role == SuperAdmin ==>
              r.value.totalUsers == |users|
              && r.value.applicants + r.value.professionals + r.value.clientUsers + r.value.clientAdmins
                 + r.value.superAdmins.value == r.value.totalUsers
  {
    if !IsAdmin(caller.role) then Fail(Forbidden)
    else
      var org := if caller.role == SuperAdmin then None else caller.organizationId;
      var all := CountUsers(users, UserQuery(None, None, org, None));
      StatusCountsBounded(users, org);
      RoleCountsPartition(users, org);
      UnfilteredCountIsEveryone(users);
      Ok(UserStats(
        |all|,
        StatusCount(users, Active, org),
        StatusCount(users, Pending, org),
        RoleCount(users, Applicant, org),
        RoleCount(users, Professional, org),
        RoleCount(users, ClientUser, org),
        RoleCount(users, ClientAdmin, org),
        if caller.role == SuperAdmin then Some(RoleCount(users, SuperAdmin, None)) else None))
  }

  lemma StatusCountsBounded(users: map<nat, User>, org: Option<int>)
    ensures StatusCount(users, Active, org) <= |CountUsers(users, UserQuery(None, None, org, None))|
    ensures StatusCount(users, Pending, org) <= |CountUsers(users, UserQuery(None, None, org, None))|
  {
    var all := CountUsers(users, UserQuery(None, None, org, None));
    SubsetCardinality(CountUsers(users, UserQuery(None, Some(Active), org, None)), all);
    SubsetCardinality(CountUsers(users, UserQuery(None, Some(Pending), org, None)), all);
  }

  /** The five role counts split the organization's users exactly. */
  lemma RoleCountsPartition(users: map<nat, User>, org: Option<int>)
    ensures RoleCount(users, Applicant, org) + RoleCount(users, Professional, org) + RoleCount(users, ClientUser, org)
            + RoleCount(users, ClientAdmin, org) + RoleCount(users, SuperAdmin, org)
            == |CountUsers(users, UserQuery(None, None, org, None))|
  {
    RolesCover(users, org);
    RoleSetsDisjoint(users, org, Applicant, Professional);
    RoleSetsDisjoint(users, org, Applicant, ClientUser);
    RoleSetsDisjoint(users, org, Applicant, ClientAdmin);
    RoleSetsDisjoint(users, org, Applicant, SuperAdmin);
    RoleSetsDisjoint(users, org, Professional, ClientUser);
    RoleSetsDisjoint(users, org, Professional, ClientAdmin);
    RoleSetsDisjoint(users, org, Professional, SuperAdmin);
    RoleSetsDisjoint(users, org, ClientUser, ClientAdmin);
    RoleSetsDisjoint(users, org, ClientUser, SuperAdmin);
    RoleSetsDisjoint(users, org, ClientAdmin, SuperAdmin);
    Partition5(RoleSet(users, Applicant, org), RoleSet(users, Professional, org), RoleSet(users, ClientUser, org),
               RoleSet(users, ClientAdmin, org), RoleSet(users, SuperAdmin, org));
  }

  /** Without an organization filter every user is counted. */
  lemma UnfilteredCountIsEveryone(users: map<nat, User>)
    ensures |CountUsers(users, UserQuery(None, None, None, None))| == |users|
  {
    assert CountUsers(users, UserQuery(None, None, None, None)) == users.Keys;
  }

  /** The users of one role that a stats count with organization filter `org` sees. */
  function RoleSet(users: map<nat, User>, role: UserRole, org: Option<int>): (ids: set<nat>)
    ensures |ids| == RoleCount(users, role, org)
    ensures forall k :: k in ids <==> k in users && users[k].role == role && UserCounted(users[k], UserQuery(None, None, org, None))
  {
    CountUsers(users, UserQuery(Some(role), None, org, None))
  }

  lemma RoleSetsDisjoint(users: map<nat, User>, org: Option<int>, r1: UserRole, r2: UserRole)
    requires r1 != r2
    ensures RoleSet(users, r1, org) * RoleSet(users, r2, org) == {}
  {
    assert forall k :: k in RoleSet(users, r1, org) ==> k !in RoleSet(users, r2, org);
  }

  lemma RolesCover(users: map<nat, User>, org: Option<int>)
    ensures CountUsers(users, UserQuery(None, None, org, None)) == RoleUnion(users, org)
  {
    CountedInUnion(users, org);
    UnionCounted(users, org);
    SameMembers(CountUsers(users, UserQuery(None, None, org, None)), RoleUnion(users, org));
  }

  /** The users of all five roles that a stats count with organization filter `org` sees. */
  function RoleUnion(users: map<nat, User>, org: Option<int>): set<nat>
  {
    RoleSet(users, Applicant, org) + RoleSet(users, Professional, org) + RoleSet(users, ClientUser, org)
    + RoleSet(users, ClientAdmin, org) + RoleSet(users, SuperAdmin, org)
  }

  lemma CountedInUnion(users: map<nat, User>, org: Option<int>)
    ensures forall k :: k in CountUsers(users, UserQuery(None, None, org, None)) ==> k in RoleUnion(users, org)
  {
    forall k | k in CountUsers(users, UserQuery(None, None, org, None))
      ensures k in RoleUnion(users, org)
    {
      CountedInOwnRole(users, org, k);
      match users[k].role
      case Applicant =>
      case Professional =>
      case ClientUser =>
      case ClientAdmin =>
      case SuperAdmin =>
    }
  }

  lemma UnionCounted(users: map<nat, User>, org: Option<int>)
    ensures forall k :: k in RoleUnion(users, org) ==> k in CountUsers(users, UserQuery(None, None, org, None))
  {
    forall k | k in RoleUnion(users, org)
      ensures k in CountUsers(users, UserQuery(None, None, org, None))
    {
      var r := if k in RoleSet(users, Applicant, org) then Applicant
               else if k in RoleSet(users, Professional, org) then Professional
               else if k in RoleSet(users, ClientUser, org) then ClientUser
               else if k in RoleSet(users, ClientAdmin, org) then ClientAdmin
               else SuperAdmin;
      RoleMemberCounted(users, org, r, k);
    }
  }

  lemma SameMembers(s: set<nat>, t: set<nat>)
    requires forall k :: k in s ==> k in t
    requires forall k :: k in t ==> k in s
    ensures s == t
  {
  }

  lemma CountedInOwnRole(users: map<nat, User>, org: Option<int>, k: nat)
    requires k in CountUsers(users, UserQuery(None, None, org, None))
    ensures k in users && k in RoleSet(users, users[k].role, org)
  {
  }

  lemma RoleMemberCounted(users: map<nat, User>, org: Option<int>, r: UserRole, k: nat)
    requires k in RoleSet(users, r, org)
    ensures k in CountUsers(users, UserQuery(None, None, org, None))
  {
  }

  /** Five pairwise disjoint sets: the size of their union is the sum of their sizes. */
  lemma Partition5(a: set<nat>, b: set<nat>, c: set<nat>, d: set<nat>, e: set<nat>)
    requires a * b == {} && a * c == {} && a * d == {} && a * e == {}
    requires b * c == {} && b * d == {} && b * e == {}
    requires c * d == {} && c * e == {} && d * e == {}
    ensures |a + b + c + d + e| == |a| + |b| + |c| + |d| + |e|
  {
    DisjointUnion(a, b);
    assert (a + b) * c == {};
    DisjointUnion(a + b, c);
    assert (a + b + c) * d == {};
    DisjointUnion(a + b + c, d);
    assert (a + b + c + d) * e == {};
    DisjointUnion(a + b + c + d, e);
  }

  lemma DisjointUnion(a: set<nat>, b: set<nat>)
    requires a * b == {}
    ensures |a + b| == |a| + |b|
  {
  }
}
