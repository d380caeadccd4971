/**
 * The user table and its CRUD operations (backend/app/crud/user.py).
 * Password hashing is outside the model: whether a password matches a
 * stored hash is a predicate the caller supplies.
 */
module UserCrud {
  import opened Common
  import opened UserModel
  import opened UserSchemas

  /** The one user with a given email, if any (the email column is unique). */
  ghost function UserByEmail(users: map<nat, User>, email: string): (r: Option<User>)
    requires EmailsUnique(users)
    ensures r.Some? <==> exists k :: k in users && users[k].email == email
    ensures r.Some? ==> r.value.email == email && exists k :: k in users && users[k] == r.value
  {
    if exists k :: k in users && users[k].email == email then
      var k :| k in users && users[k].email == email;
      Some(users[k])
    else None
  }

  ghost predicate EmailsUnique(users: map<nat, User>)
  {
    forall j, k :: j in users && k in users && users[j].email == users[k].email ==> j == k
  }

  /**
   * `authenticate_user`: the user with that email, provided the password
   * matches and the account is active; otherwise nothing.
   */
  ghost function Authenticate(users: map<nat, User>, email: string, password: string,
                              matches: (string, string) -> bool): (r: Option<User>)
    requires EmailsUnique(users)
    ensures r.Some? <==> UserByEmail(users, email).Some?
                         && matches(password, UserByEmail(users, email).value.passwordHash)
                         && UserByEmail(users, email).value.isActive
    ensures r.Some? ==> r.value.email == email && r.value.isActive
  {
    match UserByEmail(users, email)
    case None => None
    case Some(u) =>
      if !matches(password, u.passwordHash) then None
      else if !u.isActive then None
      else Some(u)
  }

  /** A deactivated user never authenticates, whatever the password. */
  lemma DeactivatedCannotAuthenticate(users: map<nat, User>, id: nat, password: string,
                                      matches: (string, string) -> bool)
    requires EmailsUnique(users) && id in users
    ensures EmailsUnique(users[id := Deactivate(users[id])])
    ensures Authenticate(users[id := Deactivate(users[id])], users[id].email, password, matches).None?
  {
    var users' := users[id := Deactivate(users[id])];
    assert forall k :: k in users' ==> users'[k].email == users[k].email;
    var r := UserByEmail(users', users[id].email);
    if r.Some? {
      var k :| k in users' && users'[k] == r.value;
      assert k == id;
    }
  }

  /** `update_user`: the supplied profile fields are written. */
  function ApplyUserUpdate(u: User, upd: UserUpdate): (r: User)
    ensures r.id == u.id && r.email == u.email && r.role == u.role && r.status == u.status
    ensures r.isActive == u.isActive && r.isVerified == u.isVerified
    ensures r.organizationId == u.organizationId && r.passwordHash == u.passwordHash
    ensures r.lastLogin == u.lastLogin
  {
    u.(firstName := if upd.firstName.Some? then upd.firstName.value else u.firstName,
       lastName := if upd.lastName.Some? then upd.lastName.value else u.lastName,
       phone := if upd.phone.Some? then upd.phone.value else u.phone,
       bio := if upd.bio.Some? then upd.bio.value else u.bio,
       organizationName := if upd.organizationName.Some? then upd.organizationName.value else u.organizationName,
       avatarUrl := if upd.avatarUrl.Some? then upd.avatarUrl.value else u.avatarUrl)
  }

  /** A profile update cannot change who the user is or what they may do. */
  lemma ProfileUpdateKeepsPrivileges(u: User, upd: UserUpdate)
    ensures ApplyUserUpdate(u, upd).role == u.role
    ensures ApplyUserUpdate(u, upd).organizationId == u.organizationId
    ensures ApplyUserUpdate(ApplyUserUpdate(u, upd), upd) == ApplyUserUpdate(u, upd)
  {
  }

  /** `admin_update_user`: the supplied role, status, flags and organization are written. */
  function ApplyAdminUpdate(u: User, upd: UserAdminUpdate): (r: User)
    ensures r.id == u.id && r.email == u.email && r.firstName == u.firstName && r.lastName == u.lastName
    ensures r.passwordHash == u.passwordHash && r.lastLogin == u.lastLogin
    ensures upd.role.Some? ==> r.role == upd.role.value
    ensures upd.role.None? ==> r.role == u.role
  {
    u.(role := if upd.role.Some? then upd.role.value else u.role,
       status := if upd.status.Some? then upd.status.value else u.status,
       isActive := if upd.isActive.Some? then upd.isActive.value else u.isActive,
       isVerified := if upd.isVerified.Some? then upd.isVerified.value else u.isVerified,
       organizationId := if upd.organizationId.Some? then upd.organizationId.value else u.organizationId)
  }

  /** `deactivate_user` on one row. */
  function Deactivate(u: User): (r: User)
    ensures !r.isActive && r.status == Inactive
    ensures r.id == u.id && r.email == u.email && r.role == u.role && r.organizationId == u.organizationId
    ensures r.isVerified == u.isVerified && r.passwordHash == u.passwordHash
  {
    u.(isActive := false, status := Inactive)
  }

  /** `verify_user_email` on one row. */
  function VerifyEmail(u: User): (r: User)
    ensures r.isVerified && r.verificationToken.None?
    ensures r.id == u.id && r.email == u.email && r.role == u.role && r.status == u.status
    ensures r.isActive == u.isActive && r.passwordHash == u.passwordHash
  {
    u.(isVerified := true, verificationToken := None)
  }

  /** Deactivating or verifying a second time changes nothing further. */
  lemma DeactivateAndVerifyIdempotent(u: User)
    ensures Deactivate(Deactivate(u)) == Deactivate(u)
    ensures VerifyEmail(VerifyEmail(u)) == VerifyEmail(u)
  {
  }

  /** The user table. */
  class UserStore {
    var users: map<nat, User>

    ghost predicate Valid()
      reads this
    {
      (forall k :: k in users ==> users[k].id == k) && EmailsUnique(users)
    }

    constructor ()
      ensures Valid() && users == map[]
    {
      users := map[];
    }

    /** `update_user`: `None`, and no change, for a missing id. */
    method UpdateUser(id: nat, upd: UserUpdate) returns (r: Option<User>)
      requires Valid()
      modifies this
      ensures Valid()
      ensures r.None? <==> id !in old(users)
      ensures r.None? ==> users == old(users)
      ensures r.Some? ==> r.value == ApplyUserUpdate(old(users)[id], upd) && users == old(users)[id := r.value]
    {
      if id !in users {
        return None;
      }
      var u := ApplyUserUpdate(users[id], upd);
      users := users[id := u];
      r := Some(u);
    }

    /** `admin_update_user`: `None`, and no change, for a missing id. */
    method AdminUpdateUser(id: nat, upd: UserAdminUpdate) returns (r: Option<User>)
      requires Valid()
      modifies this
      ensures Valid()
      ensures r.None? <==> id !in old(users)
      ensures r.None? ==> users == old(users)
      ensures r.Some? ==> r.value == ApplyAdminUpdate(old(users)[id], upd) && users == old(users)[id := r.value]
    {
      if id !in users {
        return None;
      }
      var u := ApplyAdminUpdate(users[id], upd);
      users := users[id := u];
      r := Some(u);
    }

    /** `deactivate_user`: `None`, and no change, for a missing id. */
    method DeactivateUser(id: nat) returns (r: Option<User>)
      requires Valid()
      modifies this
      ensures Valid()
      ensures r.None? <==> id !in old(users)
      ensures r.None? ==> users == old(users)
      ensures r.Some? ==> r.value == Deactivate(old(users)[id]) && users == old(users)[id := r.value]
    {
      if id !in users {
        return None;
      }
      var u := Deactivate(users[id]);
      users := users[id := u];
      r := Some(u);
    }

    /** `verify_user_email`: `None`, and no change, for a missing id. */
    method VerifyUserEmail(id: nat) returns (r: Option<User>)
      requires Valid()
      modifies this
      ensures Valid()
      ensures r.None? <==> id !in old(users)
      ensures r.None? ==> users == old(users)
      ensures r.Some? ==> r.value == VerifyEmail(old(users)[id]) && users == old(users)[id := r.value]
    {
      if id !in users {
        return None;
      }
      var u := VerifyEmail(users[id]);
      users := users[id := u];
      r := Some(u);
    }

    /** `update_last_login`: only `last_login` changes. */
    method UpdateLastLogin(id: nat, now: int) returns (r: Option<User>)
      requires Valid()
      modifies this
      ensures Valid()
      ensures r.None? <==> id !in old(users)
      ensures r.None? ==> users == old(users)
      ensures r.Some? ==> r.value == old(users)[id].(lastLogin := Some(now)) && users == old(users)[id := r.value]
    {
      if id !in users {
        return None;
      }
      var u := users[id].(lastLogin := Some(now));
      users := users[id := u];
      r := Some(u);
    }
  }
}
