/**
 * User request bodies and their validators (backend/app/schemas/user.py).
 * Lengths count Unicode scalar values, as Python's `len` on `str` does.
 */
module UserSchemas {
  import opened Common
  import opened UserModel

  /** The shortest password any of the three password validators accepts. */
  const MinPasswordLength: nat := 8

  /** The shared body of the three `validate_password` validators. */
  function ValidatePassword(p: string): (r: Result<string>)
    ensures r.Ok? <==> |p| >= MinPasswordLength
    ensures r.Ok? ==> r.value == p
    ensures r.Fail? ==> r.error == Unprocessable
  {
    if |p| < MinPasswordLength then Fail(Unprocessable) else Ok(p)
  }

  /** `UserCreate`; `role` is `None` when the body leaves it out. */
  datatype UserCreate = UserCreate(
    email: string,
    firstName: string,
    lastName: string,
    password: string,
    role: Option<UserRole>)

  /** The role a new user receives: the one given, else APPLICANT. */
  function EffectiveRole(c: UserCreate): (r: UserRole)
    ensures c.role.None? ==> r == Applicant
    ensures c.role.Some? ==> r == c.role.value
  {
    if c.role.Some? then c.role.value else Applicant
  }

  function ValidateUserCreate(c: UserCreate): (r: Result<UserCreate>)
    ensures r.Ok? <==> |c.password| >= MinPasswordLength
    ensures r.Ok? ==> r.value == c
  {
    if ValidatePassword(c.password).Fail? then Fail(Unprocessable) else Ok(c)
  }

  /** `PasswordResetConfirm`. */
  datatype PasswordResetConfirm = PasswordResetConfirm(token: string, newPassword: string)

  function ValidateResetConfirm(c: PasswordResetConfirm): (r: Result<PasswordResetConfirm>)
    ensures r.Ok? <==> |c.newPassword| >= MinPasswordLength
    ensures r.Ok? ==> r.value == c
  {
    if ValidatePassword(c.newPassword).Fail? then Fail(Unprocessable) else Ok(c)
  }

  /** `ChangePassword`: only the new password is checked, never the current one. */
  datatype ChangePassword = ChangePassword(currentPassword: string, newPassword: string)

  function ValidateChangePassword(c: ChangePassword): (r: Result<ChangePassword>)
    ensures r.Ok? <==> |c.newPassword| >= MinPasswordLength
    ensures r.Ok? ==> r.value == c
  {
    if ValidatePassword(c.newPassword).Fail? then Fail(Unprocessable) else Ok(c)
  }

  /** `UserUpdate`: profile fields only; the nullable ones take `Some(None)` for an explicit null. */
  datatype UserUpdate = UserUpdate(
    firstName: Option<string>,
    lastName: Option<string>,
    phone: Option<Option<string>>,
    bio: Option<Option<string>>,
    organizationName: Option<Option<string>>,
    avatarUrl: Option<Option<string>>)

  /** `UserAdminUpdate`: role, status, flags and organization. */
  datatype UserAdminUpdate = UserAdminUpdate(
    role: Option<UserRole>,
    status: Option<UserStatus>,
    isActive: Option<bool>,
    isVerified: Option<bool>,
    organizationId: Option<Option<int>>)
}
