/** `UserService`: the caller's own profile, read and patched. */
module UserService {
  import opened Common
  import opened Store

  const RoleNotFound := "Role not found"
  const PermissionNotFound := "Permission not found"
  /** The store refuses a permission id that is not a number. */
  const InvalidPermissionArgument := "Argument `id` must be an Int"

  /** `UpdateMeDto`: every field optional (None when absent). */
  datatype UpdateMe = UpdateMe(
    firstName: Option<string>,
    lastName: Option<string>,
    email: Option<string>,
    phoneNumber: Option<string>,
    role: Option<string>,
    permission: Option<string>)

  /** What `findMe` selects: the profile columns with the role and company
      rows, and no password or OTP columns. */
  datatype MeView = MeView(
    id: int,
    firstName: string,
    lastName: Option<string>,
    email: string,
    phoneNumber: Option<string>,
    profilePhotoUrl: Option<string>,
    role: Option<Role>,
    company: Option<Company>)

  /** The row after the update: the four profile columns that are present
      in the request, and the role when one was resolved. */
  function Patched(u: User, dto: UpdateMe, roleId: Option<int>): (v: User)
    ensures v.firstName == (if dto.firstName.Some? then dto.firstName.value else u.firstName)
    ensures v.lastName == (if dto.lastName.Some? then dto.lastName else u.lastName)
    ensures v.email == (if dto.email.Some? then dto.email.value else u.email)
    ensures v.phoneNumber == (if dto.phoneNumber.Some? then dto.phoneNumber else u.phoneNumber)
    ensures v.roleId == (if roleId.Some? then roleId.value else u.roleId)
    ensures v.(firstName := u.firstName, lastName := u.lastName, email := u.email,
               phoneNumber := u.phoneNumber, roleId := u.roleId) == u
  {
    u.(firstName := if dto.firstName.Some? then dto.firstName.value else u.firstName,
       lastName := if dto.lastName.Some? then dto.lastName else u.lastName,
       email := if dto.email.Some? then dto.email.value else u.email,
       phoneNumber := if dto.phoneNumber.Some? then dto.phoneNumber else u.phoneNumber,
       roleId := if roleId.Some? then roleId.value else u.roleId)
  }

  /** Sending the same request twice leaves the row as the first time. */
  lemma PatchIdempotent(u: User, dto: UpdateMe, roleId: Option<int>)
    ensures Patched(Patched(u, dto, roleId), dto, roleId) == Patched(u, dto, roleId)
  {
  }

  /** The profile update leaves the id, the password, the status, the
      company, the department and the OTP columns as they were. */
  lemma PatchKeepsAccountColumns(u: User, dto: UpdateMe, roleId: Option<int>)
    ensures var v := Patched(u, dto, roleId);
      && v.id == u.id && v.password == u.password && v.status == u.status
      && v.companyId == u.companyId && v.departmentId == u.departmentId
      && v.otpHash == u.otpHash && v.otpExpiresAt == u.otpExpiresAt
  {
  }

  /** How the role and permission names of a request resolve: an absent or
      empty name is skipped; a role must exist by name, then a permission
      must parse as a number and exist. The result is the role id to set. */
  function ResolveGrants(roles: map<string, Role>, permissions: set<int>, dto: UpdateMe): (r: Outcome<Option<int>>)
    ensures r.Ok? <==>
      && (Blank(dto.role) || dto.role.value in roles)
      && (Blank(dto.permission) || (ToNumber(dto.permission.value).Some? && ToNumber(dto.permission.value).value in permissions))
    ensures r.Ok? ==> r.value == (if Blank(dto.role) then None else Some(roles[dto.role.value].id))
    ensures !Blank(dto.role) && dto.role.value !in roles ==> r == Error(RoleNotFound)
    ensures !r.Ok? ==> r.Error?
  {
    var roleId := if Blank(dto.role) then Ok(None)
                  else if dto.role.value in roles then Ok(Some(roles[dto.role.value].id))
                  else Error(RoleNotFound);
    if !roleId.Ok? then roleId
    else if Blank(dto.permission) then roleId
    else match ToNumber(dto.permission.value)
      case None => Error(InvalidPermissionArgument)
      case Some(id) => if id in permissions then roleId else Error(PermissionNotFound)
  }

  /** `PATCH /user/me` sits behind the JWT guard alone, so any signed-in
      caller who names an existing role (by a non-empty name) and no
      permission is given that role: the resolution succeeds with its id
      and the patched row carries it, whatever role the row held before. */
  lemma SelfServiceRoleChange(u: User, roles: map<string, Role>, permissions: set<int>, dto: UpdateMe, name: string)
    requires name != "" && name in roles && dto.role == Some(name) && Blank(dto.permission)
    ensures ResolveGrants(roles, permissions, dto) == Ok(Some(roles[name].id))
    ensures Patched(u, dto, ResolveGrants(roles, permissions, dto).value).roleId == roles[name].id
  {
  }

  class UserService {
    const db: Database

    constructor (db: Database)
      ensures this.db == db
    {
      this.db := db;
    }

    /** `findMe`: the caller's profile, None when the row is gone. */
    method FindMe(userId: int) returns (r: Option<MeView>)
      ensures r.None? <==> userId !in db.users
      ensures r.Some? ==>
        var u := db.users[userId];
        && r.value.id == userId && r.value.email == u.email
        && r.value.firstName == u.firstName && r.value.lastName == u.lastName
        && r.value.phoneNumber == u.phoneNumber && r.value.profilePhotoUrl == u.profilePhotoUrl
        && r.value.role == db.RoleById(u.roleId) && r.value.company == db.CompanyById(u.companyId)
    {
      if userId !in db.users {
        return None;
      }
      var u := db.users[userId];
      r := Some(MeView(userId, u.firstName, u.lastName, u.email, u.phoneNumber, u.profilePhotoUrl,
                       db.RoleById(u.roleId), db.CompanyById(u.companyId)));
    }

    /** `updateMe`: the role and permission are resolved first; then the
        row is updated, which fails when it is gone or when the new e-mail
        belongs to someone else. */
    method UpdateMe(userId: int, dto: UpdateMe) returns (r: Outcome<User>)
      requires db.Valid()
      modifies db
      ensures db.Valid()
      ensures var grants := ResolveGrants(db.roles, db.permissions, dto);
        && (!grants.Ok? ==> r == Error(grants.message) && unchanged(db))
        && (grants.Ok? && userId !in old(db.users) ==> r == Error(RecordNotFound) && unchanged(db))
        && (grants.Ok? && userId in old(db.users) ==>
              var v := Patched(old(db.users[userId]), dto, grants.value);
              && (old(db.EmailHeldByOther(userId, v.email)) ==> r == Error(UniqueEmail) && unchanged(db))
              && (!old(db.EmailHeldByOther(userId, v.email)) ==>
                    r == Ok(v) && db.users == old(db.users)[userId := v]))
      ensures db.OnlyUsersChanged()
    {
      var grants := ResolveGrants(db.roles, db.permissions, dto);
      if !grants.Ok? {
        return Error(grants.message);
      }
      if userId !in db.users {
        return Error(RecordNotFound);
      }
      var v := Patched(db.users[userId], dto, grants.value);
      r := db.UpdateUser(userId, v);
    }
  }
}
