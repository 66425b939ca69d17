/** `RoleGuard`: admits a request when the route declares no roles, or when
    the role carried by the authenticated user is one of the declared ones. */
module RoleGuard {
  import opened Common

  const RoleMissing := "You do not have permission (role missing)"
  const RoleInvalid := "You do not have permission (invalid role)"

  /** The role names the guard reads off `user.role`: a string is one name,
      an array is taken as it is, an object contributes its truthy `name`;
      anything else (a number, `true`) contributes none. */
  function UserRoles(role: JsValue): (r: seq<JsValue>)
    ensures role.Str? ==> r == [role]
    ensures role.Arr? ==> r == role.items
    ensures role.Obj? ==> (r == [] <==> !role.Get("name").Truthy())
    ensures role.Obj? && r != [] ==> r == [role.Get("name")]
    ensures !(role.Str? || role.Arr? || role.Obj?) ==> r == []
  {
    match role
    case Str(_) => [role]
    case Arr(items) => items
    case Obj(_) => if role.Get("name").Truthy() then [role.Get("name")] else []
    case _ => []
  }

  /** `canActivate`. `required` is the `@Roles` metadata of the route (None
      when it has none); `user` is `request.user`. The guard never answers
      false: it admits or throws Forbidden. */
  function CanActivate(required: Option<seq<string>>, user: JsValue): (r: Outcome<bool>)
    ensures r.Ok? ==> r.value
    ensures !r.Ok? ==> r.Forbidden?
    ensures (required.None? || required.value == []) ==> r == Ok(true)
  {
    if required.None? || |required.value| == 0 then Ok(true)
    else
      var role := user.Get("role");
      if !role.Truthy() then Forbidden(RoleMissing)
      else if exists i :: 0 <= i < |required.value| && Str(required.value[i]) in UserRoles(role) then Ok(true)
      else Forbidden(RoleInvalid)
  }

  /** Independently of `UserRoles`: the user's role grants `name` when it is
      that (non-empty) string, an array holding that string, or an object
      whose `name` is that (non-empty) string. */
  predicate Grants(role: JsValue, name: string) {
    || (role == Str(name) && name != "")
    || (role.Arr? && Str(name) in role.items)
    || (role.Obj? && name != "" && role.Get("name") == Str(name))
  }

  /** On a route that declares roles, the guard admits exactly the users
      whose role grants one of them. */
  lemma {:induction false} CanActivateIff(required: seq<string>, user: JsValue)
    requires required != []
    ensures CanActivate(Some(required), user) == Ok(true)
      <==> exists i :: 0 <= i < |required| && Grants(user.Get("role"), required[i])
  {
    var role := user.Get("role");
    if CanActivate(Some(required), user) == Ok(true) {
      assert role.Truthy();
      var i :| 0 <= i < |required| && Str(required[i]) in UserRoles(role);
      assert Grants(role, required[i]);
    }
    if exists i :: 0 <= i < |required| && Grants(role, required[i]) {
      var i :| 0 <= i < |required| && Grants(role, required[i]);
      assert role.Truthy();
      assert Str(required[i]) in UserRoles(role);
    }
  }

  /** A numeric role, as a login token carries, is refused on every route
      that declares roles; a missing or zero role is refused as missing. */
  lemma NumericRoleRefused(required: seq<string>, user: JsValue, n: int)
    requires required != [] && user.Get("role") == Num(n)
    ensures n == 0 ==> CanActivate(Some(required), user) == Forbidden(RoleMissing)
    ensures n != 0 ==> CanActivate(Some(required), user) == Forbidden(RoleInvalid)
  {
  }
}
