/** The guard chain in front of the company routes: the JWT guard (token
    verification, then `JwtStrategy.validate`), then `RoleGuard` where the
    route declares roles. Joined to `login`'s token claims, it shows which
    callers a login token lets through. */
module Access {
  import opened Common
  import opened Store
  import opened JwtStrategy
  import opened RoleGuard
  import opened CompanyController
  import opened Auth

  /** What passport answers when the token does not verify. */
  const TokenRefused := "Unauthorized"

  /** The guards of `route` on a request whose bearer token verified to
      `claims` (None when it did not): the `request.user` the handler sees,
      or the refusal. */
  function Authorize(route: Route, claims: Option<map<string, JsValue>>): (r: Outcome<AuthUser>)
    ensures claims.None? ==> r == Unauthorized(TokenRefused)
    ensures claims.Some? && !Validate(claims.value).Ok? ==> r == Unauthorized(InvalidPayload)
    ensures r.Ok? <==> claims.Some? && Validate(claims.value).Ok?
                       && CanActivate(RolesFor(route), Validate(claims.value).value.AsJs()).Ok?
    ensures r.Ok? ==> r.value == Validate(claims.value).value
    ensures !r.Ok? ==> r.Unauthorized? || r.Forbidden?
  {
    if claims.None? then Unauthorized(TokenRefused)
    else
      match Validate(claims.value)
      case Ok(user) =>
        (match CanActivate(RolesFor(route), user.AsJs())
         case Ok(_) => Ok(user)
         case Forbidden(m) => Forbidden(m)
         case _ => Forbidden(RoleInvalid))
      case _ => Unauthorized(InvalidPayload)
  }

  /** A token issued by `login` carries the numeric role id, which
      `RoleGuard` never matches: every company route that declares roles
      refuses it, while the routes without roles admit it as its user. */
  lemma {:induction false} LoginTokenOnCompanyRoutes(route: Route, u: User)
    ensures RolesFor(route).Some? ==> Authorize(route, Some(AccessClaims(u))).Forbidden?
    ensures RolesFor(route).None? ==>
      Authorize(route, Some(AccessClaims(u))) == Ok(AuthUser(u.id, u.email, Num(u.roleId), u.companyId))
  {
    var user := AuthUser(u.id, u.email, Num(u.roleId), u.companyId);
    assert Validate(AccessClaims(u)) == Ok(user);
    if RolesFor(route).Some? {
      assert RolesFor(route).value != [];
      NumericRoleRefused(RolesFor(route).value, user.AsJs(), u.roleId);
    }
  }

  /** Behind a login token, `findOne`'s `super_admin` exemption never
      applies: the caller reads only the company whose id is their own. */
  lemma LoginTokenReadsOwnCompanyOnly(u: User, id: Option<int>)
    ensures var user := Authorize(FindOne, Some(AccessClaims(u))).value;
      FindOneHandler(id, user).Ok? <==> id == Some(u.companyId)
  {
    LoginTokenOnCompanyRoutes(FindOne, u);
  }

  /** The role-guarded routes do open for a token whose `role` is the role
      name, so they are closed only to the tokens `login` issues. */
  lemma NamedRoleOpensGuardedRoutes(userId: int, email: string, companyId: int)
    ensures Authorize(FindAll, Some(PayloadOf(AuthUser(userId, email, Str("super_admin"), companyId)))).Ok?
    ensures Authorize(UpdateStatus, Some(PayloadOf(AuthUser(userId, email, Str("super_admin"), companyId)))).Ok?
    ensures Authorize(Update, Some(PayloadOf(AuthUser(userId, email, Str("company_esg_admin"), companyId)))).Ok?
  {
    var admin := AuthUser(userId, email, Str("super_admin"), companyId);
    var editor := AuthUser(userId, email, Str("company_esg_admin"), companyId);
    ValidateRoundTrip(admin);
    ValidateRoundTrip(editor);
    CanActivateIff(["super_admin"], admin.AsJs());
    assert Grants(admin.AsJs().Get("role"), ["super_admin"][0]);
    CanActivateIff(["company_esg_admin", "company_esg_subadmin"], editor.AsJs());
    assert Grants(editor.AsJs().Get("role"), ["company_esg_admin", "company_esg_subadmin"][0]);
  }
}
