/** `CompanyController`: the role metadata of its routes and the ownership
    checks its handlers make before delegating to the company service. The
    service calls are returned as descriptions; the service itself is not
    part of this model. */
module CompanyController {
  import opened Common
  import opened JwtStrategy

  datatype Route = FindAll | GetMyCompany | FindOne | UpdateStatus | Update

  /** The `@Roles` metadata on each route (None where there is none). */
  function RolesFor(route: Route): (r: Option<seq<string>>)
    ensures r.None? <==> route == GetMyCompany || route == FindOne
    ensures r.Some? ==> r.value != []
    ensures r.Some? ==> ("super_admin" in r.value <==> route != Update)
  {
    match route
    case FindAll => Some(["super_admin"])
    case UpdateStatus => Some(["super_admin"])
    case Update => Some(["company_esg_admin", "company_esg_subadmin"])
    case _ => None
  }

  /** The company-service call a handler makes. `FindById(None)` is a lookup
      by NaN. */
  datatype ServiceCall =
    | ListCompanies
    | FindById(id: Option<int>)
    | SetStatus(rawId: JsValue, status: string)
    | Patch(companyId: int, data: map<string, JsValue>)

  const AccessDenied := "Access denied"
  const OwnCompanyOnly := "You can only update your own company"

  /** `findAll`: every company, whoever the guard admitted. */
  function FindAllHandler(): (c: ServiceCall)
    ensures c == ListCompanies
  {
    ListCompanies
  }

  /** `getMyCompany`: the caller's own company, from the token. */
  function GetMyCompanyHandler(user: AuthUser): (c: ServiceCall)
    ensures c == FindById(Some(user.companyId))
  {
    FindById(Some(user.companyId))
  }

  /** `findOne`: a caller whose role is the string `super_admin` may read any
      company, anyone else only the one whose id equals theirs. `id` is
      `Number(id)`, None for NaN. */
  function FindOneHandler(id: Option<int>, user: AuthUser): (r: Outcome<ServiceCall>)
    ensures r.Ok? <==> user.role == Str("super_admin") || id == Some(user.companyId)
    ensures r.Ok? ==> r.value == FindById(id)
    ensures !r.Ok? ==> r == Forbidden(AccessDenied)
  {
    if user.role != Str("super_admin") && (id.None? || user.companyId != id.value) then
      Forbidden(AccessDenied)
    else
      Ok(FindById(id))
  }

  /** `updateStatus`: forwards the id as it arrived and the status. */
  function UpdateStatusHandler(id: JsValue, status: string): (c: ServiceCall)
    ensures c.SetStatus? && c.rawId == id && c.status == status
  {
    SetStatus(id, status)
  }

  /** `update`: only the caller's own company, with `updated_by` overwritten
      by the caller's id whatever the body said. */
  function UpdateHandler(id: int, dto: map<string, JsValue>, user: AuthUser): (r: Outcome<ServiceCall>)
    ensures r.Ok? <==> user.companyId == id
    ensures !r.Ok? ==> r == Forbidden(OwnCompanyOnly)
    ensures r.Ok? ==> (
      && r.value.Patch? && r.value.companyId == id
      && r.value.data.Keys == dto.Keys + {"updated_by"}
      && r.value.data["updated_by"] == Num(user.userId)
      && forall k :: k in dto && k != "updated_by" ==> r.value.data[k] == dto[k])
  {
    if user.companyId != id then Forbidden(OwnCompanyOnly)
    else Ok(Patch(id, dto["updated_by" := Num(user.userId)]))
  }

  /** A caller of another company is refused on both `findOne` and `update`
      unless their role is the string `super_admin`, which only opens
      `findOne`. */
  lemma {:induction false} CrossCompanyAccess(id: int, dto: map<string, JsValue>, user: AuthUser)
    requires user.companyId != id
    ensures FindOneHandler(Some(id), user).Ok? <==> user.role == Str("super_admin")
    ensures UpdateHandler(id, dto, user) == Forbidden(OwnCompanyOnly)
  {
  }
}
