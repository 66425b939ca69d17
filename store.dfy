/** The relational store the services talk to (users, companies, roles,
    invitations, refresh tokens, rate-limit rows), the outbound mailer and
    the JWT issuer. Each store primitive below is one Prisma call: it
    assigns the auto-increment id, enforces the unique indexes the services
    depend on, and leaves every other table alone. */
module Store {
  import opened Common

  // ---- status values, as the services write them --------------------------

  const StatusPending: string := "pending"
  const StatusApproved: string := "approved"
  const StatusActive: string := "active"
  /** The upper-case status `AuthService.register` writes. */
  const StatusPendingUpper: string := "PENDING"
  const InvitationAccepted: string := "accepted"
  const InvitationExpired: string := "expired"

  const RecordNotFound: string := "Record to update not found."
  const UniqueEmail: string := "Unique constraint failed on the fields: (`email`)"
  const UniqueCompanyName: string := "Unique constraint failed on the fields: (`name`)"

  // ---- rows --------------------------------------------------------------

  /** A `user` row. `password` is None for the empty string an invited
      shell account is created with; every other password is a digest. */
  datatype User = User(
    id: int,
    email: string,
    password: Option<Digest>,
    firstName: string,
    lastName: Option<string>,
    phoneNumber: Option<string>,
    profilePhotoUrl: Option<string>,
    roleId: int,
    companyId: int,
    departmentId: Option<int>,
    status: string,
    otpHash: Option<Digest>,
    otpExpiresAt: Option<int>,
    createdAt: int)

  /** The data of a `user.create` call; the store fills in `id` and
      `created_at`, and the OTP and photo columns start empty. */
  function NewUser(
    email: string, password: Option<Digest>, firstName: string,
    lastName: Option<string>, phoneNumber: Option<string>,
    roleId: int, companyId: int, departmentId: Option<int>, status: string): User
  {
    User(0, email, password, firstName, lastName, phoneNumber, None,
         roleId, companyId, departmentId, status, None, None, 0)
  }

  datatype Company = Company(
    id: int,
    name: string,
    registrationNumber: string,
    sicsCode: string,
    industry: string,
    isoCountryCode: string,
    address: string,
    country: string,
    website: string,
    contactEmail: string,
    contactPhone: string,
    status: string,
    createdBy: int,
    updatedBy: int)

  datatype Role = Role(id: int, name: string)

  datatype Invitation = Invitation(
    id: int,
    email: string,
    token: string,
    expiresAt: int,
    status: string,
    companyId: int,
    departmentId: Option<int>,
    roleId: int,
    invitedById: int)

  datatype RefreshToken = RefreshToken(token: string, userId: int, expiresAt: int)

  datatype RateRow = RateRow(hits: int, expiresAt: int)

  /** One call of `EmailService.sendEmail`. It catches every failure itself,
      so to its callers it is an effect that never throws. */
  datatype Email = Email(to: string, params: map<string, JsValue>, templateId: int)

  datatype SignedToken = SignedToken(claims: map<string, JsValue>, expiresAt: int)

  // ---- the store ---------------------------------------------------------

  /** A non-empty map has a key. */
  lemma HasKey<V>(m: map<int, V>)
    requires m != map[]
    ensures exists k :: k in m
  {
    if forall k :: k !in m {
      assert false;
    }
  }

  /** Some key of a non-empty map, which one unspecified. */
  method SomeKey<V>(m: map<int, V>) returns (k: int)
    requires m != map[]
    ensures k in m
  {
    HasKey(m);
    k :| k in m;
  }

  class Database {
    var users: map<int, User>
    /** The unique index on `user.email`. */
    var userIdByEmail: map<string, int>
    var nextUserId: int
    var companies: map<int, Company>
    var nextCompanyId: int
    /** Reference data, seeded once: roles by their unique name and by id. */
    const roles: map<string, Role>
    const rolesById: map<int, Role>
    const permissions: set<int>
    /** Invitations by their unique token. */
    var invitations: map<string, Invitation>
    var nextInvitationId: int
    var refreshTokens: map<string, RefreshToken>
    /** The `rate_limit` table, by key. */
    var rateLimit: map<string, RateRow>

    /** The store's integrity, table by table. */
    ghost predicate Valid()
      reads this
    {
      && UserIndex(users, userIdByEmail, nextUserId)
      && CompanyIds(companies, nextCompanyId)
      && RoleTables(roles, rolesById)
      && InvitationIds(invitations, nextInvitationId)
      && (forall t :: t in refreshTokens ==> refreshTokens[t].token == t)
      && (forall k :: k in rateLimit ==> rateLimit[k].hits >= 1)
    }

    /** An empty store holding only the seeded roles and permissions. */
    constructor (roles: map<string, Role>, rolesById: map<int, Role>, permissions: set<int>)
      requires forall n :: n in roles ==> roles[n].name == n && roles[n].id in rolesById
      requires forall id :: id in rolesById ==>
                 rolesById[id].id == id && rolesById[id].name in roles
                 && roles[rolesById[id].name] == rolesById[id]
      ensures Valid()
      ensures users == map[] && companies == map[] && invitations == map[]
      ensures refreshTokens == map[] && rateLimit == map[]
      ensures this.roles == roles && this.rolesById == rolesById && this.permissions == permissions
    {
      users, userIdByEmail, nextUserId := map[], map[], 1;
      companies, nextCompanyId := map[], 1;
      this.roles, this.rolesById, this.permissions := roles, rolesById, permissions;
      invitations, nextInvitationId := map[], 1;
      refreshTokens, rateLimit := map[], map[];
    }

    // ---- what a call leaves alone -----------------------------------------

    twostate predicate UsersUnchanged()
      reads this
    {
      users == old(users) && userIdByEmail == old(userIdByEmail) && nextUserId == old(nextUserId)
    }

    twostate predicate CompaniesUnchanged()
      reads this
    {
      companies == old(companies) && nextCompanyId == old(nextCompanyId)
    }

    twostate predicate InvitationsUnchanged()
      reads this
    {
      invitations == old(invitations) && nextInvitationId == old(nextInvitationId)
    }

    twostate predicate SessionsUnchanged()
      reads this
    {
      refreshTokens == old(refreshTokens) && rateLimit == old(rateLimit)
    }

    twostate predicate OnlyUsersChanged()
      reads this
    {
      CompaniesUnchanged() && InvitationsUnchanged() && SessionsUnchanged()
    }

    // ---- lookups ------------------------------------------------------------

    /** `user.findUnique({ where: { id } })`. */
    function UserById(id: int): Option<User>
      reads this
    {
      if id in users then Some(users[id]) else None
    }

    /** `user.findUnique({ where: { email } })`. */
    function UserByEmail(email: string): (r: Option<User>)
      reads this
      requires Valid()
      ensures r.Some? <==> email in userIdByEmail
      ensures r.Some? ==> r.value.email == email && r.value.id in users
                          && users[r.value.id] == r.value
      ensures r.None? ==> forall id :: id in users ==> users[id].email != email
    {
      if email in userIdByEmail then
        var id := userIdByEmail[email];
        assert users[id].id == id;
        Some(users[id])
      else None
    }

    function CompanyById(id: int): Option<Company>
      reads this
    {
      if id in companies then Some(companies[id]) else None
    }

    /** `role.findUnique({ where: { name } })`. */
    function RoleByName(name: string): Option<Role>
    {
      if name in roles then Some(roles[name]) else None
    }

    /** The role a user row refers to, as `include: { role: true }` loads it. */
    function RoleById(id: int): Option<Role>
    {
      if id in rolesById then Some(rolesById[id]) else None
    }

    predicate CompanyNameTaken(name: string)
      reads this
    {
      exists id :: id in companies && companies[id].name == name
    }

    predicate RegistrationNumberTaken(registrationNumber: string)
      reads this
    {
      exists id :: id in companies && companies[id].registrationNumber == registrationNumber
    }

    /** Another row than `id` already holds `email`. */
    predicate EmailHeldByOther(id: int, email: string)
      reads this
    {
      email in userIdByEmail && userIdByEmail[email] != id
    }

    /** `company.findFirst()` with no `orderBy`: some company, which one the
        database chooses; None exactly when there is none. */
    method FirstCompany() returns (c: Option<Company>)
      requires Valid()
      ensures c.None? <==> companies == map[]
      ensures c.Some? ==> c.value.id in companies && companies[c.value.id] == c.value
    {
      if companies == map[] {
        c := None;
      } else {
        var id := SomeKey(companies);
        c := Some(companies[id]);
      }
    }

    // ---- writes ---------------------------------------------------------------

    /** `user.create`: fails on the unique index on `email`. */
    method CreateUser(row: User, now: int) returns (r: Outcome<User>)
      requires Valid()
      modifies this
      ensures Valid()
      ensures row.email in old(userIdByEmail) ==> r == Error(UniqueEmail) && unchanged(this)
      ensures row.email !in old(userIdByEmail) ==>
        && r == Ok(row.(id := old(nextUserId), createdAt := now))
        && old(nextUserId) !in old(users)
        && users == old(users)[old(nextUserId) := r.value]
        && userIdByEmail == old(userIdByEmail)[row.email := old(nextUserId)]
        && nextUserId == old(nextUserId) + 1
      ensures OnlyUsersChanged()
    {
      if row.email in userIdByEmail {
        return Error(UniqueEmail);
      }
      var u := row.(id := nextUserId, createdAt := now);
      users := users[nextUserId := u];
      userIdByEmail := userIdByEmail[row.email := nextUserId];
      nextUserId := nextUserId + 1;
      r := Ok(u);
    }

    /** `user.update({ where: { id }, data })`, with `row` the whole new row:
        fails when the row is missing or when it takes another row's email. */
    method UpdateUser(id: int, row: User) returns (r: Outcome<User>)
      requires Valid()
      modifies this
      ensures Valid()
      ensures id !in old(users) ==> r == Error(RecordNotFound) && unchanged(this)
      ensures id in old(users) && old(EmailHeldByOther(id, row.email)) ==>
                r == Error(UniqueEmail) && unchanged(this)
      ensures id in old(users) && !old(EmailHeldByOther(id, row.email)) ==>
        && r == Ok(row.(id := id))
        && users == old(users)[id := r.value]
        && userIdByEmail == (old(userIdByEmail) - {old(users[id].email)})[row.email := id]
        && nextUserId == old(nextUserId)
      ensures OnlyUsersChanged()
    {
      if id !in users {
        return Error(RecordNotFound);
      }
      if EmailHeldByOther(id, row.email) {
        return Error(UniqueEmail);
      }
      var u := row.(id := id);
      userIdByEmail := (userIdByEmail - {users[id].email})[row.email := id];
      users := users[id := u];
      r := Ok(u);
    }

    /** `company.create`: fails on the unique index on `name`. */
    method CreateCompany(row: Company) returns (r: Outcome<Company>)
      requires Valid()
      modifies this
      ensures Valid()
      ensures old(CompanyNameTaken(row.name)) ==> r == Error(UniqueCompanyName) && unchanged(this)
      ensures !old(CompanyNameTaken(row.name)) ==>
        && r == Ok(row.(id := old(nextCompanyId)))
        && old(nextCompanyId) !in old(companies)
        && companies == old(companies)[old(nextCompanyId) := r.value]
        && nextCompanyId == old(nextCompanyId) + 1
      ensures UsersUnchanged() && InvitationsUnchanged() && SessionsUnchanged()
    {
      if CompanyNameTaken(row.name) {
        return Error(UniqueCompanyName);
      }
      var c := row.(id := nextCompanyId);
      companies := companies[nextCompanyId := c];
      nextCompanyId := nextCompanyId + 1;
      r := Ok(c);
    }

    /** `company.update({ where: { id }, data })` with `row` the new row. */
    method UpdateCompany(id: int, row: Company) returns (r: Outcome<Company>)
      requires Valid()
      modifies this
      ensures Valid()
      ensures id !in old(companies) ==> r == Error(RecordNotFound) && unchanged(this)
      ensures id in old(companies) ==>
        r == Ok(row.(id := id)) && companies == old(companies)[id := r.value]
        && nextCompanyId == old(nextCompanyId)
      ensures UsersUnchanged() && InvitationsUnchanged() && SessionsUnchanged()
    {
      if id !in companies {
        return Error(RecordNotFound);
      }
      var c := row.(id := id);
      companies := companies[id := c];
      r := Ok(c);
    }

    /** `invitation.updateMany({ where: { email, status: 'pending' },
        data: { status: 'expired' } })`. */
    method ExpirePendingInvitations(email: string)
      requires Valid()
      modifies this
      ensures Valid()
      ensures invitations.Keys == old(invitations.Keys)
      ensures forall t :: t in invitations ==>
                invitations[t] == ExpiredIfPendingFor(old(invitations[t]), email)
      ensures nextInvitationId == old(nextInvitationId)
      ensures UsersUnchanged() && CompaniesUnchanged() && SessionsUnchanged()
    {
      invitations := map t | t in invitations :: ExpiredIfPendingFor(invitations[t], email);
    }

    /** `invitation.create`; the token is a fresh UUID. */
    method CreateInvitation(row: Invitation) returns (inv: Invitation)
      requires Valid()
      requires row.token !in invitations
      modifies this
      ensures Valid()
      ensures inv == row.(id := old(nextInvitationId))
      ensures invitations == old(invitations)[row.token := inv]
      ensures nextInvitationId == old(nextInvitationId) + 1
      ensures UsersUnchanged() && CompaniesUnchanged() && SessionsUnchanged()
    {
      inv := row.(id := nextInvitationId);
      invitations := invitations[row.token := inv];
      nextInvitationId := nextInvitationId + 1;
    }

    /** `invitation.update({ where: { id }, data: { status } })`; ids are
        unique, so the row is the one under its token. */
    method SetInvitationStatus(token: string, status: string)
      requires Valid()
      requires token in invitations
      modifies this
      ensures Valid()
      ensures invitations == old(invitations)[token := old(invitations[token]).(status := status)]
      ensures nextInvitationId == old(nextInvitationId)
      ensures UsersUnchanged() && CompaniesUnchanged() && SessionsUnchanged()
    {
      invitations := invitations[token := invitations[token].(status := status)];
    }

    /** `refreshToken.create`; the token is a fresh UUID. */
    method CreateRefreshToken(row: RefreshToken)
      requires Valid()
      requires row.token !in refreshTokens
      modifies this
      ensures Valid()
      ensures refreshTokens == old(refreshTokens)[row.token := row]
      ensures rateLimit == old(rateLimit)
      ensures UsersUnchanged() && CompaniesUnchanged() && InvitationsUnchanged()
    {
      refreshTokens := refreshTokens[row.token := row];
    }

    /** Writes one `rate_limit` row; the counter only ever writes rows
        holding at least one hit. */
    method PutRateRow(key: string, row: RateRow)
      requires Valid() && row.hits >= 1
      modifies this
      ensures Valid()
      ensures rateLimit == old(rateLimit)[key := row]
      ensures refreshTokens == old(refreshTokens)
      ensures UsersUnchanged() && CompaniesUnchanged() && InvitationsUnchanged()
    {
      rateLimit := rateLimit[key := row];
    }
  }

  /** Users are keyed by their id, below the next id to assign, and the
      unique e-mail index maps each address to the one row holding it. */
  ghost predicate UserIndex(users: map<int, User>, userIdByEmail: map<string, int>, nextUserId: int) {
    && 1 <= nextUserId
    && (forall id :: id in users ==> users[id].id == id && 1 <= id < nextUserId)
    && (forall e :: e in userIdByEmail ==>
          userIdByEmail[e] in users && users[userIdByEmail[e]].email == e)
    && (forall id :: id in users ==>
          users[id].email in userIdByEmail && userIdByEmail[users[id].email] == id)
  }

  /** Companies are keyed by their id, below the next id to assign. */
  ghost predicate CompanyIds(companies: map<int, Company>, nextCompanyId: int) {
    && 1 <= nextCompanyId
    && (forall id :: id in companies ==> companies[id].id == id && 1 <= id < nextCompanyId)
  }

  /** The two role tables describe the same roles. */
  ghost predicate RoleTables(roles: map<string, Role>, rolesById: map<int, Role>) {
    && (forall n :: n in roles ==> roles[n].name == n && roles[n].id in rolesById)
    && (forall id :: id in rolesById ==>
          rolesById[id].id == id && rolesById[id].name in roles
          && roles[rolesById[id].name] == rolesById[id])
  }

  /** Invitations are keyed by their token and carry distinct ids below
      the next id to assign. */
  ghost predicate InvitationIds(invitations: map<string, Invitation>, nextInvitationId: int) {
    && 1 <= nextInvitationId
    && (forall t :: t in invitations ==>
          invitations[t].token == t && 1 <= invitations[t].id < nextInvitationId)
    && (forall t, u :: t in invitations && u in invitations && t != u ==>
          invitations[t].id != invitations[u].id)
  }

  /** The `updateMany` of invitation issuance, on one row. */
  function ExpiredIfPendingFor(inv: Invitation, email: string): (r: Invitation)
    ensures inv.email == email && inv.status == StatusPending ==> r == inv.(status := InvitationExpired)
    ensures !(inv.email == email && inv.status == StatusPending) ==> r == inv
  {
    if inv.email == email && inv.status == StatusPending then inv.(status := InvitationExpired) else inv
  }

  // ---- effects outside the store --------------------------------------------

  /** The transactional mailer: the log of every `sendEmail` call. */
  class Mailer {
    var sent: seq<Email>

    constructor ()
      ensures sent == []
    {
      sent := [];
    }

    method SendEmail(to: string, params: map<string, JsValue>, templateId: int)
      modifies this
      ensures sent == old(sent) + [Email(to, params, templateId)]
    {
      sent := sent + [Email(to, params, templateId)];
    }
  }

  /** The JWT service: every token signed with the application secret. */
  class TokenIssuer {
    var signed: map<string, SignedToken>

    constructor ()
      ensures signed == map[]
    {
      signed := map[];
    }

    /** `jwtService.sign(claims, { expiresIn: ttl })`; the new token string
        is `token`, which no earlier signature produced. */
    method Sign(claims: map<string, JsValue>, ttl: int, now: int, token: string)
      requires token !in signed
      modifies this
      ensures signed == old(signed)[token := SignedToken(claims, now + ttl)]
    {
      signed := signed[token := SignedToken(claims, now + ttl)];
    }

    /** `jwtService.verify(token)`: the claims of a token signed here that
        has not expired; None where `verify` throws. */
    function Verify(token: string, now: int): Option<map<string, JsValue>>
      reads this
    {
      if token in signed && now < signed[token].expiresAt then Some(signed[token].claims) else None
    }
  }
}
