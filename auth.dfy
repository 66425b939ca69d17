/** `AuthService`: password login issuing an access token and a refresh
    token, self-registration into the first company, and the refresh
    lookup. */
module Auth {
  import opened Common
  import opened Store
  import opened Validators
  import opened Otp
  import opened JwtStrategy

  const UserNotFound := "User not found"
  const InvalidPassword := "Invalid password"
  const EmailInUse := "Email already in use"
  const RoleNotFound := "Role not found"
  const NoFallbackCompany := "No fallback company available"
  const InvalidRefreshToken := "Invalid refresh token"
  const WelcomeTemplate := 7
  /** The `expiresIn` the JWT module signs with: 24 hours. */
  const AccessTtl := 24 * HourMs
  /** Refresh tokens are written to expire after seven days. */
  const RefreshTtl := 7 * DayMs

  /** The row without its password: the object rest `{ password: _, ...result }`
      drops the key, which the model writes as None. */
  function WithoutPassword(u: User): (v: User)
    ensures v.password.None? && v.(password := u.password) == u
  {
    u.(password := None)
  }

  /** The check of `validateUser` on the row found by e-mail: no row, then a
      password that does not match the stored digest (an account created
      without a password matches nothing). */
  function Credentials(found: Option<User>, password: string): (r: Outcome<User>)
    ensures r.Ok? <==> found.Some? && found.value.password.Some? && Compare(password, found.value.password.value)
    ensures r.Ok? ==> r.value == WithoutPassword(found.value)
    ensures found.None? ==> r == Unauthorized(UserNotFound)
    ensures found.Some? && !r.Ok? ==> r == Unauthorized(InvalidPassword)
  {
    if found.None? then Unauthorized(UserNotFound)
    else if found.value.password.None? || !Compare(password, found.value.password.value) then Unauthorized(InvalidPassword)
    else Ok(WithoutPassword(found.value))
  }

  /** A row whose digest was made from `p` lets `p` in and nothing else. */
  lemma OnlyOwnPasswordLogsIn(u: User, p: string, q: string)
    requires u.password == Some(Hash(p))
    ensures Credentials(Some(u), p) == Ok(WithoutPassword(u))
    ensures q != p ==> Credentials(Some(u), q) == Unauthorized(InvalidPassword)
  {
    HashRoundTrip(p, q);
  }

  /** The claims of an access token: `sub`, `email`, the numeric `role` id
      and `companyId`. */
  function AccessClaims(u: User): (claims: map<string, JsValue>)
    ensures Validate(claims) == Ok(AuthUser(u.id, u.email, Num(u.roleId), u.companyId))
  {
    var claims := PayloadOf(AuthUser(u.id, u.email, Num(u.roleId), u.companyId));
    ValidateRoundTrip(AuthUser(u.id, u.email, Num(u.roleId), u.companyId));
    claims
  }

  /** `validateUser`'s answer: the row without password, with its role and
      company loaded. */
  datatype Profile = Profile(user: User, role: Option<Role>, company: Option<Company>)

  /** `login`'s answer: the two tokens and the row with its role and company
      replaced by their names. */
  datatype Session = Session(accessToken: string, refreshToken: string, user: User,
                             roleName: Option<string>, companyName: Option<string>)

  /** `refresh`: an unknown refresh token is refused; a known one yields the
      row of its user (None when that row is gone), password included. The
      token's expiry is not looked at. */
  function RefreshLookup(refreshTokens: map<string, RefreshToken>, users: map<int, User>, token: string)
      : (r: Outcome<Option<User>>)
    ensures r.Ok? <==> token in refreshTokens
    ensures !r.Ok? ==> r == Unauthorized(InvalidRefreshToken)
    ensures r.Ok? ==> (r.value.Some? <==> refreshTokens[token].userId in users)
    ensures r.Ok? && r.value.Some? ==> r.value.value == users[refreshTokens[token].userId]
  {
    if token !in refreshTokens then Unauthorized(InvalidRefreshToken)
    else if refreshTokens[token].userId in users then Ok(Some(users[refreshTokens[token].userId]))
    else Ok(None)
  }

  /** An expired refresh token works as well as a live one. */
  lemma RefreshIgnoresExpiry(refreshTokens: map<string, RefreshToken>, users: map<int, User>, token: string, expiresAt: int)
    requires token in refreshTokens
    ensures RefreshLookup(refreshTokens[token := refreshTokens[token].(expiresAt := expiresAt)], users, token)
         == RefreshLookup(refreshTokens, users, token)
  {
  }

  /** The refresh token handed out at login gives back the logged-in user's
      row, digest included, for as long as the row exists. */
  lemma LoginRefreshYieldsRow(refreshTokens: map<string, RefreshToken>, users: map<int, User>, token: string, u: User, now: int)
    requires u.id in users
    ensures RefreshLookup(refreshTokens[token := RefreshToken(token, u.id, now + RefreshTtl)], users, token)
         == Ok(Some(users[u.id]))
  {
  }

  /** The row `register` creates: upper-case `PENDING`, in the fallback
      company, with the named role and the hashed password. */
  function RegisteredRow(dto: RegisterDto, roleId: int, companyId: int): (u: User)
    ensures u.status == StatusPendingUpper && u.roleId == roleId && u.companyId == companyId
    ensures u.email == dto.email && u.password == Some(Hash(dto.password)) && u.otpHash.None?
  {
    NewUser(dto.email, Some(Hash(dto.password)), dto.firstName, dto.lastName, dto.phoneNumber,
            roleId, companyId, None, StatusPendingUpper)
  }

  class AuthService {
    const otp: OtpService
    const jwt: TokenIssuer
    /** The store and mailer are the instances the OTP service holds. */
    const db: Database := otp.db
    const mail: Mailer := otp.mail

    constructor (otp: OtpService, jwt: TokenIssuer)
      ensures this.otp == otp && this.jwt == jwt
    {
      this.otp, this.jwt := otp, jwt;
    }

    /** `validateUser`. */
    method ValidateUser(email: string, password: string) returns (r: Outcome<Profile>)
      requires db.Valid()
      ensures var checked := Credentials(db.UserByEmail(email), password);
        && (!checked.Ok? ==> r == Unauthorized(checked.message))
        && (checked.Ok? ==>
              r == Ok(Profile(checked.value, db.RoleById(checked.value.roleId), db.CompanyById(checked.value.companyId))))
    {
      var checked := Credentials(db.UserByEmail(email), password);
      if !checked.Ok? {
        return Unauthorized(checked.message);
      }
      var u := checked.value;
      r := Ok(Profile(u, db.RoleById(u.roleId), db.CompanyById(u.companyId)));
    }

    /** `login`: signs the access token and stores a refresh token for seven
        days. `accessToken` and `refreshToken` are the fresh token strings
        (the signature and `randomUUID`). */
    method Login(email: string, password: string, now: int, accessToken: string, refreshToken: string)
        returns (r: Outcome<Session>)
      requires db.Valid() && accessToken !in jwt.signed && refreshToken !in db.refreshTokens
      modifies db, jwt
      ensures db.Valid()
      ensures var checked := Credentials(old(db.UserByEmail(email)), password);
        && (!checked.Ok? ==> r == Unauthorized(checked.message) && unchanged(db) && unchanged(jwt))
        && (checked.Ok? ==>
              var u := checked.value;
              && r == Ok(Session(accessToken, refreshToken, u,
                                 if u.roleId in db.rolesById then Some(db.rolesById[u.roleId].name) else None,
                                 if u.companyId in db.companies then Some(db.companies[u.companyId].name) else None))
              && jwt.signed == old(jwt.signed)[accessToken := SignedToken(AccessClaims(u), now + AccessTtl)]
              && db.refreshTokens == old(db.refreshTokens)[refreshToken := RefreshToken(refreshToken, u.id, now + RefreshTtl)])
      ensures db.UsersUnchanged() && db.CompaniesUnchanged() && db.InvitationsUnchanged()
      ensures db.rateLimit == old(db.rateLimit)
    {
      var profile := ValidateUser(email, password);
      if !profile.Ok? {
        return Unauthorized(profile.message);
      }
      var u := profile.value.user;
      jwt.Sign(AccessClaims(u), AccessTtl, now, accessToken);
      db.CreateRefreshToken(RefreshToken(refreshToken, u.id, now + RefreshTtl));
      var roleName := if profile.value.role.Some? then Some(profile.value.role.value.name) else None;
      var companyName := if profile.value.company.Some? then Some(profile.value.company.value.name) else None;
      r := Ok(Session(accessToken, refreshToken, u, roleName, companyName));
    }

    /** `register`: refuses a known e-mail, an unknown role name and an
        empty company table, in that order; otherwise creates the account in
        some existing company (`findFirst` names no order) and mails a freshly drawn code that is
        stored nowhere. The ghost `code` is that code. */
    method Register(dto: RegisterDto, now: int) returns (r: Outcome<User>, ghost code: string)
      requires db.Valid()
      modifies db, mail
      ensures db.Valid()
      ensures dto.email in old(db.userIdByEmail) ==>
        r == Unauthorized(EmailInUse) && unchanged(db) && unchanged(mail)
      ensures dto.email !in old(db.userIdByEmail) && dto.role !in db.roles ==>
        r == Unauthorized(RoleNotFound) && unchanged(db) && unchanged(mail)
      ensures dto.email !in old(db.userIdByEmail) && dto.role in db.roles && old(db.companies) == map[] ==>
        r == Unauthorized(NoFallbackCompany) && unchanged(db) && unchanged(mail)
      ensures dto.email !in old(db.userIdByEmail) && dto.role in db.roles && old(db.companies) != map[] ==>
        && r.Ok?
        && r.value.companyId in old(db.companies)
        && var row := RegisteredRow(dto, db.roles[dto.role].id, r.value.companyId).(id := old(db.nextUserId), createdAt := now);
        && r.value == WithoutPassword(row)
        && db.users == old(db.users)[row.id := row]
        && db.userIdByEmail == old(db.userIdByEmail)[dto.email := row.id]
        && IsOtpCode(code)
        && mail.sent == old(mail.sent)
             + [Email(dto.email, map["first_name" := Str(dto.firstName), "otp" := Str(code)], WelcomeTemplate)]
      ensures db.OnlyUsersChanged()
    {
      code := "";
      if dto.email in db.userIdByEmail {
        return Unauthorized(EmailInUse), code;
      }
      var role := db.RoleByName(dto.role);
      if role.None? {
        return Unauthorized(RoleNotFound), code;
      }
      var fallback := db.FirstCompany();
      if fallback.None? {
        return Unauthorized(NoFallbackCompany), code;
      }
      var created := db.CreateUser(RegisteredRow(dto, role.value.id, fallback.value.id), now);
      var drawn := otp.GenerateOtp();
      code := drawn;
      mail.SendEmail(dto.email, map["first_name" := Str(dto.firstName), "otp" := Str(drawn)], WelcomeTemplate);
      r := Ok(WithoutPassword(created.value));
    }

    /** `refresh`. Nothing is written: the refresh token is neither rotated
        nor revoked. */
    method Refresh(token: string) returns (r: Outcome<Option<User>>)
      ensures r == RefreshLookup(db.refreshTokens, db.users, token)
    {
      if token !in db.refreshTokens {
        return Unauthorized(InvalidRefreshToken);
      }
      var stored := db.refreshTokens[token];
      r := Ok(db.UserById(stored.userId));
    }
  }
}
