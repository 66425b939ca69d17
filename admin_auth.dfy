/** `AdminAuthService`: platform-administrator sign-up with an emailed OTP,
    e-mail verification, invitation of further administrators by a signed
    link, completion of an invited account, and the filtered user list. */
module AdminAuth {
  import opened Common
  import opened Store
  import opened Otp
  import opened Validators

  const UserExists := "User already exists"
  const UserNotFound := "User not found"
  const OtpFailedPrefix := "OTP verification failed: "
  const InviteEmailTaken := "User with email already exists"
  const InviterNotAdmin := "Only users with admin privileges can invite others"
  const NoSecondSuperAdmin := "You cannot add another super admin"
  const InvitedMessage := "User invited successfully"
  const InvalidToken := "Invalid token"
  /** `verifyInviteToken` wraps every other failure in this prefix. */
  const TokenVerificationFailed := "Token verification failed: "
  const NotPending := "User is not in pending status"
  const InvalidOrExpiredToken := "Invalid or expired token: "
  /** Stands for the reason the JWT library gives when `verify` throws
      (expired, bad signature, malformed); which one is not modelled. */
  const JwtRejected := "jwt rejected"
  const InvalidOrExpiredInvite := "Invalid or expired invite"
  /** The store's refusal of a `where` whose `id` is not a number. */
  const InvalidIdArgument := "Argument `id` must be an Int"
  const AdminOnlyList := "Only admin can view all users"

  const AdminRoleId := 2
  const SuperAdminRoleId := 1
  const WelcomeTemplate := 7
  const InviteTemplate := 8
  const CompletedTemplate := 9
  const InviteLinkBase := "http://localhost:3000/admin/verify-invite-token?token="

  /** `TeasoAdminSendRequest` after validation: `roleId` and `departmentId`
      are integers (neither is optional), the names and phone may be absent,
      and `password` defaults to the empty string. */
  datatype AdminInvite = AdminInvite(
    email: string,
    roleId: int,
    departmentId: int,
    firstName: Option<string>,
    lastName: Option<string>,
    phoneNumber: Option<string>,
    password: string)

  /** What `inviteAdminUser` returns. */
  datatype Invited = Invited(status: string, message: string, user: User, token: string)

  /** The columns `getAllUsers` selects. */
  datatype UserListing = UserListing(
    id: int,
    firstName: string,
    lastName: Option<string>,
    email: string,
    phoneNumber: Option<string>,
    status: string,
    roleId: int,
    departmentId: Option<int>,
    companyId: int,
    createdAt: int)

  function OptStr(s: Option<string>): JsValue {
    if s.Some? then Str(s.value) else Undefined
  }

  // ---- registerAdmin -------------------------------------------------------

  /** The row `registerAdmin` creates: a pending administrator (role 2) of
      company 0, with the hashed password. */
  function AdminRow(dto: RegisterDto): (u: User)
    ensures u.roleId == AdminRoleId && u.companyId == 0 && u.status == StatusPending
    ensures u.password == Some(Hash(dto.password)) && u.email == dto.email
    ensures u.otpHash.None?
  {
    NewUser(dto.email, Some(Hash(dto.password)), dto.firstName, dto.lastName, dto.phoneNumber,
            AdminRoleId, 0, None, StatusPending)
  }

  // ---- invitations ----------------------------------------------------------

  /** The shell account `inviteAdminUser` creates: pending, of company 1,
      with empty names and phone and no password. */
  function InvitedRow(dto: AdminInvite): (u: User)
    ensures u.email == dto.email && u.roleId == dto.roleId && u.status == StatusPending
    ensures u.password.None? && u.companyId == 1 && u.departmentId == Some(dto.departmentId)
  {
    NewUser(dto.email, None, "", Some(""), Some(""), dto.roleId, 1, Some(dto.departmentId), StatusPending)
  }

  /** The claims of an invitation token. */
  function InviteClaims(u: User): map<string, JsValue> {
    map["userId" := Num(u.id), "email" := Str(u.email)]
  }

  /** What the invitation e-mail carries. */
  function InviteEmailParams(dto: AdminInvite, token: string): map<string, JsValue> {
    map["token" := Str(token), "first_name" := OptStr(dto.firstName),
        "link" := Str(InviteLinkBase + token), "role" := Num(dto.roleId)]
  }

  /** The checks of `inviteAdminUser`, in their order: an existing e-mail
      first, then the inviter's role (strictly the number 1 or 2), then a
      request for role 1. */
  function InviteRefusal(emailTaken: bool, inviterRole: JsValue, dto: AdminInvite): (r: Option<Outcome<Invited>>)
    ensures r.None? <==> !emailTaken && inviterRole in {Num(1), Num(2)} && dto.roleId != SuperAdminRoleId
  {
    if emailTaken then Some(Conflict(InviteEmailTaken))
    else if inviterRole != Num(1) && inviterRole != Num(2) then Some(Unauthorized(InviterNotAdmin))
    else if dto.roleId == SuperAdminRoleId then Some(Unauthorized(NoSecondSuperAdmin))
    else None
  }

  /** `verifyInviteToken` on the claims `verify` produced (None where it
      threw) and the user table. */
  function InviteTokenCheck(claims: Option<map<string, JsValue>>, users: map<int, User>): (r: Outcome<User>)
    ensures r.Ok? ==> r.value.status == StatusPending
    ensures r.Ok? ==> exists id :: id in users && users[id] == r.value
    ensures !r.Ok? ==> r.Unauthorized? || r.NotFound? || r.BadRequest?
  {
    if claims.None? then Unauthorized(TokenVerificationFailed + JwtRejected)
    else
      var uid := Claim(claims.value, "userId");
      if !uid.Truthy() then Unauthorized(InvalidToken)
      else if !uid.Num? then Unauthorized(TokenVerificationFailed + InvalidIdArgument)
      else if uid.n !in users then NotFound(UserNotFound)
      else if users[uid.n].status != StatusPending then BadRequest(NotPending)
      else Ok(users[uid.n])
  }

  /** The row `completeRegistration` will update, or why it refuses. */
  function CompletionTarget(claims: Option<map<string, JsValue>>, users: map<int, User>): (r: Outcome<User>)
    ensures r.Ok? ==> r.value.status == StatusPending
    ensures r.Ok? ==> exists id :: id in users && users[id] == r.value
    ensures claims.Some? && !Claim(claims.value, "userId").Num? ==> r == Error(InvalidIdArgument)
  {
    if claims.None? then Unauthorized(InvalidOrExpiredToken + JwtRejected)
    else
      var uid := Claim(claims.value, "userId");
      if !uid.Num? then Error(InvalidIdArgument)
      else if uid.n !in users then NotFound(UserNotFound)
      else if users[uid.n].status != StatusPending then BadRequest(InvalidOrExpiredInvite)
      else Ok(users[uid.n])
  }

  /** The row after `completeRegistration`: the names and phone the request
      gives (absent ones keep their value), the new password's digest, and
      status `approved`. */
  function Completed(u: User, dto: AdminInvite): (c: User)
    ensures c.status == StatusApproved && c.password == Some(Hash(dto.password))
    ensures c.id == u.id && c.email == u.email && c.roleId == u.roleId && c.companyId == u.companyId
    ensures dto.firstName.None? ==> c.firstName == u.firstName
    ensures dto.firstName.Some? ==> c.firstName == dto.firstName.value
    ensures c.lastName == (if dto.lastName.Some? then dto.lastName else u.lastName)
    ensures c.phoneNumber == (if dto.phoneNumber.Some? then dto.phoneNumber else u.phoneNumber)
  {
    u.(firstName := if dto.firstName.Some? then dto.firstName.value else u.firstName,
       lastName := if dto.lastName.Some? then dto.lastName else u.lastName,
       phoneNumber := if dto.phoneNumber.Some? then dto.phoneNumber else u.phoneNumber,
       password := Some(Hash(dto.password)),
       status := StatusApproved)
  }

  /** The token an invitation issues leads `verifyInviteToken` back to the
      invited account while it is pending. */
  lemma InviteTokenLeadsToInvitee(u: User, users: map<int, User>)
    requires u.id >= 1 && u.id in users && users[u.id] == u && u.status == StatusPending
    ensures InviteTokenCheck(Some(InviteClaims(u)), users) == Ok(u)
    ensures CompletionTarget(Some(InviteClaims(u)), users) == Ok(u)
  {
  }

  /** Once the account is completed the same token is refused by both
      `verifyInviteToken` and `completeRegistration`: an invitation is used
      once. */
  lemma {:induction false} InviteTokenSingleUse(u: User, dto: AdminInvite, users: map<int, User>)
    requires u.id >= 1 && u.id in users && users[u.id] == u && u.status == StatusPending
    ensures InviteTokenCheck(Some(InviteClaims(u)), users[u.id := Completed(u, dto)]) == BadRequest(NotPending)
    ensures CompletionTarget(Some(InviteClaims(u)), users[u.id := Completed(u, dto)]) == BadRequest(InvalidOrExpiredInvite)
  {
    var c := Completed(u, dto);
    assert c.status == StatusApproved;
    assert StatusApproved != StatusPending;
  }

  /** A login token (claims `sub`, `email`, `role`, `companyId`) is not an
      invitation: it has no `userId`. */
  lemma LoginTokenIsNoInvite(claims: map<string, JsValue>, users: map<int, User>)
    requires "userId" !in claims
    ensures InviteTokenCheck(Some(claims), users) == Unauthorized(InvalidToken)
    ensures CompletionTarget(Some(claims), users) == Error(InvalidIdArgument)
  {
  }

  // ---- getAllUsers ----------------------------------------------------------

  /** The `where` of `getAllUsers`: the status when one is given, and the
      search text, case-insensitively, in any of the four text columns. */
  predicate Matches(u: User, status: Option<string>, search: Option<string>) {
    && (Blank(status) || u.status == status.value)
    && (Blank(search)
        || ContainsInsensitive(u.firstName, search.value)
        || (u.lastName.Some? && ContainsInsensitive(u.lastName.value, search.value))
        || ContainsInsensitive(u.email, search.value)
        || (u.phoneNumber.Some? && ContainsInsensitive(u.phoneNumber.value, search.value)))
  }

  function Listing(u: User): (l: UserListing)
    ensures l.id == u.id && l.email == u.email && l.status == u.status && l.createdAt == u.createdAt
  {
    UserListing(u.id, u.firstName, u.lastName, u.email, u.phoneNumber, u.status,
                u.roleId, u.departmentId, u.companyId, u.createdAt)
  }

  /** The role that may list users: the number 1, 2 or 3, the default 1
      standing for an absent role. */
  predicate MayListUsers(role: JsValue) {
    role in {Undefined, Num(1), Num(2), Num(3)}
  }

  predicate NewestFirst(rows: seq<UserListing>) {
    forall i, j :: 0 <= i < j < |rows| ==> rows[i].createdAt >= rows[j].createdAt
  }

  predicate DistinctIds(rows: seq<UserListing>) {
    forall i, j :: 0 <= i < j < |rows| ==> rows[i].id != rows[j].id
  }

  /** Inserts `x` before the first row created strictly earlier. */
  function InsertNewestFirst(rows: seq<UserListing>, x: UserListing): (r: seq<UserListing>)
    requires NewestFirst(rows) && DistinctIds(rows)
    requires forall e :: e in rows ==> e.id != x.id
    ensures |r| == |rows| + 1
    ensures forall e :: e in r <==> e in rows || e == x
    ensures NewestFirst(r) && DistinctIds(r)
    decreases |rows|
  {
    if rows == [] || rows[0].createdAt < x.createdAt then
      [x] + rows
    else
      var t := InsertNewestFirst(rows[1..], x);
      assert forall j :: 0 <= j < |t| ==> t[j] in rows[1..] || t[j] == x;
      assert forall j :: 0 <= j < |t| ==> rows[0].createdAt >= t[j].createdAt && rows[0].id != t[j].id;
      [rows[0]] + t
  }

  /** The answer `getAllUsers` owes: exactly the matching rows, each once,
      newest first. */
  predicate IsUserList(rows: seq<UserListing>, users: map<int, User>, status: Option<string>, search: Option<string>) {
    && NewestFirst(rows)
    && DistinctIds(rows)
    && (forall i :: 0 <= i < |rows| ==>
          rows[i].id in users && Matches(users[rows[i].id], status, search)
          && rows[i] == Listing(users[rows[i].id]))
    && (forall id :: id in users && Matches(users[id], status, search) ==>
          exists i :: 0 <= i < |rows| && rows[i].id == id)
  }

  /** Two answers to the same query list the same rows, possibly ordering
      rows created at the same instant differently. */
  lemma {:induction false} UserListsAgree(a: seq<UserListing>, b: seq<UserListing>, users: map<int, User>,
                                          status: Option<string>, search: Option<string>)
    requires IsUserList(a, users, status, search) && IsUserList(b, users, status, search)
    ensures forall x :: x in a <==> x in b
  {
    forall x | x in a
      ensures x in b
    {
      var i :| 0 <= i < |a| && a[i] == x;
      var j :| 0 <= j < |b| && b[j].id == x.id;
      assert b[j] == Listing(users[x.id]);
    }
    forall x | x in b
      ensures x in a
    {
      var j :| 0 <= j < |b| && b[j] == x;
      var i :| 0 <= i < |a| && a[i].id == x.id;
      assert a[i] == Listing(users[x.id]);
    }
  }

  /** The rows listed after scanning the ids below `upTo`: ordered, each
      once, and exactly the matching ones among those ids. */
  ghost predicate Scanned(rows: seq<UserListing>, users: map<int, User>, status: Option<string>,
                          search: Option<string>, upTo: int) {
    && NewestFirst(rows)
    && DistinctIds(rows)
    && (forall i :: 0 <= i < |rows| ==>
          rows[i].id in users && rows[i].id < upTo && Matches(users[rows[i].id], status, search)
          && rows[i] == Listing(users[rows[i].id]))
    && (forall k :: k in users && k < upTo && Matches(users[k], status, search) ==>
          exists i :: 0 <= i < |rows| && rows[i].id == k)
  }

  /** A non-matching id leaves the listing as it was. */
  lemma ScanSkip(rows: seq<UserListing>, users: map<int, User>, status: Option<string>,
                 search: Option<string>, id: int)
    requires Scanned(rows, users, status, search, id)
    requires !(id in users && Matches(users[id], status, search))
    ensures Scanned(rows, users, status, search, id + 1)
  {
  }

  /** A matching id is inserted in its place. */
  lemma ScanTake(rows: seq<UserListing>, users: map<int, User>, status: Option<string>,
                 search: Option<string>, id: int)
    requires Scanned(rows, users, status, search, id)
    requires id in users && users[id].id == id && Matches(users[id], status, search)
    ensures forall e :: e in rows ==> e.id != Listing(users[id]).id
    ensures Scanned(InsertNewestFirst(rows, Listing(users[id])), users, status, search, id + 1)
  {
    var x := Listing(users[id]);
    var next := InsertNewestFirst(rows, x);
    forall i | 0 <= i < |next|
      ensures next[i].id in users && next[i].id < id + 1 && Matches(users[next[i].id], status, search)
      ensures next[i] == Listing(users[next[i].id])
    {
      assert next[i] in rows || next[i] == x;
    }
    forall k | k in users && k < id + 1 && Matches(users[k], status, search)
      ensures exists i :: 0 <= i < |next| && next[i].id == k
    {
      if k == id {
        assert x in next;
      } else {
        var i :| 0 <= i < |rows| && rows[i].id == k;
        assert rows[i] in next;
      }
    }
  }

  /** Once every id below the next one to be assigned is scanned, the
      listing is the answer. */
  lemma ScanComplete(rows: seq<UserListing>, users: map<int, User>, status: Option<string>,
                 search: Option<string>, upTo: int)
    requires Scanned(rows, users, status, search, upTo)
    requires forall k :: k in users ==> k < upTo
    ensures IsUserList(rows, users, status, search)
  {
  }

  class AdminAuthService {
    const otp: OtpService
    const jwt: TokenIssuer
    /** The store and mailer are the instances the OTP service holds. */
    const db: Database := otp.db
    const mail: Mailer := otp.mail

    constructor (otp: OtpService, jwt: TokenIssuer)
      ensures this.otp == otp && this.jwt == jwt
    {
      this.otp, this.jwt := otp, jwt;
    }

    /** `registerAdmin`: refuses a known e-mail; otherwise creates the
        pending administrator, then stores an OTP and mails a code with
        template 7. A failure of that OTP step is swallowed, and the row is
        returned as it was created. The ghost `mailed` and `stored` are the
        code in the mail and the code `storeOtp` drew; `expiry` is the
        instant of the `Date` `storeOtp` builds, None when it is invalid. */
    method RegisterAdmin(dto: RegisterDto, expiry: Option<int>, now: int)
        returns (r: Outcome<User>, ghost mailed: string, ghost stored: string)
      requires db.Valid()
      modifies db, mail
      ensures db.Valid()
      ensures dto.email in old(db.userIdByEmail) ==>
        r == Conflict(UserExists) && unchanged(db) && unchanged(mail)
      ensures dto.email !in old(db.userIdByEmail) ==>
        var row := AdminRow(dto).(id := old(db.nextUserId), createdAt := now);
        && r == Ok(row)
        && row.id !in old(db.users)
        && db.userIdByEmail == old(db.userIdByEmail)[dto.email := row.id]
        && (expiry.None? ==>
              db.users == old(db.users)[row.id := row] && mail.sent == old(mail.sent))
        && (expiry.Some? ==>
              && IsOtpCode(mailed) && IsOtpCode(stored)
              && db.users == old(db.users)[row.id := WithOtp(row, stored, expiry.value)]
              && mail.sent == old(mail.sent)
                   + [Email(dto.email, map["first_name" := Str(dto.firstName), "otp" := Str(mailed)], WelcomeTemplate)])
      ensures db.OnlyUsersChanged()
    {
      mailed, stored := "", "";
      if dto.email in db.userIdByEmail {
        return Conflict(UserExists), mailed, stored;
      }
      var created := db.CreateUser(AdminRow(dto), now);
      var newUser := created.value;
      mailed, stored := WelcomeOtp(newUser.id, dto.email, dto.firstName, expiry);
      r := Ok(newUser);
    }

    /** The guarded OTP step of `registerAdmin` for the row `userId` it
        just created: a code is drawn, `storeOtp` stores one of its own, and
        only when that succeeded is the first code mailed. */
    method WelcomeOtp(userId: int, email: string, firstName: string, expiry: Option<int>)
        returns (ghost mailed: string, ghost stored: string)
      requires db.Valid() && userId in db.users
      modifies db, mail
      ensures db.Valid()
      ensures expiry.None? ==> unchanged(db) && mail.sent == old(mail.sent)
      ensures expiry.Some? ==>
        && IsOtpCode(mailed) && IsOtpCode(stored)
        && db.users == old(db.users)[userId := WithOtp(old(db.users[userId]), stored, expiry.value)]
        && db.userIdByEmail == old(db.userIdByEmail)
        && mail.sent == old(mail.sent)
             + [Email(email, map["first_name" := Str(firstName), "otp" := Str(mailed)], WelcomeTemplate)]
      ensures db.OnlyUsersChanged()
    {
      mailed := "";
      var code := otp.GenerateOtp();
      var written, drawn := otp.StoreOtp(userId, expiry);
      stored := drawn;
      if written.Ok? {
        mailed := code;
        mail.SendEmail(email, map["first_name" := Str(firstName), "otp" := Str(code)], WelcomeTemplate);
      }
    }

    /** `verifyEmail`: approves the account whose OTP the code matches. */
    method VerifyEmail(email: string, code: string, now: int) returns (r: Outcome<User>)
      requires db.Valid()
      modifies db
      ensures db.Valid()
      ensures email !in old(db.userIdByEmail) ==> r == NotFound(UserNotFound) && unchanged(db)
      ensures email in old(db.userIdByEmail) ==>
        var u := old(db.users[db.userIdByEmail[email]]);
        match VerifyDecision(Some(u), code, now)
        case Rejected(reason) => r == BadRequest(OtpFailedPrefix + reason) && unchanged(db)
        case Verified =>
          && r == Ok(u.(status := StatusApproved))
          && db.users == old(db.users)[u.id := r.value]
          && db.userIdByEmail == old(db.userIdByEmail)
      ensures db.OnlyUsersChanged()
    {
      var user := db.UserByEmail(email);
      if user.None? {
        return NotFound(UserNotFound);
      }
      var u := user.value;
      var verdict := otp.VerifyOtp(u.id, code, now);
      if verdict != Verified {
        return BadRequest(OtpFailedPrefix + verdict.reason);
      }
      r := db.UpdateUser(u.id, u.(status := StatusApproved));
    }

    /** `inviteAdminUser`: after the checks of `InviteRefusal`, creates the
        shell account, signs a 24-hour token for it (the fresh string
        `token`) and mails the link with template 8. */
    method InviteAdminUser(dto: AdminInvite, inviterRole: JsValue, token: string, now: int) returns (r: Outcome<Invited>)
      requires db.Valid() && token !in jwt.signed
      modifies db, mail, jwt
      ensures db.Valid()
      ensures var refusal := InviteRefusal(dto.email in old(db.userIdByEmail), inviterRole, dto);
        && (refusal.Some? ==> r == refusal.value && unchanged(db) && unchanged(mail) && unchanged(jwt))
        && (refusal.None? ==>
              && r.Ok?
              && r.value == Invited("success", InvitedMessage, InvitedRow(dto).(id := old(db.nextUserId), createdAt := now), token)
              && db.users == old(db.users)[r.value.user.id := r.value.user]
              && db.userIdByEmail == old(db.userIdByEmail)[dto.email := r.value.user.id]
              && jwt.signed == old(jwt.signed)[token := SignedToken(InviteClaims(r.value.user), now + DayMs)]
              && mail.sent == old(mail.sent) + [Email(dto.email, InviteEmailParams(dto, token), InviteTemplate)])
      ensures db.OnlyUsersChanged()
    {
      var refusal := InviteRefusal(dto.email in db.userIdByEmail, inviterRole, dto);
      if refusal.Some? {
        return refusal.value;
      }
      var created := db.CreateUser(InvitedRow(dto), now);
      var user := created.value;
      jwt.Sign(InviteClaims(user), DayMs, now, token);
      mail.SendEmail(dto.email, InviteEmailParams(dto, token), InviteTemplate);
      r := Ok(Invited("success", InvitedMessage, user, token));
    }

    /** `verifyInviteToken`: reads only. */
    method VerifyInviteToken(token: string, now: int) returns (r: Outcome<User>)
      ensures r == InviteTokenCheck(jwt.Verify(token, now), db.users)
    {
      var claims := jwt.Verify(token, now);
      if claims.None? {
        return Unauthorized(TokenVerificationFailed + JwtRejected);
      }
      var uid := Claim(claims.value, "userId");
      if !uid.Truthy() {
        return Unauthorized(InvalidToken);
      }
      if !uid.Num? {
        return Unauthorized(TokenVerificationFailed + InvalidIdArgument);
      }
      var user := db.UserById(uid.n);
      if user.None? {
        return NotFound(UserNotFound);
      }
      if user.value.status != StatusPending {
        return BadRequest(NotPending);
      }
      return Ok(user.value);
    }

    /** `completeRegistration`: sets the names, phone and password of the
        pending account the token names, approves it, and mails a welcome
        with template 9. */
    method CompleteRegistration(token: string, dto: AdminInvite, now: int) returns (r: Outcome<User>)
      requires db.Valid()
      modifies db, mail
      ensures db.Valid()
      ensures var target := CompletionTarget(jwt.Verify(token, now), old(db.users));
        && (!target.Ok? ==> r == target && unchanged(db) && unchanged(mail))
        && (target.Ok? ==>
              && r == Ok(Completed(target.value, dto))
              && db.users == old(db.users)[target.value.id := r.value]
              && db.userIdByEmail == old(db.userIdByEmail)
              && mail.sent == old(mail.sent)
                   + [Email(target.value.email, map["first_name" := OptStr(dto.firstName)], CompletedTemplate)])
      ensures db.OnlyUsersChanged()
    {
      var claims := jwt.Verify(token, now);
      if claims.None? {
        return Unauthorized(InvalidOrExpiredToken + JwtRejected);
      }
      var uid := Claim(claims.value, "userId");
      if !uid.Num? {
        return Error(InvalidIdArgument);
      }
      var found := db.UserById(uid.n);
      if found.None? {
        return NotFound(UserNotFound);
      }
      var user := found.value;
      if user.status != StatusPending {
        return BadRequest(InvalidOrExpiredInvite);
      }
      r := db.UpdateUser(user.id, Completed(user, dto));
      mail.SendEmail(user.email, map["first_name" := OptStr(dto.firstName)], CompletedTemplate);
    }

    /** `getAllUsers`: refuses any role but 1, 2 and 3 (an absent role counts
        as 1); otherwise lists the matching users newest first. */
    method GetAllUsers(status: Option<string>, search: Option<string>, role: JsValue)
        returns (r: Outcome<seq<UserListing>>)
      requires db.Valid()
      ensures !MayListUsers(role) ==> r == Unauthorized(AdminOnlyList)
      ensures MayListUsers(role) ==> r.Ok? && IsUserList(r.value, db.users, status, search)
    {
      var roleId := if role == Undefined then Num(1) else role;
      if roleId != Num(1) && roleId != Num(2) && roleId != Num(3) {
        return Unauthorized(AdminOnlyList);
      }
      var rows: seq<UserListing> := [];
      var id := 1;
      while id < db.nextUserId
        invariant 1 <= id <= db.nextUserId
        invariant Scanned(rows, db.users, status, search, id)
      {
        if id in db.users && Matches(db.users[id], status, search) {
          ScanTake(rows, db.users, status, search, id);
          rows := InsertNewestFirst(rows, Listing(db.users[id]));
        } else {
          ScanSkip(rows, db.users, status, search, id);
        }
        id := id + 1;
      }
      ScanComplete(rows, db.users, status, search, db.nextUserId);
      r := Ok(rows);
    }
  }
}
