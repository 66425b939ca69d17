/** `EsgAuthService`: self sign-up of an ESG company together with its
    administrator account, and sign-up of an invited company user. */
module EsgAuth {
  import opened Common
  import opened Store
  import opened Validators

  const EmailTaken := "User with this email already exists"
  const RegistrationNumberTaken := "Company with this registration number already exists"
  const CompanyNameTaken := "Company with this name already exists"
  const AdminRoleMissing := "Company ESG Admin role is not configured"
  const CompanyAdminRole := "company_esg_admin"
  const SignupMessage := "Registration successful. Your ESG company is pending approval by an administrator."
  const ApprovalMessage := "Your ESG company is pending approval by our administrators."
  const WelcomeTemplate := 7
  const InvalidInvitation := "Invalid or expired invitation."
  const SignupComplete := "Signup complete"

  /** `EsgSignupDto`: the account fields of `RegisterDto` and the company. */
  datatype EsgSignup = EsgSignup(
    account: RegisterDto,
    name: string,
    registrationNumber: string,
    sicsCode: Option<string>,
    industry: string,
    isoCountryCode: string,
    address: string,
    country: Option<string>,
    website: string,
    contactEmail: string,
    contactPhone: string)

  datatype SignupResult = SignupResult(message: string, user: User, company: Company)

  /** `CompleteInviteSignupDto`. */
  datatype InviteSignup = InviteSignup(firstName: string, lastName: string, password: string)

  datatype InviteSignupResult = InviteSignupResult(message: string, user: User)

  /** The refusals of `signup`, in the order it makes them. */
  function SignupRefusal(emailTaken: bool, registrationTaken: bool, nameTaken: bool, adminRole: Option<Role>): (r: Option<string>)
    ensures r.None? <==> !emailTaken && !registrationTaken && !nameTaken && adminRole.Some?
    ensures emailTaken ==> r == Some(EmailTaken)
    ensures !emailTaken && registrationTaken ==> r == Some(RegistrationNumberTaken)
    ensures !emailTaken && !registrationTaken && nameTaken ==> r == Some(CompanyNameTaken)
  {
    if emailTaken then Some(EmailTaken)
    else if registrationTaken then Some(RegistrationNumberTaken)
    else if nameTaken then Some(CompanyNameTaken)
    else if adminRole.None? then Some(AdminRoleMissing)
    else None
  }

  /** The company row: pending, created and updated by 0, with the defaults
      `010`, `NG` and `Nigeria` for an absent or empty SICS code, country
      code and country. */
  function CompanyRow(dto: EsgSignup): (c: Company)
    ensures c.status == StatusPending && c.createdBy == 0 && c.updatedBy == 0
    ensures c.name == dto.name && c.registrationNumber == dto.registrationNumber
    ensures c.sicsCode == (if Blank(dto.sicsCode) then "010" else dto.sicsCode.value)
    ensures c.isoCountryCode == (if dto.isoCountryCode == "" then "NG" else dto.isoCountryCode)
    ensures c.country == (if Blank(dto.country) then "Nigeria" else dto.country.value)
  {
    Company(0, dto.name, dto.registrationNumber, OrDefault(dto.sicsCode, "010"), dto.industry,
            OrDefault(Some(dto.isoCountryCode), "NG"), dto.address, OrDefault(dto.country, "Nigeria"),
            dto.website, dto.contactEmail, dto.contactPhone, StatusPending, 0, 0)
  }

  /** The administrator row: pending, of the new company, with the company
      administrator role and the hashed password. */
  function AdminAccountRow(dto: EsgSignup, roleId: int, companyId: int): (u: User)
    ensures u.status == StatusPending && u.companyId == companyId && u.roleId == roleId
    ensures u.email == dto.account.email && u.password == Some(Hash(dto.account.password))
  {
    NewUser(dto.account.email, Some(Hash(dto.account.password)), dto.account.firstName,
            dto.account.lastName, dto.account.phoneNumber, roleId, companyId, None, StatusPending)
  }

  function WelcomeParams(dto: EsgSignup): map<string, JsValue> {
    map["firstName" := Str(dto.account.firstName), "companyName" := Str(dto.name),
        "approvalMessage" := Str(ApprovalMessage)]
  }

  /** The invitation `completeSignupFromInvitation` will accept: present and
      pending. Its expiry is not looked at. */
  function AcceptableInvitation(invitations: map<string, Invitation>, token: string): (r: Outcome<Invitation>)
    ensures r.Ok? <==> token in invitations && invitations[token].status == StatusPending
    ensures r.Ok? ==> r.value == invitations[token]
    ensures !r.Ok? ==> r == BadRequest(InvalidInvitation)
  {
    if token !in invitations || invitations[token].status != StatusPending then BadRequest(InvalidInvitation)
    else Ok(invitations[token])
  }

  /** The account an invitation turns into: active, with the invitation's
      address, company, department and role. */
  function InvitedAccountRow(inv: Invitation, dto: InviteSignup): (u: User)
    ensures u.status == StatusActive && u.email == inv.email && u.companyId == inv.companyId
    ensures u.departmentId == inv.departmentId && u.roleId == inv.roleId
    ensures u.password == Some(Hash(dto.password))
  {
    NewUser(inv.email, Some(Hash(dto.password)), dto.firstName, Some(dto.lastName), None,
            inv.roleId, inv.companyId, inv.departmentId, StatusActive)
  }

  /** Acceptance does not depend on the expiry: an invitation long past its
      `expiresAt` is accepted as long as it is pending. */
  lemma ExpiryIgnored(invitations: map<string, Invitation>, token: string, expiresAt: int)
    requires token in invitations
    ensures AcceptableInvitation(invitations[token := invitations[token].(expiresAt := expiresAt)], token).Ok?
        == AcceptableInvitation(invitations, token).Ok?
  {
  }

  /** Once accepted, the token is refused. */
  lemma SingleUse(invitations: map<string, Invitation>, token: string)
    requires token in invitations
    ensures AcceptableInvitation(invitations[token := invitations[token].(status := InvitationAccepted)], token)
         == BadRequest(InvalidInvitation)
  {
  }

  /** Issuing a new invitation to the same address revokes every older
      one: after the expiry step none of them is acceptable. */
  lemma {:induction false} ReissueRevokesOlder(invitations: map<string, Invitation>, email: string, token: string)
    requires token in invitations && invitations[token].email == email
    ensures AcceptableInvitation(map t | t in invitations :: ExpiredIfPendingFor(invitations[t], email), token)
         == BadRequest(InvalidInvitation)
  {
    var after := map t | t in invitations :: ExpiredIfPendingFor(invitations[t], email);
    assert after[token] == ExpiredIfPendingFor(invitations[token], email);
  }

  class EsgAuthService {
    const db: Database
    const mail: Mailer

    constructor (db: Database, mail: Mailer)
      ensures this.db == db && this.mail == mail
    {
      this.db, this.mail := db, mail;
    }

    /** `signup`: after the refusals of `SignupRefusal` (each leaving the
        store and mailer untouched), creates the company, then its
        administrator, then records the administrator as the company's
        creator and last editor, and mails the welcome. The reply carries
        the company as first created. */
    method Signup(dto: EsgSignup, now: int) returns (r: Outcome<SignupResult>)
      requires db.Valid()
      modifies db, mail
      ensures db.Valid()
      ensures var refusal := SignupRefusal(dto.account.email in old(db.userIdByEmail),
                                           old(db.RegistrationNumberTaken(dto.registrationNumber)),
                                           old(db.CompanyNameTaken(dto.name)),
                                           db.RoleByName(CompanyAdminRole));
        && (refusal.Some? ==> r == Conflict(refusal.value) && unchanged(db) && unchanged(mail))
        && (refusal.None? ==>
              var company := CompanyRow(dto).(id := old(db.nextCompanyId));
              var user := AdminAccountRow(dto, db.roles[CompanyAdminRole].id, company.id)
                            .(id := old(db.nextUserId), createdAt := now);
              && r == Ok(SignupResult(SignupMessage, user, company))
              && db.companies == old(db.companies)[company.id := company.(createdBy := user.id, updatedBy := user.id)]
              && db.users == old(db.users)[user.id := user]
              && db.userIdByEmail == old(db.userIdByEmail)[user.email := user.id]
              && mail.sent == old(mail.sent) + [Email(dto.account.email, WelcomeParams(dto), WelcomeTemplate)])
      ensures db.InvitationsUnchanged() && db.SessionsUnchanged()
    {
      var refusal := SignupRefusal(dto.account.email in db.userIdByEmail,
                                   db.RegistrationNumberTaken(dto.registrationNumber),
                                   db.CompanyNameTaken(dto.name),
                                   db.RoleByName(CompanyAdminRole));
      if refusal.Some? {
        return Conflict(refusal.value);
      }
      var role := db.roles[CompanyAdminRole];
      var user, company := CreateCompanyWithAdmin(dto, role.id, now);
      mail.SendEmail(dto.account.email, WelcomeParams(dto), WelcomeTemplate);
      r := Ok(SignupResult(SignupMessage, user, company));
    }

    /** The three writes of `signup` once its checks passed: the company,
        its administrator, then the company's creator and last editor set to
        that administrator. `company` is the row as first created. */
    method CreateCompanyWithAdmin(dto: EsgSignup, roleId: int, now: int) returns (user: User, company: Company)
      requires db.Valid() && dto.account.email !in db.userIdByEmail && !db.CompanyNameTaken(dto.name)
      modifies db
      ensures db.Valid()
      ensures company == CompanyRow(dto).(id := old(db.nextCompanyId))
      ensures user == AdminAccountRow(dto, roleId, company.id).(id := old(db.nextUserId), createdAt := now)
      ensures db.companies == old(db.companies)[company.id := company.(createdBy := user.id, updatedBy := user.id)]
      ensures db.users == old(db.users)[user.id := user]
      ensures db.userIdByEmail == old(db.userIdByEmail)[user.email := user.id]
      ensures db.InvitationsUnchanged() && db.SessionsUnchanged()
    {
      var createdCompany := db.CreateCompany(CompanyRow(dto));
      company := createdCompany.value;
      var createdUser := db.CreateUser(AdminAccountRow(dto, roleId, company.id), now);
      user := createdUser.value;
      var _ := db.UpdateCompany(company.id, company.(createdBy := user.id, updatedBy := user.id));
    }

    /** `completeSignupFromInvitation`: creates the invited account and
        marks the invitation accepted. A taken address makes the store
        refuse the account, and the invitation stays pending. */
    method CompleteSignupFromInvitation(token: string, dto: InviteSignup, now: int) returns (r: Outcome<InviteSignupResult>)
      requires db.Valid()
      modifies db
      ensures db.Valid()
      ensures var found := AcceptableInvitation(old(db.invitations), token);
        && (!found.Ok? ==> r == BadRequest(InvalidInvitation) && unchanged(db))
        && (found.Ok? && found.value.email in old(db.userIdByEmail) ==> r == Error(UniqueEmail) && unchanged(db))
        && (found.Ok? && found.value.email !in old(db.userIdByEmail) ==>
              var user := InvitedAccountRow(found.value, dto).(id := old(db.nextUserId), createdAt := now);
              && r == Ok(InviteSignupResult(SignupComplete, user))
              && db.users == old(db.users)[user.id := user]
              && db.invitations == old(db.invitations)[token := found.value.(status := InvitationAccepted)]
              && AcceptableInvitation(db.invitations, token) == BadRequest(InvalidInvitation))
      ensures db.CompaniesUnchanged() && db.SessionsUnchanged()
    {
      var found := AcceptableInvitation(db.invitations, token);
      if !found.Ok? {
        return BadRequest(InvalidInvitation);
      }
      var invitation := found.value;
      var created := db.CreateUser(InvitedAccountRow(invitation, dto), now);
      if !created.Ok? {
        return Error(created.message);
      }
      db.SetInvitationStatus(token, InvitationAccepted);
      r := Ok(InviteSignupResult(SignupComplete, created.value));
    }
  }
}
