/** `InvitationsService`: a company user invites someone by e-mail. Earlier
    pending invitations to that address are expired, a new one is issued
    for the inviter's company, valid for three days, and the sign-up link is
    mailed with template 8. */
module Invitations {
  import opened Common
  import opened Store

  const InviterNotFound := "Inviting user not found"
  const InvalidInvitationToken := "Invalid invitation token"
  const InvitationTtl := 3 * DayMs
  const InvitationTemplate := 8

  /** `CreateInvitationDto` after validation. */
  datatype InvitationRequest = InvitationRequest(email: string, departmentId: Option<int>, roleId: int)

  /** `${process.env.FRONTEND_URL}/esg/auth/signup?token=${token}`; an unset
      variable prints as `undefined`. */
  function SignupLink(frontendUrl: Option<string>, token: string): string {
    (if frontendUrl.Some? then frontendUrl.value else "undefined") + "/esg/auth/signup?token=" + token
  }

  /** The row `create` inserts: pending, for the inviter's company. */
  function NewInvitation(dto: InvitationRequest, token: string, now: int, inviter: User, invitedById: int): (inv: Invitation)
    ensures inv.status == StatusPending && inv.companyId == inviter.companyId
    ensures inv.email == dto.email && inv.token == token && inv.expiresAt == now + InvitationTtl
    ensures inv.departmentId == dto.departmentId && inv.roleId == dto.roleId && inv.invitedById == invitedById
  {
    Invitation(0, dto.email, token, now + InvitationTtl, StatusPending, inviter.companyId,
               dto.departmentId, dto.roleId, invitedById)
  }

  /** The invitations to `email` still pending. */
  ghost predicate PendingFor(invitations: map<string, Invitation>, email: string, t: string) {
    t in invitations && invitations[t].email == email && invitations[t].status == StatusPending
  }

  /** After the expiry step nothing is pending for that address, and rows
      for other addresses or in other states are as they were. */
  lemma ExpiryClearsPending(invitations: map<string, Invitation>, email: string)
    ensures var after := map t | t in invitations :: ExpiredIfPendingFor(invitations[t], email);
      && (forall t :: !PendingFor(after, email, t))
      && (forall t :: t in invitations && invitations[t].email != email ==> after[t] == invitations[t])
      && (forall t :: t in invitations && invitations[t].status != StatusPending ==> after[t] == invitations[t])
  {
  }

  class InvitationsService {
    const db: Database
    const mail: Mailer

    constructor (db: Database, mail: Mailer)
      ensures this.db == db && this.mail == mail
    {
      this.db, this.mail := db, mail;
    }

    /** `create(dto, invitedById)`; `token` is the fresh UUID. The expiry
        step happens before the inviter is looked up, so it stays done when
        the inviter is missing. */
    method Create(dto: InvitationRequest, invitedById: int, token: string, now: int, frontendUrl: Option<string>)
        returns (r: Outcome<Invitation>)
      requires db.Valid() && token !in db.invitations
      modifies db, mail
      ensures db.Valid()
      ensures db.invitations.Keys >= old(db.invitations.Keys)
      ensures forall t :: t in old(db.invitations) ==>
                db.invitations[t] == ExpiredIfPendingFor(old(db.invitations[t]), dto.email)
      ensures invitedById !in db.users ==>
        && r == Error(InviterNotFound)
        && db.invitations.Keys == old(db.invitations.Keys)
        && db.nextInvitationId == old(db.nextInvitationId)
        && mail.sent == old(mail.sent)
      ensures invitedById in db.users ==>
        && r == Ok(NewInvitation(dto, token, now, db.users[invitedById], invitedById).(id := old(db.nextInvitationId)))
        && db.invitations.Keys == old(db.invitations.Keys) + {token}
        && db.invitations[token] == r.value
        && db.nextInvitationId == old(db.nextInvitationId) + 1
        && mail.sent == old(mail.sent) + [Email(dto.email,
             map["first_name" := Str(dto.email), "link" := Str(SignupLink(frontendUrl, token))], InvitationTemplate)]
      ensures db.UsersUnchanged() && db.CompaniesUnchanged() && db.SessionsUnchanged()
    {
      db.ExpirePendingInvitations(dto.email);
      var inviter := db.UserById(invitedById);
      if inviter.None? {
        return Error(InviterNotFound);
      }
      var inv := db.CreateInvitation(NewInvitation(dto, token, now, inviter.value, invitedById));
      mail.SendEmail(dto.email, map["first_name" := Str(dto.email), "link" := Str(SignupLink(frontendUrl, token))],
                     InvitationTemplate);
      r := Ok(inv);
    }

    /** `getByToken`: the invitation whatever its state or expiry. */
    method GetByToken(token: string) returns (r: Outcome<Invitation>)
      ensures token !in db.invitations ==> r == BadRequest(InvalidInvitationToken)
      ensures token in db.invitations ==> r == Ok(db.invitations[token])
    {
      if token !in db.invitations {
        return BadRequest(InvalidInvitationToken);
      }
      return Ok(db.invitations[token]);
    }
  }

  /** After a successful `create`, the new invitation is the only pending
      one for its address. */
  lemma {:induction false} OnePendingAfterCreate(before: map<string, Invitation>, after: map<string, Invitation>,
                                                 email: string, token: string)
    requires token !in before && token in after && after.Keys == before.Keys + {token}
    requires forall t :: t in before ==> after[t] == ExpiredIfPendingFor(before[t], email)
    requires after[token].email == email && after[token].status == StatusPending
    ensures PendingFor(after, email, token)
    ensures forall t :: PendingFor(after, email, t) ==> t == token
  {
    forall t | t in before
      ensures !PendingFor(after, email, t)
    {
      assert after[t] == ExpiredIfPendingFor(before[t], email);
    }
  }
}
