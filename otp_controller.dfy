/** `OtpController`: the `/otp/send`, `/otp/verify` and `/otp/resend`
    endpoints, each behind the JWT guard, so `user` is the authenticated
    caller. */
module OtpController {
  import opened Common
  import opened Store
  import opened Otp
  import opened JwtStrategy

  const UserNotFound := "User not found"
  const OtpRequired := "OTP is required"
  const OtpVerifiedMessage := "OTP verified successfully"

  /** The controller's own `PrismaService` is the instance the OTP service
      holds, so the store is reached as `otp.db`. */
  class OtpController {
    const otp: OtpService

    constructor (otp: OtpService)
      ensures this.otp == otp
    {
      this.otp := otp;
    }

    /** `POST /otp/send`: mails one code, then stores whatever code
        `storeOtp` draws for itself (the mailed code lands in its
        `expiresIn` argument; `expiry` is the instant that yields). The
        ghost `mailed` and `stored` are the two codes. */
    method SendOtp(user: AuthUser, expiry: Option<int>) returns (r: Outcome<string>, ghost mailed: string, ghost stored: string)
      requires otp.db.Valid()
      modifies otp.db, otp.mail
      ensures otp.db.Valid()
      ensures user.userId !in old(otp.db.users) ==>
        r == NotFound(UserNotFound) && unchanged(otp.db) && unchanged(otp.mail)
      ensures user.userId in old(otp.db.users) ==>
        && IsOtpCode(mailed) && IsOtpCode(stored)
        && otp.mail.sent == old(otp.mail.sent) + [Email(user.email, map["otp" := Str(mailed)], OtpTemplate)]
        && (expiry.None? ==> r.Error? && unchanged(otp.db))
        && (expiry.Some? ==>
              && r == Ok("OTP sent to " + user.email)
              && otp.db.users == old(otp.db.users)[user.userId := WithOtp(old(otp.db.users[user.userId]), stored, expiry.value)]
              && otp.db.userIdByEmail == old(otp.db.userIdByEmail))
      ensures otp.db.OnlyUsersChanged()
    {
      mailed, stored := "", "";
      if user.userId !in otp.db.users {
        return NotFound(UserNotFound), mailed, stored;
      }
      var code := otp.GenerateOtp();
      mailed := code;
      otp.SendOtp(user.email, code);
      var written, code2 := otp.StoreOtp(user.userId, expiry);
      stored := code2;
      if written.Ok? {
        r := Ok("OTP sent to " + user.email);
      } else {
        r := Error(written.message);
      }
    }

    /** `POST /otp/verify`: an absent or empty code is refused before the
        lookup; any answer of `verifyOtp` other than `true` becomes the
        BadRequest message. Nothing is written. */
    method VerifyOtp(user: AuthUser, code: Option<string>, now: int) returns (r: Outcome<string>)
      ensures Blank(code) ==> r == BadRequest(OtpRequired)
      ensures !Blank(code) ==>
        match VerifyDecision(otp.db.UserById(user.userId), code.value, now)
        case Verified => r == Ok(OtpVerifiedMessage)
        case Rejected(reason) => r == BadRequest(reason)
    {
      if Blank(code) {
        return BadRequest(OtpRequired);
      }
      var result := otp.VerifyOtp(user.userId, code.value, now);
      if result != Verified {
        return BadRequest(result.reason);
      }
      return Ok(OtpVerifiedMessage);
    }

    /** `POST /otp/resend`: draws a code, draws another that is thrown away,
        stores a third (drawn inside `storeOtp`), and mails the first. */
    method ResendOtp(user: AuthUser, expiry: Option<int>) returns (r: Outcome<string>, ghost mailed: string, ghost stored: string)
      requires otp.db.Valid()
      modifies otp.db, otp.mail
      ensures otp.db.Valid()
      ensures user.userId !in old(otp.db.users) ==>
        r == NotFound(UserNotFound) && unchanged(otp.db) && unchanged(otp.mail)
      ensures user.userId in old(otp.db.users) && expiry.None? ==>
        r.Error? && unchanged(otp.db) && unchanged(otp.mail)
      ensures user.userId in old(otp.db.users) && expiry.Some? ==>
        && IsOtpCode(mailed) && IsOtpCode(stored)
        && r == Ok("OTP resent to " + user.email)
        && otp.db.users == old(otp.db.users)[user.userId := WithOtp(old(otp.db.users[user.userId]), stored, expiry.value)]
        && otp.db.userIdByEmail == old(otp.db.userIdByEmail)
        && otp.mail.sent == old(otp.mail.sent) + [Email(user.email, map["otp" := Str(mailed)], OtpTemplate)]
      ensures otp.db.OnlyUsersChanged()
    {
      mailed, stored := "", "";
      if user.userId !in otp.db.users {
        return NotFound(UserNotFound), mailed, stored;
      }
      var code := otp.GenerateOtp();
      mailed := code;
      var _ := otp.GenerateOtp();
      var written, code2 := otp.StoreOtp(user.userId, expiry);
      stored := code2;
      if !written.Ok? {
        return Error(written.message), mailed, stored;
      }
      otp.SendOtp(user.email, code);
      r := Ok("OTP resent to " + user.email);
    }
  }

  /** After `/otp/send` or `/otp/resend`, the caller can verify the code in
      the mail only when the independent draw inside `storeOtp` happened to
      produce the same code: any other mailed code is refused as invalid
      while the stored one is live. */
  lemma {:induction false} MailedCodeVerifiesOnlyByChance(u: User, mailed: string, stored: string, expiresAt: int, now: int)
    requires IsOtpCode(mailed) && IsOtpCode(stored)
    requires now <= expiresAt
    ensures VerifyDecision(Some(WithOtp(u, stored, expiresAt)), mailed, now) == Verified <==> mailed == stored
    ensures mailed != stored ==>
      VerifyDecision(Some(WithOtp(u, stored, expiresAt)), mailed, now) == Rejected(OtpInvalid)
  {
    var m :| 1000 <= m <= 9999 && mailed == DecimalString(m);
    var s :| 1000 <= s <= 9999 && stored == DecimalString(s);
    if m != s {
      OtherCodeRefused(u, s, m, expiresAt, now);
    }
    StoredCodeLifetime(u, stored, expiresAt, now);
  }
}
