/** `OtpService`: four-digit one-time codes, stored as a bcrypt digest with
    an expiry on the user row, checked against the clock, and mailed with
    template 2. */
module Otp {
  import opened Common
  import opened Store

  const OtpNotFound := "OTP not found or user does not exist"
  const OtpExpired := "OTP has expired"
  const OtpInvalid := "Invalid OTP"
  /** The store refuses a `Date` that is not a valid instant. */
  const InvalidExpiry := "Invalid value for argument `otpExpiresAt`"
  const OtpTemplate := 2

  /** What `generateOtp` can return: `Math.floor(1000 + Math.random() * 9000)`
      printed in decimal. */
  ghost predicate IsOtpCode(s: string) {
    exists n :: 1000 <= n <= 9999 && s == DecimalString(n)
  }

  /** Four decimal digits, the first not zero. */
  predicate OtpShape(s: string) {
    |s| == 4 && AllDigits(s) && s[0] != '0'
  }

  /** `verifyOtp`'s answer: `true`, or the reason string it returns. */
  datatype Verdict = Verified | Rejected(reason: string)

  /** The decision `verifyOtp` takes on the row it loaded: no row or no
      stored code, then an expiry strictly in the past, then a code that
      does not match the digest. */
  function VerifyDecision(user: Option<User>, code: string, now: int): (v: Verdict)
    ensures v.Rejected? ==> v.reason in {OtpNotFound, OtpExpired, OtpInvalid}
  {
    if user.None? || user.value.otpHash.None? || user.value.otpExpiresAt.None? then
      Rejected(OtpNotFound)
    else if now > user.value.otpExpiresAt.value then
      Rejected(OtpExpired)
    else if !Compare(code, user.value.otpHash.value) then
      Rejected(OtpInvalid)
    else
      Verified
  }

  /** The row after `storeOtp` wrote `code`'s digest and the expiry. */
  function WithOtp(u: User, code: string, expiresAt: int): (w: User)
    ensures w.otpHash == Some(Hash(code)) && w.otpExpiresAt == Some(expiresAt)
    ensures w.(otpHash := u.otpHash, otpExpiresAt := u.otpExpiresAt) == u
  {
    u.(otpHash := Some(Hash(code)), otpExpiresAt := Some(expiresAt))
  }

  /** A code is accepted exactly when the row holds a digest of it and an
      expiry the clock has not passed. */
  lemma VerifyIff(user: Option<User>, code: string, now: int)
    ensures VerifyDecision(user, code, now) == Verified <==>
      && user.Some? && user.value.otpHash.Some? && user.value.otpExpiresAt.Some?
      && now <= user.value.otpExpiresAt.value
      && user.value.otpHash.value == Hash(code)
  {
  }

  /** Which reason goes with which case, for every row, code and clock: a
      missing row, digest or expiry is "not found"; a passed expiry is
      "expired" whatever code is typed; a live row whose digest does not
      match the code is "invalid". */
  lemma VerifyReasons(user: Option<User>, code: string, now: int)
    ensures user.None? || user.value.otpHash.None? || user.value.otpExpiresAt.None? ==>
      VerifyDecision(user, code, now) == Rejected(OtpNotFound)
    ensures (&& user.Some? && user.value.otpHash.Some? && user.value.otpExpiresAt.Some?
             && now > user.value.otpExpiresAt.value) ==>
      VerifyDecision(user, code, now) == Rejected(OtpExpired)
    ensures (&& user.Some? && user.value.otpHash.Some? && user.value.otpExpiresAt.Some?
             && now <= user.value.otpExpiresAt.value && !Compare(code, user.value.otpHash.value)) ==>
      VerifyDecision(user, code, now) == Rejected(OtpInvalid)
  {
  }

  /** The code just stored verifies up to and including its expiry instant,
      and from the next millisecond on is refused as expired, even though it
      matches. */
  lemma StoredCodeLifetime(u: User, code: string, expiresAt: int, now: int)
    ensures now <= expiresAt ==> VerifyDecision(Some(WithOtp(u, code, expiresAt)), code, now) == Verified
    ensures now > expiresAt ==> VerifyDecision(Some(WithOtp(u, code, expiresAt)), code, now) == Rejected(OtpExpired)
  {
  }

  /** Two different four-digit codes print differently, so a live row
      holding one refuses the other as invalid. */
  lemma {:induction false} OtherCodeRefused(u: User, stored: nat, typed: nat, expiresAt: int, now: int)
    requires 1000 <= stored <= 9999 && 1000 <= typed <= 9999 && stored != typed
    requires now <= expiresAt
    ensures VerifyDecision(Some(WithOtp(u, DecimalString(stored), expiresAt)), DecimalString(typed), now)
            == Rejected(OtpInvalid)
  {
    DecimalRoundTrip(stored);
    DecimalRoundTrip(typed);
  }

  /** Every possible code has the four-digit shape. */
  lemma OtpCodeShape(s: string)
    requires IsOtpCode(s)
    ensures OtpShape(s)
  {
    var n :| 1000 <= n <= 9999 && s == DecimalString(n);
    FourDigitString(n);
  }

  class OtpService {
    const db: Database
    const mail: Mailer

    constructor (db: Database, mail: Mailer)
      ensures this.db == db && this.mail == mail
    {
      this.db, this.mail := db, mail;
    }

    /** `generateOtp`: a random integer in [1000, 9999], as a string. */
    method GenerateOtp() returns (otp: string)
      ensures IsOtpCode(otp) && OtpShape(otp)
    {
      var n :| 1000 <= n <= 9999;
      FourDigitString(n);
      otp := DecimalString(n);
    }

    /** `storeOtp(userId, expiresIn)`: draws its own code and writes its
        digest with the expiry. `expiresAt` is the instant the `Date` built
        from `Date.now() + expiresIn` denotes, None when that is not a valid
        date. The code written is returned as the ghost `code`. */
    method StoreOtp(userId: int, expiresAt: Option<int>) returns (r: Outcome<User>, ghost code: string)
      requires db.Valid()
      modifies db
      ensures db.Valid()
      ensures IsOtpCode(code)
      ensures expiresAt.None? ==> r == Error(InvalidExpiry) && unchanged(db)
      ensures expiresAt.Some? && userId !in old(db.users) ==> r == Error(RecordNotFound) && unchanged(db)
      ensures expiresAt.Some? && userId in old(db.users) ==>
        && r == Ok(WithOtp(old(db.users[userId]), code, expiresAt.value))
        && db.users == old(db.users)[userId := r.value]
        && db.userIdByEmail == old(db.userIdByEmail)
        && db.nextUserId == old(db.nextUserId)
      ensures db.OnlyUsersChanged()
    {
      var otp := GenerateOtp();
      code := otp;
      if expiresAt.None? {
        return Error(InvalidExpiry), code;
      }
      if userId !in db.users {
        return Error(RecordNotFound), code;
      }
      var u := db.users[userId];
      r := db.UpdateUser(userId, WithOtp(u, otp, expiresAt.value));
      assert db.userIdByEmail == old(db.userIdByEmail);
    }

    /** `verifyOtp`: reads the row and decides; nothing is written, and the
        code stays valid for further attempts. */
    method VerifyOtp(userId: int, otp: string, now: int) returns (v: Verdict)
      ensures v == VerifyDecision(db.UserById(userId), otp, now)
    {
      var user := db.UserById(userId);
      if user.None? || user.value.otpHash.None? || user.value.otpExpiresAt.None? {
        return Rejected(OtpNotFound);
      }
      if now > user.value.otpExpiresAt.value {
        return Rejected(OtpExpired);
      }
      if !Compare(otp, user.value.otpHash.value) {
        return Rejected(OtpInvalid);
      }
      return Verified;
    }

    /** `sendOtp`: mails the code with template 2. */
    method SendOtp(email: string, otp: string)
      modifies mail
      ensures mail.sent == old(mail.sent) + [Email(email, map["otp" := Str(otp)], OtpTemplate)]
    {
      mail.SendEmail(email, map["otp" := Str(otp)], OtpTemplate);
    }

    /** `resendOtp`: mails a fresh code without storing it, and echoes that
        code in the reply. */
    method ResendOtp(email: string) returns (message: string, ghost otp: string)
      modifies mail
      ensures IsOtpCode(otp)
      ensures mail.sent == old(mail.sent) + [Email(email, map["otp" := Str(otp)], OtpTemplate)]
      ensures message == "OTP " + otp + " resent to " + email
    {
      var code := GenerateOtp();
      otp := code;
      SendOtp(email, code);
      message := "OTP " + code + " resent to " + email;
    }
  }
}
