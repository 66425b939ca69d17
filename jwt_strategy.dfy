/** `JwtStrategy.validate`: turns a verified token payload into the
    `request.user` object the handlers and guards read. */
module JwtStrategy {
  import opened Common

  const InvalidPayload := "Invalid token payload"

  /** The object `validate` returns. `role` is passed through untouched,
      whatever its type. */
  datatype AuthUser = AuthUser(userId: int, email: string, role: JsValue, companyId: int)
  {
    /** The same object as a JavaScript value, as the guards see it. */
    function AsJs(): (v: JsValue)
      ensures v.Get("role") == role && v.Get("userId") == Num(userId)
      ensures v.Get("companyId") == Num(companyId) && v.Get("email") == Str(email)
    {
      Obj(map["userId" := Num(userId), "email" := Str(email), "role" := role, "companyId" := Num(companyId)])
    }
  }

  /** `validate(payload)`: `sub` and `companyId` must be numbers and `email`
      a string, otherwise Unauthorized. */
  function Validate(payload: map<string, JsValue>): (r: Outcome<AuthUser>)
    ensures r.Ok? || r == Unauthorized(InvalidPayload)
  {
    match (Claim(payload, "sub"), Claim(payload, "email"), Claim(payload, "companyId"))
    case (Num(sub), Str(email), Num(companyId)) =>
      Ok(AuthUser(sub, email, Claim(payload, "role"), companyId))
    case _ => Unauthorized(InvalidPayload)
  }

  /** The payload a token carries for `u`: exactly the four claims, `sub`
      and `companyId` as numbers, `email` as a string, `role` as it is. */
  function PayloadOf(u: AuthUser): (r: map<string, JsValue>)
    ensures r.Keys == {"sub", "email", "role", "companyId"}
    ensures Claim(r, "sub") == Num(u.userId) && Claim(r, "companyId") == Num(u.companyId)
    ensures Claim(r, "email") == Str(u.email) && Claim(r, "role") == u.role
  {
    map["sub" := Num(u.userId), "email" := Str(u.email), "role" := u.role, "companyId" := Num(u.companyId)]
  }

  /** Reading back the payload written for `u` gives `u`. */
  lemma ValidateRoundTrip(u: AuthUser)
    ensures Validate(PayloadOf(u)) == Ok(u)
  {
  }

  /** Conversely, an accepted payload has the shape `PayloadOf` writes, up to
      the keys `validate` ignores. */
  lemma ValidateAccepts(payload: map<string, JsValue>)
    requires Validate(payload).Ok?
    ensures var u := Validate(payload).value;
      && Claim(payload, "sub") == Num(u.userId)
      && Claim(payload, "email") == Str(u.email)
      && Claim(payload, "companyId") == Num(u.companyId)
      && Claim(payload, "role") == u.role
  {
  }

  /** A payload that lacks `sub`, or whose `companyId` is a string, is
      refused. */
  lemma ValidateRefusals(payload: map<string, JsValue>, s: string)
    ensures "sub" !in payload ==> Validate(payload) == Unauthorized(InvalidPayload)
    ensures Validate(payload["companyId" := Str(s)]) == Unauthorized(InvalidPayload)
  {
  }
}
