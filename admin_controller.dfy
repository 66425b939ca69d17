/** `AdminAuthController`: the `/admin` routes. `register`, `verify-email`
    and `verify-invite-token` hand their body straight to the service; the
    routes below do something of their own first. */
module AdminController {
  import opened Common
  import opened Store
  import opened JwtStrategy
  import opened AdminAuth

  const NoTokenProvided := "No token provided in Authorization header"

  // ---- `authHeader.replace(/Bearer\s+/i, '')` ------------------------------

  /** `bearer` in any letter case at `i`. */
  predicate BearerWordAt(s: string, i: nat) {
    i + 6 <= |s| && Lower(s[i..i + 6]) == "bearer"
  }

  /** The length of the run of white space starting at `i`. */
  function SpaceRun(s: string, i: nat): (n: nat)
    requires i <= |s|
    ensures i + n <= |s|
    ensures forall k :: i <= k < i + n ==> IsSpace(s[k])
    ensures i + n < |s| ==> !IsSpace(s[i + n])
    decreases |s| - i
  {
    if i < |s| && IsSpace(s[i]) then 1 + SpaceRun(s, i + 1) else 0
  }

  /** The pattern matches at `i`: the word and at least one white space. */
  predicate MatchAt(s: string, i: nat) {
    BearerWordAt(s, i) && SpaceRun(s, i + 6) >= 1
  }

  /** The leftmost match at or after `from`. */
  function FirstMatch(s: string, from: nat): (m: Option<nat>)
    requires from <= |s|
    ensures m.Some? ==> from <= m.value <= |s| && MatchAt(s, m.value)
    ensures m.Some? ==> forall i :: from <= i < m.value ==> !MatchAt(s, i)
    ensures m.None? ==> forall i :: from <= i <= |s| ==> !MatchAt(s, i)
    decreases |s| - from
  {
    if MatchAt(s, from) then Some(from)
    else if from == |s| then None
    else FirstMatch(s, from + 1)
  }

  /** The first match removed, its white space taken greedily; the string
      unchanged when there is none. */
  function StripBearer(s: string): (t: string)
    ensures FirstMatch(s, 0).None? ==> t == s
    ensures FirstMatch(s, 0).Some? ==> |t| < |s| - 6
  {
    match FirstMatch(s, 0)
    case None => s
    case Some(i) => s[..i] + s[i + 6 + SpaceRun(s, i + 6)..]
  }

  /** A header of the usual form `Bearer <token>` yields the token, in any
      letter case of the scheme and after any amount of white space. */
  lemma {:induction false} StripsScheme(scheme: string, gap: string, token: string)
    requires |scheme| == 6 && Lower(scheme) == "bearer"
    requires |gap| >= 1 && forall k :: 0 <= k < |gap| ==> IsSpace(gap[k])
    requires token == [] || !IsSpace(token[0])
    ensures StripBearer(scheme + gap + token) == token
  {
    var s := scheme + gap + token;
    assert s[0..6] == scheme;
    SpaceRunOver(s, 6, |gap|);
    assert MatchAt(s, 0);
    assert s[6 + |gap|..] == token;
  }

  /** `SpaceRun` over a known run of `n` white spaces followed by a
      non-space or the end. */
  lemma {:induction false} SpaceRunOver(s: string, i: nat, n: nat)
    requires i + n <= |s|
    requires forall k :: i <= k < i + n ==> IsSpace(s[k])
    requires i + n == |s| || !IsSpace(s[i + n])
    ensures SpaceRun(s, i) == n
    decreases n
  {
    if n > 0 {
      SpaceRunOver(s, i + 1, n - 1);
    }
  }

  /** A match at `k` with none between `from` and `k` is the first one. */
  lemma {:induction false} FirstMatchIs(s: string, from: nat, k: nat)
    requires from <= k <= |s| && MatchAt(s, k)
    requires forall i :: from <= i < k ==> !MatchAt(s, i)
    ensures FirstMatch(s, from) == Some(k)
    decreases k - from
  {
    if from < k {
      FirstMatchIs(s, from + 1, k);
    }
  }

  /** The pattern is not anchored and only its first match goes: whatever
      precedes the first `Bearer` and white space is kept, and whatever
      follows is kept as it is, further `Bearer ` included. */
  lemma StripsFirstMatchOnly(p: string, scheme: string, gap: string, t: string)
    requires |scheme| == 6 && Lower(scheme) == "bearer"
    requires |gap| >= 1 && forall k :: 0 <= k < |gap| ==> IsSpace(gap[k])
    requires t == [] || !IsSpace(t[0])
    requires forall i :: 0 <= i < |p| ==> !MatchAt(p + scheme + gap + t, i)
    ensures StripBearer(p + scheme + gap + t) == p + t
  {
    var s := p + scheme + gap + t;
    var k := |p|;
    assert s[k..k + 6] == scheme;
    assert forall j :: k + 6 <= j < k + 6 + |gap| ==> s[j] == gap[j - k - 6];
    if t != [] {
      assert s[k + 6 + |gap|] == t[0];
    }
    SpaceRunOver(s, k + 6, |gap|);
    assert MatchAt(s, k);
    FirstMatchIs(s, 0, k);
    assert s[..k] == p;
    assert s[k + 6 + |gap|..] == t;
  }

  /** No match starts inside a prefix none of whose characters lower-cases
      to `b`. */
  lemma NoMatchInPrefix(p: string, rest: string)
    requires forall i :: 0 <= i < |p| ==> LowerChar(p[i]) != 'b'
    ensures forall i :: 0 <= i < |p| ==> !MatchAt(p + rest, i)
  {
    forall i | 0 <= i < |p|
      ensures !MatchAt(p + rest, i)
    {
      assert (p + rest)[i] == p[i];
    }
  }

  /** A scheme word in the middle of the header is removed and a second
      one stays: `Token Bearer x Bearer y` becomes `Token x Bearer y`. */
  lemma StripsFirstMatchExample()
    ensures StripBearer("Token " + "Bearer" + " " + "x Bearer y") == "Token " + "x Bearer y"
  {
    var p, scheme, gap, t := "Token ", "Bearer", " ", "x Bearer y";
    assert forall i :: 0 <= i < |p| ==> LowerChar(p[i]) != 'b';
    NoMatchInPrefix(p, scheme + gap + t);
    assert p + (scheme + gap + t) == p + scheme + gap + t;
    assert Lower(scheme) == "bearer";
    StripsFirstMatchOnly(p, scheme, gap, t);
  }

  /** Without white space nothing matches, so the header is taken whole,
      `Bearer` alone included. */
  lemma NoSpaceKeptWhole(s: string)
    requires forall k :: 0 <= k < |s| ==> !IsSpace(s[k])
    ensures StripBearer(s) == s
  {
    forall i | 0 <= i <= |s|
      ensures !MatchAt(s, i)
    {
      if BearerWordAt(s, i) && i + 6 < |s| {
        assert !IsSpace(s[i + 6]);
      }
    }
  }

  /** `Bearer` followed only by white space leaves nothing, which the
      controller refuses. */
  lemma SchemeOnlyIsEmpty(gap: string)
    requires |gap| >= 1 && forall k :: 0 <= k < |gap| ==> IsSpace(gap[k])
    ensures StripBearer("Bearer" + gap) == ""
  {
    assert Lower("Bearer") == "bearer";
    StripsScheme("Bearer", gap, "");
    assert "Bearer" + gap + "" == "Bearer" + gap;
  }

  /** The token the controller passes on: None when the header is absent or
      nothing remains after the scheme. */
  function HeaderToken(header: Option<string>): (t: Option<string>)
    ensures t.Some? ==> t.value != "" && header.Some? && t.value == StripBearer(header.value)
    ensures t.None? ==> header.None? || StripBearer(header.value) == ""
  {
    if header.None? || StripBearer(header.value) == "" then None else Some(StripBearer(header.value))
  }

  class AdminAuthController {
    const service: AdminAuthService

    constructor (service: AdminAuthService)
      ensures this.service == service
    {
      this.service := service;
    }

    /** `POST /admin/complete-registration`: the token comes from the
        `authorization` header; without one nothing is read or written. */
    method CompleteRegistration(dto: AdminInvite, header: Option<string>, now: int) returns (r: Outcome<User>)
      requires service.db.Valid()
      modifies service.db, service.mail
      ensures service.db.Valid()
      ensures HeaderToken(header).None? ==>
        r == Unauthorized(NoTokenProvided) && unchanged(service.db) && unchanged(service.mail)
      ensures HeaderToken(header).Some? ==>
        var target := CompletionTarget(service.jwt.Verify(HeaderToken(header).value, now), old(service.db.users));
        && (!target.Ok? ==> r == target && unchanged(service.db) && unchanged(service.mail))
        && (target.Ok? ==>
              && r == Ok(Completed(target.value, dto))
              && service.db.users == old(service.db.users)[target.value.id := r.value])
      ensures service.db.OnlyUsersChanged()
    {
      var token := HeaderToken(header);
      if token.None? {
        return Unauthorized(NoTokenProvided);
      }
      r := service.CompleteRegistration(token.value, dto, now);
    }

    /** `POST /admin/invite-admin`: the inviter's role is whatever the token
        carried under `role`. */
    method InviteAdmin(dto: AdminInvite, user: AuthUser, token: string, now: int) returns (r: Outcome<Invited>)
      requires service.db.Valid() && token !in service.jwt.signed
      modifies service.db, service.mail, service.jwt
      ensures service.db.Valid()
      ensures var refusal := InviteRefusal(dto.email in old(service.db.userIdByEmail), user.role, dto);
        && (refusal.Some? ==> r == refusal.value && unchanged(service.db) && unchanged(service.mail))
        && (refusal.None? ==>
              && r.Ok? && r.value.token == token && r.value.user.roleId == dto.roleId
              && service.db.users == old(service.db.users)[r.value.user.id := r.value.user])
      ensures service.db.OnlyUsersChanged()
    {
      r := service.InviteAdminUser(dto, user.role, token, now);
    }

    /** `GET /admin/get-users`: the caller's token role decides. */
    method GetAllUsers(status: Option<string>, search: Option<string>, user: AuthUser)
        returns (r: Outcome<seq<UserListing>>)
      requires service.db.Valid()
      ensures !MayListUsers(user.role) ==> r == Unauthorized(AdminOnlyList)
      ensures MayListUsers(user.role) ==> r.Ok? && IsUserList(r.value, service.db.users, status, search)
    {
      r := service.GetAllUsers(status, search, user.role);
    }
  }

  /** A caller whose token role is a role name rather than a number (as the
      company routes expect) can neither invite nor list. */
  lemma StringRoleLocked(dto: AdminInvite, name: string, emailTaken: bool)
    requires !emailTaken
    ensures InviteRefusal(emailTaken, Str(name), dto) == Some(Unauthorized(InviterNotAdmin))
    ensures !MayListUsers(Str(name))
  {
  }
}
