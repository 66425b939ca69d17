/** `RateLimitRepository.increment`: a fixed-window hit counter per key,
    kept in the `rate_limit` table by one upsert. */
module RateLimit {
  import opened Common
  import opened Store

  /** The upsert on one key's row: a new row, or a row whose window ended
      strictly before `now`, starts over at one hit with a window ending
      `ttl` from now; otherwise the hit is counted in the current window. */
  function Upsert(row: Option<RateRow>, now: int, ttl: int): (r: RateRow)
    ensures row.None? ==> r == RateRow(1, now + ttl)
    ensures row.Some? && row.value.expiresAt < now ==> r == RateRow(1, now + ttl)
    ensures row.Some? && row.value.expiresAt >= now ==>
              r == RateRow(row.value.hits + 1, row.value.expiresAt)
  {
    if row.None? || row.value.expiresAt < now then RateRow(1, now + ttl)
    else RateRow(row.value.hits + 1, row.value.expiresAt)
  }

  /** What `increment` answers from the row it reads back: `hits || 1` and
      the row's expiry, or one hit and `now + ttl` when no row is found. */
  function ReadBack(row: Option<RateRow>, now: int, ttl: int): (r: RateRow)
    ensures row.None? ==> r == RateRow(1, now + ttl)
    ensures row.Some? ==> r.expiresAt == row.value.expiresAt
    ensures row.Some? && row.value.hits != 0 ==> r.hits == row.value.hits
    ensures row.Some? && row.value.hits == 0 ==> r.hits == 1
  {
    if row.None? then RateRow(1, now + ttl)
    else RateRow(if row.value.hits != 0 then row.value.hits else 1, row.value.expiresAt)
  }

  /** The row after a run of calls at instants `times`. */
  function Replay(row: Option<RateRow>, times: seq<int>, ttl: int): Option<RateRow>
    decreases |times|
  {
    if times == [] then row else Replay(Some(Upsert(row, times[0], ttl)), times[1..], ttl)
  }

  /** Calls that all land inside an open window count up from where it
      stands, without moving its end. */
  lemma {:induction false} CountsWithinWindow(row: RateRow, times: seq<int>, ttl: int)
    requires forall i :: 0 <= i < |times| ==> times[i] <= row.expiresAt
    ensures Replay(Some(row), times, ttl) == Some(RateRow(row.hits + |times|, row.expiresAt))
    decreases |times|
  {
    if times != [] {
      CountsWithinWindow(RateRow(row.hits + 1, row.expiresAt), times[1..], ttl);
    }
  }

  /** From a fresh key, `n` calls made no later than `ttl` after the first
      one are counted 1, 2, ..., `n` in a single window. */
  lemma {:induction false} FreshKeyCounts(first: int, rest: seq<int>, ttl: int)
    requires forall i :: 0 <= i < |rest| ==> rest[i] <= first + ttl
    ensures Replay(None, [first] + rest, ttl) == Some(RateRow(1 + |rest|, first + ttl))
  {
    assert ([first] + rest)[1..] == rest;
    CountsWithinWindow(RateRow(1, first + ttl), rest, ttl);
  }

  /** A call after the window ended restarts the count, however many hits
      the old window held. */
  lemma WindowRestarts(row: RateRow, now: int, ttl: int)
    requires row.expiresAt < now
    ensures Replay(Some(row), [now], ttl) == Some(RateRow(1, now + ttl))
  {
    assert [now][1..] == [];
  }

  class RateLimitRepository {
    const db: Database

    constructor (db: Database)
      ensures this.db == db
    {
      this.db := db;
    }

    /** `increment(key, ttlMs)` at the database clock `now`: upserts the
        key's row and answers the hits and reset instant now stored. */
    method Increment(key: string, ttl: int, now: int) returns (r: RateRow)
      requires db.Valid()
      modifies db
      ensures db.Valid()
      ensures var before := if key in old(db.rateLimit) then Some(old(db.rateLimit[key])) else None;
        && db.rateLimit == old(db.rateLimit)[key := Upsert(before, now, ttl)]
        && r == Upsert(before, now, ttl)
      ensures r.hits >= 1
      ensures db.refreshTokens == old(db.refreshTokens)
      ensures db.UsersUnchanged() && db.CompaniesUnchanged() && db.InvitationsUnchanged()
    {
      var before := if key in db.rateLimit then Some(db.rateLimit[key]) else None;
      db.PutRateRow(key, Upsert(before, now, ttl));
      r := ReadBack(if key in db.rateLimit then Some(db.rateLimit[key]) else None, now, ttl);
    }
  }

  /** Every row the upsert writes holds at least one hit, so `hits || 1`
      never has to step in once the upsert ran. */
  lemma UpsertCountsAtLeastOne(row: Option<RateRow>, now: int, ttl: int)
    requires row.None? || row.value.hits >= 0
    ensures Upsert(row, now, ttl).hits >= 1
    ensures ReadBack(Some(Upsert(row, now, ttl)), now, ttl) == Upsert(row, now, ttl)
  {
  }
}
