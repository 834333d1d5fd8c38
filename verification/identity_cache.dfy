/** The `websocket_users` table: short-lived identity rows read by
    (token, session) and written by (user id, session). The table is a
    sequence of rows in insertion order, so "the first matching row" is the
    row a query without ORDER BY returns. */
module IdentityCache {
  import opened Php

  /** How long a row written on the slow path stays usable: one hour. */
  const TokenLifetime: int := 3600

  /** One row of the table. `actorType` and `name` are nullable columns. */
  datatype CacheRow = CacheRow(
    userId: string,
    sessionId: string,
    token: string,
    expiresAt: int,
    actorType: Option<string>,
    name: Option<string>)

  /** The fast-path query filter: same token, same session, expiry strictly
      after `now`. The actor type is not part of the query. */
  predicate Live(row: CacheRow, token: string, session: string, now: int) {
    row.token == token && row.sessionId == session && row.expiresAt > now
  }

  /** The upsert key. */
  predicate SameOwner(a: CacheRow, b: CacheRow) {
    a.userId == b.userId && a.sessionId == b.sessionId
  }

  /** At most one row per (user id, session id). */
  predicate OneRowPerOwner(cache: seq<CacheRow>) {
    forall i, j :: 0 <= i < j < |cache| ==> !SameOwner(cache[i], cache[j])
  }

  /** Index of the first live row, or `|cache|` when there is none. */
  function FirstLive(cache: seq<CacheRow>, token: string, session: string, now: int): (i: nat)
    ensures i <= |cache|
    ensures i < |cache| ==> Live(cache[i], token, session, now)
    ensures forall j :: 0 <= j < i ==> !Live(cache[j], token, session, now)
    decreases |cache|
  {
    if |cache| == 0 then 0
    else if Live(cache[0], token, session, now) then 0
    else 1 + FirstLive(cache[1..], token, session, now)
  }

  /** `where token = ? and session_id = ? and expires_at > now() ->first()`:
      a hit exactly when some row is live, and then the first live row. */
  function Lookup(cache: seq<CacheRow>, token: string, session: string, now: int): (r: Option<CacheRow>)
    ensures r.Some? <==> exists k :: 0 <= k < |cache| && Live(cache[k], token, session, now)
    ensures r.Some? ==> r.value in cache && Live(r.value, token, session, now)
    ensures r.Some? ==> exists k :: 0 <= k < |cache| && cache[k] == r.value
                          && forall j :: 0 <= j < k ==> !Live(cache[j], token, session, now)
  {
    var i := FirstLive(cache, token, session, now);
    if i < |cache| then Some(cache[i]) else None
  }

  /** Index of the first row owned by (userId, sessionId), or `|cache|`. */
  function FirstOwned(cache: seq<CacheRow>, row: CacheRow): (i: nat)
    ensures i <= |cache|
    ensures i < |cache| ==> SameOwner(cache[i], row)
    ensures forall j :: 0 <= j < i ==> !SameOwner(cache[j], row)
    decreases |cache|
  {
    if |cache| == 0 then 0
    else if SameOwner(cache[0], row) then 0
    else 1 + FirstOwned(cache[1..], row)
  }

  /** `updateOrCreate(['user_id', 'session_id'], [token, expires_at, type, name])`:
      the first row with the same owner is overwritten in place, otherwise
      the row is appended. Rows of other owners keep their place and
      content, and the one-row-per-owner invariant is kept. */
  function Upsert(cache: seq<CacheRow>, row: CacheRow): (r: seq<CacheRow>)
    ensures row in r
    ensures |r| == |cache| || |r| == |cache| + 1
    ensures |r| == |cache| + 1 <==> forall k :: 0 <= k < |cache| ==> !SameOwner(cache[k], row)
    ensures forall k :: 0 <= k < |cache| && !SameOwner(cache[k], row) ==> r[k] == cache[k]
    ensures forall k :: 0 <= k < |r| ==> r[k] == row || (k < |cache| && r[k] == cache[k])
    ensures OneRowPerOwner(cache) ==> OneRowPerOwner(r)
    ensures OneRowPerOwner(cache) ==> forall k :: 0 <= k < |r| && SameOwner(r[k], row) ==> r[k] == row
  {
    var i := FirstOwned(cache, row);
    if i < |cache| then
      var r := cache[i := row];
      assert r[i] == row;
      r
    else cache + [row]
  }

  /** After an upsert at time `now`, the written row answers every fast-path
      query with its token and session until it expires, one hour later. */
  lemma UpsertedRowIsLive(cache: seq<CacheRow>, row: CacheRow, now: int, later: int)
    requires row.expiresAt == now + TokenLifetime
    requires now <= later < now + TokenLifetime
    ensures Lookup(Upsert(cache, row), row.token, row.sessionId, later).Some?
  {
    var r := Upsert(cache, row);
    var k :| 0 <= k < |r| && r[k] == row;
    assert Live(r[k], row.token, row.sessionId, later);
  }

  /** Index of the first row stored for a user id, or `|cache|`. */
  function FirstOfUser(cache: seq<CacheRow>, userId: string): (i: nat)
    ensures i <= |cache|
    ensures i < |cache| ==> cache[i].userId == userId
    ensures forall j :: 0 <= j < i ==> cache[j].userId != userId
    decreases |cache|
  {
    if |cache| == 0 then 0
    else if cache[0].userId == userId then 0
    else 1 + FirstOfUser(cache[1..], userId)
  }

  /** The first row stored for a user id, whatever its session
      (`where user_id = ? ->first()`). */
  function FirstForUser(cache: seq<CacheRow>, userId: string): (r: Option<CacheRow>)
    ensures r.Some? <==> exists k :: 0 <= k < |cache| && cache[k].userId == userId
    ensures r.Some? ==> r.value in cache && r.value.userId == userId
    ensures r.Some? ==> exists k :: 0 <= k < |cache| && cache[k] == r.value
                          && forall j :: 0 <= j < k ==> cache[j].userId != userId
  {
    var i := FirstOfUser(cache, userId);
    if i < |cache| then Some(cache[i]) else None
  }
}
