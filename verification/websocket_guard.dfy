/** The `websocket` request guard: resolves the request's headers to a
    cached identity row once per request and memoises it. The guard's state
    is the request headers plus the memoised user. */
module WebsocketGuard {
  import opened Php
  import opened IdentityCache
  import opened AuthResolver

  datatype Guard = Guard(request: Headers, memo: Option<CacheRow>)

  /** The result of one `user()` call: the user (or null), the guard after
      the call, the identity cache after the call, and the requests sent to
      the authority during the call. */
  datatype UserCall = UserCall(user: Option<CacheRow>, guard: Guard, cache: seq<CacheRow>, asked: seq<Credentials>)

  /** `user()`. A memoised user is returned as is, without reading the
      headers, the cache or the authority. Otherwise a missing token or
      session yields null; a live cached row is returned only when its type
      is the requested actor; on the slow path the authority must vouch for
      the actor, the row keyed by (user id, session) is upserted with an
      expiry one hour from `now`, and that row is returned. Only a success
      is memoised, and every returned user has the requested actor type. */
  function User(g: Guard, cache: seq<CacheRow>, now: int, authority: Credentials -> AuthResponse): (r: UserCall)
    ensures g.memo.Some? ==> r == UserCall(g.memo, g, cache, [])
    ensures g.memo.None? && !HasCredentials(g.request) ==> r == UserCall(None, g, cache, [])
    ensures r.user.None? ==> r.guard == g
    ensures r.user.Some? ==> r.guard == g.(memo := r.user)
    ensures g.memo.None? && r.user.Some? ==> r.user.value.actorType == Some(Actor(g.request))
    ensures g.memo.None? && r.user.Some? && r.asked == [] ==>
              r.cache == cache && r.user.value in cache
              && Live(r.user.value, g.request.accessToken.value, g.request.sessionId.value, now)
    ensures g.memo.None? && r.user.Some? && r.asked != [] ==>
              var creds := CredentialsOf(g.request);
              && r.asked == [creds]
              && Vouches(authority(creds), creds.actor)
              && r.user.value == FreshRow(authority(creds).body, creds, now)
              && r.user.value.expiresAt == now + TokenLifetime
              && r.cache == Upsert(cache, r.user.value)
    ensures r.user.None? ==> r.cache == cache
    ensures g.memo.None? && HasCredentials(g.request) ==>
              var res := Resolve(cache, CredentialsOf(g.request), now, authority, true);
              && r.asked == res.asked && r.cache == res.cache
              && (r.user.Some? <==> res.verdict.Accepted())
              && (r.user.Some? ==> r.user.value == res.verdict.row)
  {
    if g.memo.Some? then
      UserCall(g.memo, g, cache, [])
    else if !HasCredentials(g.request) then
      UserCall(None, g, cache, [])
    else
      var res := Resolve(cache, CredentialsOf(g.request), now, authority, true);
      if res.verdict.Accepted() then
        UserCall(Some(res.verdict.row), g.(memo := Some(res.verdict.row)), res.cache, res.asked)
      else
        UserCall(None, g, res.cache, res.asked)
  }

  /** Once `user()` succeeded, a second call returns the same user and
      touches neither the cache nor the authority. */
  lemma UserIsMemoised(g: Guard, cache: seq<CacheRow>, now: int, authority: Credentials -> AuthResponse,
                       later: int, authority2: Credentials -> AuthResponse)
    requires User(g, cache, now, authority).user.Some?
    ensures var first := User(g, cache, now, authority);
            User(first.guard, first.cache, later, authority2) == UserCall(first.user, first.guard, first.cache, [])
  {
  }

  /** `check()`: whether `user()` yields a user; the call's effects are kept. */
  function Check(g: Guard, cache: seq<CacheRow>, now: int, authority: Credentials -> AuthResponse): (r: (bool, UserCall))
    ensures r.0 <==> r.1.user.Some?
    ensures r.1 == User(g, cache, now, authority)
  {
    var call := User(g, cache, now, authority);
    (call.user.Some?, call)
  }

  /** `guest()`: the negation of `check()`, with the same effects. */
  function Guest(g: Guard, cache: seq<CacheRow>, now: int, authority: Credentials -> AuthResponse): (r: (bool, UserCall))
    ensures r.0 <==> !Check(g, cache, now, authority).0
    ensures r.1 == Check(g, cache, now, authority).1
  {
    var (authenticated, call) := Check(g, cache, now, authority);
    (!authenticated, call)
  }

  /** `hasUser()`: whether a user is memoised; resolves nothing. */
  function HasUser(g: Guard): (b: bool)
    ensures b <==> g.memo.Some?
  {
    g.memo.Some?
  }

  /** `setUser($user)`: the given user becomes the memoised one. */
  function SetUser(g: Guard, user: CacheRow): (r: Guard)
    ensures HasUser(r) && r.request == g.request
    ensures forall cache, now, authority :: User(r, cache, now, authority).user == Some(user)
  {
    g.(memo := Some(user))
  }

  /** `validate()`: token authentication never validates raw credentials. */
  function Validate(credentials: map<string, Json>): (valid: bool)
    ensures !valid
  {
    false
  }
}
