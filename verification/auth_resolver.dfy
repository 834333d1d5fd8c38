/** The identity resolution shared by the presence-channel join and the
    request guard: fast path through the identity cache, slow path through
    the external authority, an actor-type check on both paths, and a
    write-back keyed by (user id, session). The authority is a function
    parameter; every request sent to it is recorded in `asked`. */
module AuthResolver {
  import opened Php
  import opened IdentityCache

  /** The three headers a client presents, sent on to the authority as is. */
  datatype Credentials = Credentials(token: string, session: string, actor: string)

  /** The request headers both call sites read; `None` is an absent header. */
  datatype Headers = Headers(accessToken: Option<string>, sessionId: Option<string>, actorType: Option<string>)

  /** `header('x-actor-type', 'user')`: the default applies only to an absent header. */
  function Actor(h: Headers): (actor: string)
    ensures h.actorType.Some? ==> actor == h.actorType.value
    ensures h.actorType.None? ==> actor == "user"
  {
    h.actorType.GetOr("user")
  }

  /** `$accessToken && $sessionId`: both present and truthy, so a header
      that is empty or "0" counts as missing. */
  function HasCredentials(h: Headers): (ok: bool)
    ensures ok <==> && h.accessToken.Some? && h.accessToken.value != "" && h.accessToken.value != "0"
                    && h.sessionId.Some? && h.sessionId.value != "" && h.sessionId.value != "0"
  {
    TruthyOpt(h.accessToken) && TruthyOpt(h.sessionId)
  }

  function CredentialsOf(h: Headers): (c: Credentials)
    requires HasCredentials(h)
    ensures Some(c.token) == h.accessToken && Some(c.session) == h.sessionId && c.actor == Actor(h)
  {
    Credentials(h.accessToken.value, h.sessionId.value, Actor(h))
  }

  /** The fields of the authority's success body that the gateway reads. */
  datatype Identity = Identity(
    userId: Option<string>,
    userType: Option<string>,
    name: Option<string>,
    email: Option<string>)

  /** A non-2xx status (or a network failure) versus a 2xx response body. */
  datatype AuthResponse = Unsuccessful | Successful(body: Identity)

  /** The outcome of one resolution. */
  datatype Verdict =
    | Refused
    | CacheHit(row: CacheRow)
    | Verified(row: CacheRow, body: Identity)
  {
    predicate Accepted() { !Refused? }
  }

  datatype Resolution = Resolution(verdict: Verdict, cache: seq<CacheRow>, asked: seq<Credentials>)

  /** `$data['type'] ?? $actor`. */
  function ReturnedType(body: Identity, actor: string): (t: string)
    ensures t == actor <==> body.userType.None? || body.userType == Some(actor)
    ensures body.userType.Some? ==> t == body.userType.value
  {
    body.userType.GetOr(actor)
  }

  /** The authority vouches for a principal of the requested actor type: a
      success status, a non-empty user id, and a type that is either absent
      or equal to the requested one. */
  function Vouches(response: AuthResponse, actor: string): (ok: bool)
    ensures ok <==> && response.Successful?
                    && response.body.userId.Some? && TruthyText(response.body.userId.value)
                    && (response.body.userType.None? || response.body.userType == Some(actor))
  {
    && response.Successful?
    && TruthyOpt(response.body.userId)
    && ReturnedType(response.body, actor) == actor
  }

  /** The row both call sites write after a successful slow path. */
  function FreshRow(body: Identity, creds: Credentials, now: int): (row: CacheRow)
    requires body.userId.Some?
    ensures Some(row.userId) == body.userId && row.name == body.name && row.actorType == Some(creds.actor)
    ensures forall t :: now <= t < now + TokenLifetime ==> Live(row, creds.token, creds.session, t)
    ensures !Live(row, creds.token, creds.session, now + TokenLifetime)
  {
    CacheRow(body.userId.value, creds.session, creds.token, now + TokenLifetime, Some(creds.actor), body.name)
  }

  /** Resolves (token, session, actor) at time `now`. A live cached row ends
      the resolution without asking the authority: accepted when its type is
      the requested actor, refused otherwise. Without a live row the
      authority is asked exactly once; it is accepted only if it vouches
      for the requested actor type, and only then is the cache written
      (when `persist` holds — the join tolerates a failed write). Whatever
      is accepted carries the requested actor type. */
  function Resolve(cache: seq<CacheRow>, creds: Credentials, now: int,
                   authority: Credentials -> AuthResponse, persist: bool): (r: Resolution)
    ensures r.asked == [] <==> exists k :: 0 <= k < |cache| && Live(cache[k], creds.token, creds.session, now)
    ensures r.asked != [] ==> r.asked == [creds]
    ensures r.verdict.CacheHit? <==> r.asked == [] && r.verdict.Accepted()
    ensures r.verdict.CacheHit? ==> r.verdict.row in cache && Live(r.verdict.row, creds.token, creds.session, now)
    ensures r.asked == [] ==>
              var hit := Lookup(cache, creds.token, creds.session, now).value;
              r.verdict == (if hit.actorType == Some(creds.actor) then CacheHit(hit) else Refused)
    ensures r.asked == [] && !r.verdict.Accepted() ==>
              exists k :: 0 <= k < |cache| && Live(cache[k], creds.token, creds.session, now)
                          && cache[k].actorType != Some(creds.actor)
    ensures r.verdict.Verified? <==> r.asked != [] && Vouches(authority(creds), creds.actor)
    ensures r.verdict.Verified? ==>
              r.verdict.body == authority(creds).body && r.verdict.row == FreshRow(r.verdict.body, creds, now)
    ensures r.verdict.Accepted() ==> r.verdict.row.actorType == Some(creds.actor)
    ensures r.cache == (if r.verdict.Verified? && persist then Upsert(cache, r.verdict.row) else cache)
  {
    match Lookup(cache, creds.token, creds.session, now)
    case Some(row) =>
      Resolution(if row.actorType == Some(creds.actor) then CacheHit(row) else Refused, cache, [])
    case None =>
      var response := authority(creds);
      if Vouches(response, creds.actor) then
        var row := FreshRow(response.body, creds, now);
        Resolution(Verified(row, response.body), if persist then Upsert(cache, row) else cache, [creds])
      else
        Resolution(Refused, cache, [creds])
  }

  /** On the fast path the authority is irrelevant: any two authorities and
      write policies give the same resolution. */
  lemma CacheHitIgnoresAuthority(cache: seq<CacheRow>, creds: Credentials, now: int,
                                 a1: Credentials -> AuthResponse, a2: Credentials -> AuthResponse,
                                 p1: bool, p2: bool)
    requires Lookup(cache, creds.token, creds.session, now).Some?
    ensures Resolve(cache, creds, now, a1, p1) == Resolve(cache, creds, now, a2, p2)
  {
  }

  /** A persisted slow-path resolution makes every later resolution of the
      same token and session within the hour a fast-path one: the authority
      is not asked again, and the result is accepted exactly when the first
      live row carries the newly requested actor type. */
  lemma {:induction false} SecondResolutionHitsCache(cache: seq<CacheRow>, creds: Credentials, now: int,
                                                    authority: Credentials -> AuthResponse,
                                                    creds2: Credentials, later: int,
                                                    authority2: Credentials -> AuthResponse, persist2: bool)
    requires Resolve(cache, creds, now, authority, true).verdict.Verified?
    requires creds2.token == creds.token && creds2.session == creds.session
    requires now <= later < now + TokenLifetime
    ensures Resolve(Resolve(cache, creds, now, authority, true).cache, creds2, later, authority2, persist2).asked == []
    ensures var after := Resolve(cache, creds, now, authority, true).cache;
            (Resolve(after, creds2, later, authority2, persist2).verdict.Accepted() <==>
             Lookup(after, creds.token, creds.session, later).value.actorType == Some(creds2.actor))
  {
    var first := Resolve(cache, creds, now, authority, true);
    UpsertedRowIsLive(cache, first.verdict.row, now, later);
  }
}
