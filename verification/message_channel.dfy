/** The presence-channel join callback: credential presence check, the
    actor-type namespace gate, identity resolution, and the public presence
    payload. Also the blank-text guard of the `client-message` whisper. */
module MessageChannel {
  import opened Php
  import opened IdentityCache
  import opened AuthResolver

  /** `^user\.(.+)$`: "user." followed by at least one character. */
  predicate UserChannel(channel: string) {
    StartsWith(channel, "user.") && |channel| > |"user."|
  }

  /** `^worker\.(.+)$`: "worker." followed by at least one character. */
  predicate WorkerChannel(channel: string) {
    StartsWith(channel, "worker.") && |channel| > |"worker."|
  }

  /** The namespace gate: user channels admit only the actor "user", worker
      channels only the actor "worker", every other channel any actor. */
  function ChannelAdmits(channel: string, actor: string): (ok: bool)
    ensures ok <==> (UserChannel(channel) ==> actor == "user") && (WorkerChannel(channel) ==> actor == "worker")
    ensures !UserChannel(channel) && !WorkerChannel(channel) ==> ok
  {
    if UserChannel(channel) then
      assert !WorkerChannel(channel) by {
        assert channel[0] == "user."[0];
      }
      actor == "user"
    else if WorkerChannel(channel) then actor == "worker"
    else true
  }

  /** What the other members of the channel see: an id, a name and a type;
      never a token, an expiry or a session. */
  datatype Presence = Presence(userId: string, name: string, actorType: string)

  /** `presenceData($userId, $extra)`: the name falls back from the extra
      name to the first stored row of the user, then to the extra email,
      then to "User"; the type falls back from the extra type to the stored
      row's type, then to "user". */
  function PresenceData(cache: seq<CacheRow>, userId: string,
                        extraName: Option<string>, extraType: Option<string>, extraEmail: Option<string>): (p: Presence)
    ensures p.userId == userId
    ensures extraName.Some? ==> p.name == extraName.value
    ensures extraType.Some? ==> p.actorType == extraType.value
    ensures extraName.None? ==>
              p.name in (set row | row in cache && row.userId == userId && row.name.Some? :: row.name.value)
              || (extraEmail.Some? && p.name == extraEmail.value)
              || p.name == "User"
    ensures extraName.None? && extraEmail.None? &&
            (forall row :: row in cache && row.userId == userId ==> row.name.None?) ==>
              p.name == "User"
    ensures extraType.None? && (forall row :: row in cache && row.userId == userId ==> row.actorType.None?) ==>
              p.actorType == "user"
    ensures var stored := FirstForUser(cache, userId);
            extraName.None? ==>
              p.name == (if stored.Some? && stored.value.name.Some? then stored.value.name.value
                         else extraEmail.GetOr("User"))
    ensures var stored := FirstForUser(cache, userId);
            extraType.None? ==>
              p.actorType == (if stored.Some? && stored.value.actorType.Some? then stored.value.actorType.value
                              else "user")
  {
    var stored := FirstForUser(cache, userId);
    var storedName := if stored.Some? then stored.value.name else None;
    var storedType := if stored.Some? then stored.value.actorType else None;
    Presence(
      userId,
      extraName.GetOr(storedName.GetOr(extraEmail.GetOr("User"))),
      extraType.GetOr(storedType.GetOr("user")))
  }

  datatype JoinResult = JoinResult(presence: Option<Presence>, cache: seq<CacheRow>, asked: seq<Credentials>)

  /** `join($user, $channel)`. A missing token or session, or a channel of
      the other actor's namespace, refuses before the cache is read or the
      authority asked. Otherwise the identity is resolved; a cache hit
      needs the cached type to be the actor, the slow path needs the
      authority to vouch for the actor, and only the slow path writes the
      cache (a failed write, `cacheWriteSucceeds` false, is swallowed and
      the join still succeeds). */
  function Join(cache: seq<CacheRow>, h: Headers, channel: string, now: int,
                authority: Credentials -> AuthResponse, cacheWriteSucceeds: bool): (r: JoinResult)
    ensures !HasCredentials(h) || !ChannelAdmits(channel, Actor(h)) ==> r == JoinResult(None, cache, [])
    ensures r.presence.Some? ==> HasCredentials(h) && ChannelAdmits(channel, Actor(h))
    ensures r.presence.Some? && UserChannel(channel) ==> Actor(h) == "user"
    ensures r.presence.Some? && WorkerChannel(channel) ==> Actor(h) == "worker"
    ensures HasCredentials(h) && ChannelAdmits(channel, Actor(h)) ==>
              var res := Resolve(cache, CredentialsOf(h), now, authority, cacheWriteSucceeds);
              && r.cache == res.cache && r.asked == res.asked
              && (r.presence.Some? <==> res.verdict.Accepted())
              && (r.presence.Some? ==> r.presence.value.userId == res.verdict.row.userId)
    ensures r.presence.Some? && r.asked == [] ==>
              r.presence.value.actorType == Actor(h)
              && exists row :: row in cache && Live(row, h.accessToken.value, h.sessionId.value, now)
                               && row.userId == r.presence.value.userId && row.actorType == Some(Actor(h))
    ensures r.presence.Some? && r.asked != [] ==>
              var body := authority(CredentialsOf(h)).body;
              && Vouches(authority(CredentialsOf(h)), Actor(h))
              && Some(r.presence.value.userId) == body.userId
              && (body.userType.Some? ==> r.presence.value.actorType == Actor(h))
    ensures r.presence.Some? && r.asked == [] ==>
              var hit := Lookup(cache, h.accessToken.value, h.sessionId.value, now).value;
              r.presence.value == PresenceData(r.cache, hit.userId, hit.name, hit.actorType, None)
    ensures r.presence.Some? && r.asked != [] ==>
              var body := authority(CredentialsOf(h)).body;
              r.presence.value == PresenceData(r.cache, body.userId.value, body.name, body.userType, body.email)
  {
    if !HasCredentials(h) || !ChannelAdmits(channel, Actor(h)) then
      JoinResult(None, cache, [])
    else
      var res := Resolve(cache, CredentialsOf(h), now, authority, cacheWriteSucceeds);
      match res.verdict
      case Refused => JoinResult(None, res.cache, res.asked)
      case CacheHit(row) =>
        JoinResult(Some(PresenceData(res.cache, row.userId, row.name, row.actorType, None)), res.cache, res.asked)
      case Verified(row, body) =>
        JoinResult(Some(PresenceData(res.cache, row.userId, body.name, body.userType, body.email)), res.cache, res.asked)
  }

  /** The text a `client-message` whisper would store and rebroadcast:
      `trim($payload['text'] ?? $payload['message'] ?? '')`, or `None` when
      the guard drops the message because the trimmed text is falsy (or
      `trim` is handed an array). */
  function ChatText(payload: Json): (r: Option<string>)
    ensures r.Some? ==> TruthyText(r.value) && Trim(r.value) == r.value
    ensures Field(payload, "text").Some? && Field(payload, "text").value.JStr? ==>
              (r.None? <==> AllBlank(Field(payload, "text").value.s) || Trim(Field(payload, "text").value.s) == "0")
    ensures Field(payload, "text").Some? && Field(payload, "text").value.JStr? ==>
              (r.Some? ==> r.value == Trim(Field(payload, "text").value.s))
    ensures Field(payload, "text").Some? && IsArray(Field(payload, "text").value) ==> r.None?
    ensures Field(payload, "text").None? && Field(payload, "message").Some? && Field(payload, "message").value.JStr? ==>
              var m := Field(payload, "message").value.s;
              (r.None? <==> AllBlank(m) || Trim(m) == "0") && (r.Some? ==> r.value == Trim(m))
    ensures Field(payload, "text").None? && Field(payload, "message").Some? && IsArray(Field(payload, "message").value) ==>
              r.None?
    ensures Field(payload, "text").None? && Field(payload, "message").None? ==> r.None?
  {
    KeptText(PhpString(Coalesce(payload, "text", Coalesce(payload, "message", JStr("")))))
  }

  /** The string `trim` is handed for a scalar (an integer prints in
      decimal, `true` as "1", `false` as ""); `None` for null and arrays. */
  function PhpString(raw: Json): (r: Option<string>)
    ensures raw.JStr? ==> r == Some(raw.s)
    ensures raw.JNull? || IsArray(raw) ==> r.None?
  {
    match raw
    case JStr(s) => Some(s)
    case JNum(n) => Some(IntText(n))
    case JBool(b) => Some(if b then "1" else "")
    case _ => None
  }

  /** The guard itself: the trimmed text, kept only when it is truthy. */
  function KeptText(text: Option<string>): (r: Option<string>)
    ensures text.None? ==> r.None?
    ensures text.Some? ==> (r.None? <==> AllBlank(text.value) || Trim(text.value) == "0")
    ensures r.Some? ==> r.value == Trim(text.value) && TruthyText(r.value) && Trim(r.value) == r.value
  {
    if text.Some? then
      var t := Trim(text.value);
      TrimIdempotent(text.value);
      TrimEmptyIffBlank(text.value);
      if TruthyText(t) then Some(t) else None
    else None
  }

  /** The announced type differs from the actor the client claimed in
      exactly one case: the authority vouched without naming a type, and
      the first stored row of the user (in the cache after the join) has a
      different type, or none while the actor is not "user". */
  lemma JoinAnnouncedType(cache: seq<CacheRow>, h: Headers, channel: string, now: int,
                          authority: Credentials -> AuthResponse, cacheWriteSucceeds: bool)
    ensures var r := Join(cache, h, channel, now, authority, cacheWriteSucceeds);
            r.presence.Some? ==>
              (r.presence.value.actorType != Actor(h) <==>
                 && r.asked != []
                 && authority(CredentialsOf(h)).body.userType.None?
                 && var stored := FirstForUser(r.cache, r.presence.value.userId);
                    (if stored.Some? && stored.value.actorType.Some? then stored.value.actorType.value else "user")
                      != Actor(h))
  {
  }
}
