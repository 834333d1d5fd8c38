# Realtime notification gateway — a Dafny model

This project models the core of a Laravel/Reverb notification gateway as pure
functions over small in-memory tables, and proves properties of it with
Dafny.

- **Identity resolution** (`IdentityCache`, `AuthResolver`). The
  `websocket_users` table is a sequence of rows in insertion order. A query's
  `first()` returns the first matching row. The fast path reads the table by
  (token, session) and needs `expires_at > now`. The slow path asks the
  external authority, which is a function parameter. Every request to it is
  recorded, so "the authority was not consulted" is a statement about the
  result. The slow path writes back through `updateOrCreate` keyed by
  (user id, session). The same resolution is shared by the two call sites:
  - the presence-channel join callback (`MessageChannel.Join`), which adds
    the namespace gate, the swallowed cache-write failure and the presence
    payload;
  - the request guard (`WebsocketGuard.User`), which adds memoisation.
- **Fan-out** (`BroadcastApi`). `POST /broadcast-message` proceeds in four
  steps:
  - it checks the app credentials and the required fields;
  - it expands recipients from `userIds` and the channel name;
  - it deduplicates them and drops falsy ids;
  - it appends the notification and one pending delivery record per
    recipient, then broadcasts.

  `GET /pending-notifications` sweeps the caller's pending records and
  re-emits their notifications.
- **Acknowledgment** (`ClientAck`). The Reverb message listener moves the
  first delivery record matching (user id, notification id) from pending to
  delivered at most once.
- **Payload shaping** (`NotificationEvent`) covers the channel, the event
  name, the default-title table and the whitelist projection of `metaData`.
- **PHP built-ins** (`Php`) models the built-ins the code relies on:
  truthiness, `??`/`isset`, `trim`, `explode`, `array_unique`,
  `str_starts_with` and the `\w` class.
- **Scenarios** on concrete inputs are in `Scenarios`.

The broadcast transport is a log: every event handed to it is appended to
`Store.emitted`. "Now" is an integer parameter.

Three behaviours of the code are kept as written:
- A live cached row whose type is not the requested actor refuses the
  resolution. The code does not treat it as a miss and never falls back to
  the authority.
- The pending sweep is not idempotent and not bounded. It re-emits on every
  call.
- On the slow path of a join whose authority response has no `type`, the
  presence payload takes its type from the first stored row of that user id.
  That row may be from any session. `Scenarios.PresenceTypeFollowsFirstStoredRow`
  exhibits a worker announced as "user". The model keeps this as written.

## Model

| member | source | states |
|---|---|---|
| `Php.Field` | app/Listeners/HandleClientAck.php:26 | `isset($v[$k])` holds exactly for an object entry that is present and not null, and then reads that entry |
| `Php.Coalesce` | app/Listeners/HandleClientAck.php:37-40 | `$v[$k] ?? $default` is the entry when it is set and not null, and the default otherwise; it is null only when the default is |
| `Php.NatTextInjective` | app/Listeners/HandleClientAck.php:50-52 | distinct ids print differently, so a decimal text names at most one id |
| `Php.Trim` | routes/api.php:77 | `trim` yields an infix of its input whose cut-off margins are blank and which neither starts nor ends with a blank |
| `Php.TrimIdempotent` | routes/api.php:77 | trimming a trimmed id again changes nothing |
| `Php.TrimEmptyIffBlank` | app/Broadcasting/MessageChannel.php:188-190 | text trims to "" exactly when it consists of blanks only |
| `Php.Explode` | routes/api.php:77 | `explode(',')` yields at least one piece, no piece contains a comma, and joining the pieces with commas gives back the input |
| `Php.ExplodeImplode` | routes/api.php:77 | the converse round trip: comma-free pieces joined and split again are recovered exactly |
| `Php.Unique` | routes/api.php:92 | `array_unique` keeps every value exactly once and adds none |
| `Php.KeepTruthy` | routes/api.php:94-95 | the `if ($userId)` filter keeps exactly the truthy ids and keeps them distinct |
| `IdentityCache.Lookup` | app/Broadcasting/MessageChannel.php:67-72 | the fast-path query hits exactly when some row has the token and the session and expires after now, and it then returns the first such row; an expired row is a miss |
| `IdentityCache.Upsert` | app/Broadcasting/MessageChannel.php:131-139 | `updateOrCreate` on (user id, session) overwrites the row of that owner in place or appends one; rows of other owners keep their place and content; one row per owner is preserved |
| `IdentityCache.UpsertedRowIsLive` | app/Broadcasting/MessageChannel.php:131-139 | a row written with expiry now + 1 hour answers every fast-path query for its token and session during that hour |
| `IdentityCache.FirstForUser` | app/Broadcasting/MessageChannel.php:152 | the `where('user_id')->first()` lookup finds a row exactly when one exists for the id, and it returns the first row of that id in table order |
| `AuthResolver.Actor` | app/Broadcasting/MessageChannel.php:25 | the `x-actor-type` header when present (even if empty), "user" only when it is absent |
| `AuthResolver.HasCredentials` | app/Broadcasting/MessageChannel.php:36 | token and session are both present and neither is "" nor "0" |
| `AuthResolver.ReturnedType` | app/Broadcasting/MessageChannel.php:111 | the returned type equals the actor exactly when the authority names no type or names the actor |
| `AuthResolver.Vouches` | app/Broadcasting/MessageChannel.php:102-122 | the authority vouches exactly when it succeeds with a truthy user id and a type that is absent or equal to the actor |
| `AuthResolver.FreshRow` | app/Broadcasting/MessageChannel.php:131-139 | the written row has the authority's user id and name and the actor's type, and answers the token and session for exactly the hour from now |
| `AuthResolver.Resolve` | app/Broadcasting/MessageChannel.php:67-139 | the authority is asked exactly once when no row is live and never otherwise; without asking, the verdict is the first live row when its type is the actor and a refusal otherwise; a slow path is accepted only if the authority succeeds with a user id and a type that is absent or equal to the actor; only an accepted slow path writes the cache; every accepted identity has the requested actor type |
| `AuthResolver.CacheHitIgnoresAuthority` | app/Broadcasting/MessageChannel.php:72-93 | on a cache hit the outcome does not depend on the authority |
| `AuthResolver.SecondResolutionHitsCache` | app/Auth/WebsocketGuard.php:55-117 | after a persisted slow-path success, the same token and session within the hour never reach the authority again, and are accepted exactly when the cached type is the new actor |
| `MessageChannel.ChannelAdmits` | app/Broadcasting/MessageChannel.php:41-59 | "user." plus at least one character admits only the actor "user"; "worker." plus at least one character admits only "worker"; any other channel admits every actor |
| `MessageChannel.PresenceData` | app/Broadcasting/MessageChannel.php:150-161 | the payload carries only id, name and type; the name is the extra name, else the name of the user's first stored row, else the extra email, else "User"; the type is the extra type, else the first stored row's type, else "user" |
| `MessageChannel.Join` | app/Broadcasting/MessageChannel.php:21-145 | missing token or session, or a channel of the other namespace, refuses with no cache read and no authority call; a presence on a user or worker channel implies the matching actor; a cache hit announces the actor type; a slow path needs the authority to vouch for the actor; a failed cache write does not refuse the join; the presence is the presence data of the cached row (fast path) or of the authority's id, name, type and email (slow path) |
| `MessageChannel.JoinAnnouncedType` | app/Broadcasting/MessageChannel.php:111-157 | the announced type differs from the claimed actor exactly on a slow path whose authority names no type while the user's first stored row has another type |
| `MessageChannel.ChatText` | app/Broadcasting/MessageChannel.php:186-192 | a whisper passes the guard only with a truthy, fully trimmed text; a set `text` string is kept trimmed, and dropped exactly when it is blank or trims to "0"; without `text`, the same holds for `message`; an array, or neither field, is dropped |
| `WebsocketGuard.User` | app/Auth/WebsocketGuard.php:32-118 | a memoised user is returned without reading headers, cache or authority; missing credentials yield null; a success is memoised and has the actor's type; a cache hit is a live row of the cache; a slow-path success upserts the row expiring one hour later; a failure memoises nothing and writes nothing; without a memo, the user, cache and requests are those of the shared resolution with the write enabled |
| `WebsocketGuard.UserIsMemoised` | app/Auth/WebsocketGuard.php:35-38 | after a successful `user()`, a second call returns the same user and asks nobody |
| `WebsocketGuard.Check` | app/Auth/WebsocketGuard.php:26 | `check()` holds exactly when `user()` yields a user |
| `WebsocketGuard.Guest` | app/Auth/WebsocketGuard.php:27 | `guest()` is the negation of `check()` |
| `WebsocketGuard.HasUser` | app/Auth/WebsocketGuard.php:28 | `hasUser()` holds exactly when a user is memoised |
| `WebsocketGuard.SetUser` | app/Auth/WebsocketGuard.php:29 | after `setUser`, every `user()` call returns the set user |
| `WebsocketGuard.Validate` | app/Auth/WebsocketGuard.php:120 | `validate` never accepts credentials |
| `NotificationEvent.DefaultTitle` | app/Events/NotificationEvent.php:68-86 | a listed event type gets its table title; "Notification" is returned exactly for unlisted types |
| `NotificationEvent.Project` | app/Events/NotificationEvent.php:97-131 | the `isset` copies keep exactly the listed keys whose value is set and not null, with their values |
| `NotificationEvent.ExtractEventDetails` | app/Events/NotificationEvent.php:91-134 | `event_details` keys lie in the nine-key whitelist, every copied value is the `metaData` value, and every whitelisted key that is set is copied |
| `NotificationEvent.BroadcastOn` | app/Events/NotificationEvent.php:32-39 | exactly one presence channel, named after the notification's channel |
| `NotificationEvent.BroadcastWith` | app/Events/NotificationEvent.php:41-59 | null data reads as an empty array; id, event type and channel are the notification's; the title is the stored one or the default; `message`, `notification_type` and `metaData` default to null; a scalar data has no payload |
| `NotificationEvent.Render` | app/Events/NotificationEvent.php:32-63 | the emitted event is on the notification's channel, named by its event type, and carries the payload |
| `Records.FindNotification` | routes/api.php:131 | the notification relation is found exactly when a row with that id exists |
| `BroadcastApi.Presented` | routes/api.php:21-22 | the header unless it is falsy, else the input; the result is truthy exactly when one of them is |
| `BroadcastApi.LooseEquals` | routes/api.php:37 | two nullable strings compare equal exactly when they are equal with null read as "" |
| `BroadcastApi.Authorized` | routes/api.php:37-44 | the presented app id and secret equal the configured ones with null read as ""; with nothing configured, exactly the requests presenting no non-empty credentials pass |
| `BroadcastApi.WellFormed` | routes/api.php:51-55 | data, channel and event must all be present; an empty array or "0" counts as missing; a non-empty array with a truthy channel and event passes |
| `BroadcastApi.ExplicitRecipients` | routes/api.php:73-78 | a truthy string is split on commas and every piece trimmed; an array is taken as given; a missing or falsy value gives no ids |
| `BroadcastApi.Captured` | routes/api.php:81 | the pattern captures an id exactly when the channel is the prefix plus one or more word characters, and the capture is that suffix |
| `BroadcastApi.ImpliedRecipients` | routes/api.php:80-90 | an id is implied exactly when the channel is "user." or "worker." followed by that non-empty word-character id |
| `BroadcastApi.Recipients` | routes/api.php:92-101 | the recipients are distinct, and an id is one exactly when it is truthy and listed or implied |
| `BroadcastApi.FanOut` | routes/api.php:94-101 | one pending record per recipient, in recipient order, for the new notification |
| `BroadcastApi.BroadcastMessage` | routes/api.php:20-112 | wrong app credentials answer 401 and a missing data, channel or event answers 400, both with no change; otherwise exactly one notification with the next id and one record per recipient are appended and the event is broadcast once; one record per (user, notification) is kept |
| `BroadcastApi.FanOutKeepsValid` | routes/api.php:92-101 | appending a notification and the fan-out to distinct recipients keeps ids sequential, references valid and pairs unique |
| `BroadcastApi.PendingFor` | routes/api.php:129-132 | the query returns exactly the user's pending records, each as often as it occurs in the table |
| `BroadcastApi.EmitAll` | routes/api.php:135-141 | the loop emits, in order, the rendering of each pending record's notification, and gets through all of them when all render; when it stops, it stopped at the first record whose notification is missing or does not render |
| `BroadcastApi.RedeliverPending` | routes/api.php:129-145 | the sweep changes no notification, record or status and only appends re-emitted events; when it completes, the count is the number of pending records; otherwise the count is the position of the first pending record whose notification is missing or does not render |
| `BroadcastApi.SweepCompletes` | routes/api.php:129-145 | in a valid store whose pending notifications all render, the sweep completes and re-emits every pending record's notification |
| `BroadcastApi.FindNotificationUnique` | routes/api.php:131 | with auto-increment ids, the notification of a record is the row at id - 1 |
| `BroadcastApi.PendingNotifications` | routes/api.php:116-147 | a request the guard cannot resolve answers 401 with no change; otherwise the resolved user's records are swept |
| `ClientAck.EventName` | app/Listeners/HandleClientAck.php:26 | a string `event` is read as is; any other value, or none, reads as "" |
| `ClientAck.IdsCompareAsText` | app/Listeners/HandleClientAck.php:50-52 | a numeric user id matches the user whose id is its decimal text, and a numeric notification id and its decimal text match the same notification |
| `ClientAck.NotificationNamedOnce` | app/Listeners/HandleClientAck.php:50-52 | an ack value names at most one notification id |
| `ClientAck.FirstMatch` | app/Listeners/HandleClientAck.php:50-52 | the first record whose user and notification ids match the ack |
| `ClientAck.ParseAck` | app/Listeners/HandleClientAck.php:18-49 | a decodable message named exactly `client-ack` is an ack exactly when the `notification_id` and `user_id` of its `data` are truthy, and the ack carries those two values |
| `ClientAck.HandleClientAck` | app/Listeners/HandleClientAck.php:11-82 | a non-ack leaves the store unchanged; otherwise the first matching record changes exactly when it is pending, becoming delivered at now; no other record changes and a delivered record never changes; one confirmation per transition; the store invariant is kept |
| `ClientAck.FirstMatchIgnoresStatus` | app/Listeners/HandleClientAck.php:50-58 | a status update does not change which record an ack matches |
| `ClientAck.AckIdempotent` | app/Listeners/HandleClientAck.php:54-77 | handling the same ack again, at any later time, changes nothing: one transition, one `delivered_at`, one confirmation |
| `ClientAck.HandleClientAckAsWritten` | app/Listeners/HandleClientAck.php:54-77 | as written, the transition is stored, no confirmation is issued, and an error escapes exactly when a record changed |
| `ClientAck.AsWrittenDropsConfirmation` | app/Listeners/HandleClientAck.php:54-77 | the listener as written makes the intended transition but drops the confirmation the intended one issues |
| `Scenarios.UserChannelRecipients` | routes/api.php:81-101 | the channel "user." plus a word id, with `userIds` naming only that id or nothing, has that id as its single recipient (so "user.42" with `[42]` gives one record) |
| `Scenarios.HyphenatedIdImpliesNoRecipient` | routes/api.php:81 | a hyphenated id such as a UUID is not captured by the channel pattern |
| `Scenarios.ScenarioFanOut` | routes/api.php:65-103 | an untitled `OFFER_MADE` to "user.<id>" appends one notification, one pending record for the id and one event titled "New Offer" on that channel |
| `Scenarios.ScenarioWorkerTokenReusedAsUser` | app/Auth/WebsocketGuard.php:55-117 | a worker token is resolved once through the authority, and the same token presented as a user is then refused from the cache |
| `Scenarios.ScenarioCatchUp` | routes/api.php:129-145 | the sweep re-emits a pending notification once and leaves it pending |
| `Scenarios.ScenarioDoubleAck` | app/Listeners/HandleClientAck.php:49-58 | the same ack twice gives one delivered transition and one confirmation |
| `Scenarios.AsWrittenAckConfirmsNothing` | app/Listeners/HandleClientAck.php:55-77 | as written, an ack of a pending record stores the transition, confirms nothing and ends in an error |
| `Scenarios.PresenceTypeFollowsFirstStoredRow` | app/Broadcasting/MessageChannel.php:111-157 | a worker verified by an authority that omits the type is announced with the type of an older "user" row of the same id |

## Left out

- Outbound HTTP is not modelled. The authority is a function parameter, and its recorded requests stand for the calls.
- The forward to the downstream system and the status event are one `Confirmation` log entry. The forward's extra condition (a truthy `token` and a configured base URL) is not modelled.
- Logging, `echo`, the ISO-8601 `timestamp` field and `created_at` formatting are left out.
- The typing whisper, `ChatMessage` persistence, `toOthers()` and the transport itself are left out. Only the blank-text guard of `client-message` is modelled.
- Mass assignment is not modelled. `WebsocketUser` lists only `user_id`, `token` and `expires_at` as fillable, so under Laravel the upserts would drop `type` and `name`. The model stores what the call sites write.
- The credential comparison is PHP's loose `!=`, modelled as string equality in which null equals only null and "". Numeric-string coincidences such as "1e1" == "10" are not modelled.
- Regex edge cases are left out: `.` does not match a newline, and `$` also matches before a final newline.
- Database comparisons use exact string equality. Column collation, which may compare case-insensitively, and numeric coercion in `where` clauses are not modelled.
- Inputs are modelled as strings: the channel, event, title, user ids and header values. A non-string `userIds` scalar cast with `(array)` and non-string ids from the authority are left out.
- The guard's `updateOrCreate` failure is not modelled. There it would propagate as an exception, whereas the join swallows it.
- `WebsocketGuard.id()` is left out, because the row's primary key is not modelled.
- The `read` status exists in the schema, but nothing sets it.
- Concurrent joins and acks are left out, because every call is modelled as one sequential step.

## Findings

| source | as written | input that shows it | evidently intended | confidence | as-written member | corrected member |
|---|---|---|---|---|---|---|
| app/Listeners/HandleClientAck.php:60-77 | After the transition, the listener reads `$message['token']` without a default. It also names `Http` and `MessageEvent`, which the file does not import. So an error escapes after the record is marked delivered, and neither the forward nor the status event is sent. | a `client-ack` for a pending record (`Scenarios.AsWrittenAckConfirmsNothing`) | one forward and one status event per transition | medium; not executed | `ClientAck.HandleClientAckAsWritten` | `ClientAck.HandleClientAck` |
