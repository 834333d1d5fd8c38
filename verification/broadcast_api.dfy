/** The two notification routes: `/broadcast-message` (app credentials,
    validation, recipient expansion, one notification and one delivery
    record per recipient, one broadcast) and `/pending-notifications`
    (re-emission of a user's pending notifications, changing no state). */
module BroadcastApi {
  import opened Php
  import opened NotificationEvent
  import opened Records
  import opened IdentityCache
  import opened AuthResolver
  import WebsocketGuard

  /** The `userIds` input: absent, a comma-separated string, or an array. */
  datatype UserIds = NoIds | IdText(text: string) | IdList(ids: seq<string>)

  /** The inputs the `/broadcast-message` closure reads; `None` is absent. */
  datatype BroadcastRequest = BroadcastRequest(
    appIdHeader: Option<string>,
    appIdInput: Option<string>,
    secretHeader: Option<string>,
    secretInput: Option<string>,
    data: Option<Json>,
    channel: Option<string>,
    event: Option<string>,
    title: Option<string>,
    userIds: UserIds)

  /** The configured `services.reverb.app_id` and `app_secret`. */
  datatype AppConfig = AppConfig(appId: Option<string>, appSecret: Option<string>)

  /** HTTP outcome: 200, 401, 400, or 500 (an exception escaped the closure). */
  datatype Reply = Ok | Unauthorized | BadRequest | Failed

  /** `$request->header(..) ?: $request->input(..)`: the header unless it is falsy. */
  function Presented(header: Option<string>, input: Option<string>): (r: Option<string>)
    ensures TruthyOpt(header) ==> r == header
    ensures !TruthyOpt(header) ==> r == input
    ensures TruthyOpt(r) <==> TruthyOpt(header) || TruthyOpt(input)
  {
    if TruthyOpt(header) then header else input
  }

  /** PHP's loose `==` between two nullable strings, taken as string
      equality: null equals only null and the empty string. */
  function LooseEquals(a: Option<string>, b: Option<string>): (ok: bool)
    ensures ok <==> a.GetOr("") == b.GetOr("")
  {
    match (a, b)
    case (None, None) => true
    case (None, Some(y)) => y == ""
    case (Some(x), None) => x == ""
    case (Some(x), Some(y)) => x == y
  }

  /** The app credentials check: the presented app id and secret loosely
      equal the configured ones. With neither configured, a request that
      presents no credentials (or only empty ones) passes. */
  function Authorized(req: BroadcastRequest, config: AppConfig): (ok: bool)
    ensures ok <==> && Presented(req.appIdHeader, req.appIdInput).GetOr("") == config.appId.GetOr("")
                    && Presented(req.secretHeader, req.secretInput).GetOr("") == config.appSecret.GetOr("")
    ensures config == AppConfig(None, None) ==>
              (ok <==> !TruthyOpt(req.appIdHeader) && req.appIdInput.GetOr("") == ""
                       && !TruthyOpt(req.secretHeader) && req.secretInput.GetOr("") == "")
  {
    && LooseEquals(Presented(req.appIdHeader, req.appIdInput), config.appId)
    && LooseEquals(Presented(req.secretHeader, req.secretInput), config.appSecret)
  }

  /** `!$data || !$channel || !$event` fails: data (an empty array counts as
      missing), channel and event are all present and truthy. */
  function WellFormed(req: BroadcastRequest): (ok: bool)
    ensures ok ==> req.data.Some? && req.channel.Some? && req.event.Some?
    ensures req.data == Some(JList([])) || req.data == Some(JObj(map[])) ==> !ok
    ensures req.data.Some? && IsArray(req.data.value) && req.data.value != JList([]) && req.data.value != JObj(map[]) &&
            TruthyOpt(req.channel) && TruthyOpt(req.event) ==>
              ok
    ensures req.channel == Some("0") || req.event == Some("0") || req.data == Some(JStr("0")) ==> !ok
  {
    && req.data.Some? && Truthy(req.data.value)
    && TruthyOpt(req.channel)
    && TruthyOpt(req.event)
  }

  /** The ids listed in `userIds`: a truthy string is split on commas and
      each piece trimmed; an array is taken as given. */
  function ExplicitRecipients(ids: UserIds): (r: seq<string>)
    ensures ids.IdList? ==> r == ids.ids
    ensures ids.IdText? && TruthyText(ids.text) ==>
              |r| == |Explode(ids.text, ',')|
              && forall i :: 0 <= i < |r| ==> r[i] == Trim(Explode(ids.text, ',')[i])
    ensures ids.NoIds? || (ids.IdText? && !TruthyText(ids.text)) ==> r == []
  {
    match ids
    case NoIds => []
    case IdText(t) =>
      if TruthyText(t) then
        var parts := Explode(t, ',');
        seq(|parts|, i requires 0 <= i < |parts| => Trim(parts[i]))
      else []
    case IdList(xs) => xs
  }

  /** The id captured by `^prefix(\w+)$`, as a list of zero or one ids. */
  function Captured(channel: string, prefix: string): (r: seq<string>)
    ensures |r| <= 1
    ensures |r| == 1 <==> StartsWith(channel, prefix) && |channel| > |prefix| && AllWordChars(channel[|prefix|..])
    ensures |r| == 1 ==> channel == prefix + r[0]
  {
    if StartsWith(channel, prefix) && |channel| > |prefix| && AllWordChars(channel[|prefix|..]) then
      assert channel == prefix + channel[|prefix|..];
      [channel[|prefix|..]]
    else []
  }

  /** The id a user- or worker-scoped channel name implies (`^user\.(\w+)$`
      or `^worker\.(\w+)$`). */
  function ImpliedRecipients(channel: string): (r: seq<string>)
    ensures forall u :: u in r <==> (channel == "user." + u || channel == "worker." + u) && |u| > 0 && AllWordChars(u)
  {
    var r := Captured(channel, "user.") + Captured(channel, "worker.");
    assert forall u :: channel == "user." + u ==> channel[..5] == "user." && channel[5..] == u;
    assert forall u :: channel == "worker." + u ==> channel[..7] == "worker." && channel[7..] == u;
    r
  }

  /** The recipients one delivery record is created for: the explicit ids
      plus the implied one, deduplicated (first occurrence kept), falsy ids
      ("" and "0") skipped. Each truthy id that is listed or implied occurs
      exactly once. */
  function Recipients(channel: string, ids: UserIds): (r: seq<string>)
    ensures Distinct(r)
    ensures forall u :: u in r <==> TruthyText(u) && (u in ExplicitRecipients(ids) || u in ImpliedRecipients(channel))
  {
    KeepTruthy(Unique(ExplicitRecipients(ids) + ImpliedRecipients(channel)))
  }

  /** One pending delivery record per recipient, in recipient order. */
  function FanOut(recipients: seq<string>, notificationId: nat): (ds: seq<Delivery>)
    ensures |ds| == |recipients|
    ensures forall i :: 0 <= i < |ds| ==> ds[i] == Delivery(recipients[i], notificationId, Pending, None)
  {
    seq(|recipients|, i requires 0 <= i < |recipients| => Delivery(recipients[i], notificationId, Pending, None))
  }

  /** The notification an accepted request creates, with the next id. */
  function NewNotification(s: Store, req: BroadcastRequest, now: int): Notification
    requires WellFormed(req)
  {
    Notification(|s.notifications| + 1, req.channel.value, req.event.value, req.title, req.data.value, now)
  }

  /** `POST /broadcast-message`. Wrong app credentials answer 401 and a
      missing data, channel or event answers 400, both leaving the store
      as it was. An accepted request appends exactly one notification with
      the next id and the request's channel, event, title and data, and one
      pending delivery record per recipient. It then broadcasts the
      notification once; when its payload cannot be built the closure
      throws (500) after the records were written. The store's invariant is
      kept, so no (user, notification) pair gets two records. */
  function BroadcastMessage(s: Store, req: BroadcastRequest, config: AppConfig, now: int): (r: (Reply, Store))
    ensures !Authorized(req, config) ==> r == (Unauthorized, s)
    ensures Authorized(req, config) && !WellFormed(req) ==> r == (BadRequest, s)
    ensures r.0 == Ok || r.0 == Failed <==> Authorized(req, config) && WellFormed(req)
    ensures Authorized(req, config) && WellFormed(req) ==>
              var n := NewNotification(s, req, now);
              var users := Recipients(req.channel.value, req.userIds);
              && r.1.notifications == s.notifications + [n]
              && r.1.deliveries == s.deliveries + FanOut(users, n.id)
              && r.1.confirmations == s.confirmations
              && (r.0 == Ok <==> Render(n).Some?)
              && r.1.emitted == (if r.0 == Ok then s.emitted + [Render(n).value] else s.emitted)
    ensures Valid(s) ==> Valid(r.1)
  {
    if !Authorized(req, config) then (Unauthorized, s)
    else if !WellFormed(req) then (BadRequest, s)
    else
      var n := NewNotification(s, req, now);
      var users := Recipients(req.channel.value, req.userIds);
      var created := FanOut(users, n.id);
      var written := s.(notifications := s.notifications + [n], deliveries := s.deliveries + created);
      FanOutKeepsValid(s.notifications, s.deliveries, n, users);
      match Render(n)
      case Some(e) => (Ok, written.(emitted := s.emitted + [e]))
      case None => (Failed, written)
  }

  /** Appending the next notification and its fan-out to distinct
      recipients keeps the store's invariant. */
  lemma FanOutKeepsValid(ns: seq<Notification>, ds: seq<Delivery>, n: Notification, users: seq<string>)
    requires n.id == |ns| + 1
    requires Distinct(users)
    ensures ValidTables(ns, ds) ==> ValidTables(ns + [n], ds + FanOut(users, n.id))
  {
    if ValidTables(ns, ds) {
      var ns' := ns + [n];
      var ds' := ds + FanOut(users, n.id);
      forall i, j | 0 <= i < j < |ds'| ensures !SameKey(ds'[i], ds'[j]) {
        if j >= |ds| && i < |ds| {
          assert ds'[i].notificationId <= |ns| < ds'[j].notificationId;
        } else if i >= |ds| {
          assert ds'[i].userId == users[i - |ds|];
          assert ds'[j].userId == users[j - |ds|];
        }
      }
    }
  }

  /** The pending records of a user, in table order. */
  function PendingFor(ds: seq<Delivery>, userId: string): (r: seq<Delivery>)
    ensures |r| <= |ds|
    ensures forall d :: d in r <==> d in ds && d.userId == userId && d.status == Pending
    ensures forall d :: multiset(r)[d] == if d.userId == userId && d.status == Pending then multiset(ds)[d] else 0
    decreases |ds|
  {
    if |ds| == 0 then []
    else
      var rest := PendingFor(ds[1..], userId);
      assert forall d :: d in ds <==> d == ds[0] || d in ds[1..] by {
        assert ds == [ds[0]] + ds[1..];
      }
      assert multiset(ds) == multiset([ds[0]]) + multiset(ds[1..]) by {
        assert ds == [ds[0]] + ds[1..];
      }
      if ds[0].userId == userId && ds[0].status == Pending then [ds[0]] + rest else rest
  }

  /** `es` re-emits a prefix of `pending`: its i-th event is the rendering
      of the i-th pending record's notification. */
  predicate ReEmits(ns: seq<Notification>, pending: seq<Delivery>, es: seq<Emission>) {
    && |es| <= |pending|
    && forall i :: 0 <= i < |es| ==>
         && FindNotification(ns, pending[i].notificationId).Some?
         && Render(FindNotification(ns, pending[i].notificationId).value) == Some(es[i])
  }

  /** The events the sweep emits for `pending`, in order, and whether it got
      through all of them: it stops at the first record whose notification
      is missing or cannot be rendered (that iteration throws). */
  function EmitAll(ns: seq<Notification>, pending: seq<Delivery>): (r: (seq<Emission>, bool))
    ensures ReEmits(ns, pending, r.0)
    ensures r.1 ==> |r.0| == |pending|
    ensures (forall i :: 0 <= i < |pending| ==>
               FindNotification(ns, pending[i].notificationId).Some?
               && Render(FindNotification(ns, pending[i].notificationId).value).Some?) ==> r.1
    ensures !r.1 ==>
              && |r.0| < |pending|
              && var found := FindNotification(ns, pending[|r.0|].notificationId);
                 found.None? || Render(found.value).None?
    decreases |pending|
  {
    if |pending| == 0 then ([], true)
    else
      var found := FindNotification(ns, pending[0].notificationId);
      if found.None? then ([], false)
      else match Render(found.value)
        case None => ([], false)
        case Some(e) =>
          var (rest, ok) := EmitAll(ns, pending[1..]);
          ([e] + rest, ok)
  }

  /** What one sweep did: whether it got through every pending record, how
      many notifications it re-emitted, and the store after it. */
  datatype Redelivery = Redelivery(completed: bool, count: nat, store: Store)

  /** The body of `/pending-notifications` for an authenticated user: every
      pending record of the user has its notification re-emitted once, in
      table order. Notifications, delivery records (their statuses
      included) and confirmations are unchanged; only the broadcast log
      grows. In a valid store whose pending notifications all render, the
      sweep completes and the count is the number of pending records. */
  function RedeliverPending(s: Store, userId: string): (r: Redelivery)
    ensures r.store.notifications == s.notifications
    ensures r.store.deliveries == s.deliveries
    ensures r.store.confirmations == s.confirmations
    ensures |r.store.emitted| == |s.emitted| + r.count
    ensures r.store.emitted[..|s.emitted|] == s.emitted
    ensures ReEmits(s.notifications, PendingFor(s.deliveries, userId), r.store.emitted[|s.emitted|..])
    ensures r.completed ==> r.count == |PendingFor(s.deliveries, userId)|
    ensures !r.completed ==>
              var pending := PendingFor(s.deliveries, userId);
              && r.count < |pending|
              && var found := FindNotification(s.notifications, pending[r.count].notificationId);
                 found.None? || Render(found.value).None?
  {
    var pending := PendingFor(s.deliveries, userId);
    var (emissions, ok) := EmitAll(s.notifications, pending);
    var after := s.(emitted := s.emitted + emissions);
    assert after.emitted[..|s.emitted|] == s.emitted;
    assert after.emitted[|s.emitted|..] == emissions;
    Redelivery(ok, |emissions|, after)
  }

  /** In a valid store whose pending notifications for the user all
      render, the sweep gets through every pending record, so the count is
      the number of pending records. */
  lemma SweepCompletes(s: Store, userId: string)
    requires Valid(s)
    requires forall d :: d in s.deliveries && d.userId == userId && d.status == Pending ==>
               Render(s.notifications[d.notificationId - 1]).Some?
    ensures RedeliverPending(s, userId).completed
    ensures RedeliverPending(s, userId).count == |PendingFor(s.deliveries, userId)|
  {
    var pending := PendingFor(s.deliveries, userId);
    forall i | 0 <= i < |pending|
      ensures FindNotification(s.notifications, pending[i].notificationId).Some?
      ensures Render(FindNotification(s.notifications, pending[i].notificationId).value).Some?
    {
      assert pending[i] in s.deliveries;
      FindNotificationUnique(s.notifications, pending[i].notificationId);
    }
  }

  /** With auto-increment ids, looking an id up finds the row at `id - 1`. */
  lemma {:induction false} FindNotificationUnique(ns: seq<Notification>, id: nat)
    requires forall i :: 0 <= i < |ns| ==> ns[i].id == i + 1
    requires 1 <= id <= |ns|
    ensures FindNotification(ns, id) == Some(ns[id - 1])
  {
    FindShifted(ns, id, 0);
  }

  lemma {:induction false} FindShifted(ns: seq<Notification>, id: nat, offset: nat)
    requires forall i :: 0 <= i < |ns| ==> ns[i].id == i + 1 + offset
    requires 1 + offset <= id <= |ns| + offset
    ensures FindNotification(ns, id) == Some(ns[id - 1 - offset])
    decreases |ns|
  {
    if ns[0].id != id {
      FindShifted(ns[1..], id, offset + 1);
    }
  }

  /** `GET /pending-notifications` behind the `websocket` guard: a request the
      guard cannot resolve is answered 401 with the store unchanged;
      otherwise the resolved user's pending notifications are swept. */
  function PendingNotifications(g: WebsocketGuard.Guard, cache: seq<CacheRow>, now: int,
                                authority: Credentials -> AuthResponse, s: Store): (r: (Reply, Store, WebsocketGuard.UserCall))
    ensures r.2 == WebsocketGuard.User(g, cache, now, authority)
    ensures r.2.user.None? ==> r.0 == Unauthorized && r.1 == s
    ensures r.2.user.Some? ==>
              var sweep := RedeliverPending(s, r.2.user.value.userId);
              r.1 == sweep.store && (r.0 == Ok <==> sweep.completed)
  {
    var call := WebsocketGuard.User(g, cache, now, authority);
    if call.user.None? then (Unauthorized, s, call)
    else
      var sweep := RedeliverPending(s, call.user.value.userId);
      (if sweep.completed then Ok else Failed, sweep.store, call)
  }
}
