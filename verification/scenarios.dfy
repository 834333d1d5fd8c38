/** Scenarios of the gateway on concrete inputs: a fan-out to a
    user channel, a worker token reused as a user, a catch-up sweep, and
    the presence type of a slow-path join whose authority omits the type. */
module Scenarios {
  import opened Php
  import opened IdentityCache
  import opened AuthResolver
  import opened MessageChannel
  import opened WebsocketGuard
  import opened NotificationEvent
  import opened Records
  import opened BroadcastApi
  import opened ClientAck

  const Config := AppConfig(Some("app"), Some("secret"))

  function Request(channel: string, event: string, data: Json, ids: UserIds): BroadcastRequest {
    BroadcastRequest(Some("app"), None, Some("secret"), None, Some(data), Some(channel), Some(event), None, ids)
  }

  /** A "user." channel is never a "worker." channel. */
  lemma UserChannelIsNoWorkerChannel(u: string, v: string)
    ensures "user." + u != "worker." + v
  {
    assert ("user." + u)[0] != ("worker." + v)[0];
  }

  /** A "user." channel names one id. */
  lemma UserChannelNamesOneId(u: string, v: string)
    ensures "user." + u == "user." + v <==> u == v
  {
    assert ("user." + u)[5..] == u && ("user." + v)[5..] == v;
  }

  /** A duplicate-free list whose every element is `u`, and which holds
      `u`, is `[u]`. */
  lemma OnlyElement(r: seq<string>, u: string)
    requires Distinct(r) && u in r
    requires forall x :: x in r ==> x == u
    ensures r == [u]
  {
    if |r| > 1 {
      FirstTwoEqual(r, u);
    }
  }

  lemma FirstTwoEqual(r: seq<string>, u: string)
    requires |r| > 1
    requires forall x :: x in r ==> x == u
    ensures r[0] == r[1]
  {
    assert r[0] in r && r[1] in r;
  }

  /** The channel of a user implies that user, and when every explicit id
      is that user too, it is the one recipient. */
  lemma UserChannelRecipients(u: string, ids: UserIds)
    requires |u| > 0 && AllWordChars(u) && TruthyText(u)
    requires forall x :: x in ExplicitRecipients(ids) ==> x == u
    ensures Recipients("user." + u, ids) == [u]
  {
    var implied := ImpliedRecipients("user." + u);
    assert u in implied;
    forall v | v in implied
      ensures v == u
    {
      UserChannelIsNoWorkerChannel(u, v);
      UserChannelNamesOneId(u, v);
    }
    OnlyElement(Recipients("user." + u, ids), u);
  }

  /** A hyphenated id is not `\w+`, so the channel implies no recipient. */
  lemma HyphenatedIdImpliesNoRecipient()
    ensures ImpliedRecipients("user.ab-12") == []
  {
    assert !IsWordChar('-');
    assert "user.ab-12"[5..][2] == '-';
  }

  /** The offer's event goes out on its channel as "OFFER_MADE", titled
      "New Offer". */
  lemma OfferRenders(n: Notification)
    requires n.event == "OFFER_MADE" && n.title.None? && IsArray(n.data)
    ensures Render(n).Some?
    ensures Render(n).value.channels == [PresenceChannel(n.channel)]
    ensures Render(n).value.name == "OFFER_MADE"
    ensures Render(n).value.payload.title == "New Offer"
  {
    assert DefaultTitle("OFFER_MADE") == "New Offer";
  }

  predicate OfferRequest(u: string, data: Json, ids: UserIds) {
    && |u| > 0 && AllWordChars(u) && TruthyText(u)
    && (ids == NoIds || ids == IdList([u]) || ids == IdList([u, u]))
    && IsArray(data) && Truthy(data)
  }

  function OfferNotification(s: Store, u: string, data: Json, now: int): Notification {
    Notification(|s.notifications| + 1, "user." + u, "OFFER_MADE", None, data, now)
  }

  /** The offer is accepted, stored and broadcast once. */
  lemma OfferBroadcast(s: Store, u: string, data: Json, ids: UserIds, now: int)
    requires OfferRequest(u, data, ids)
    ensures var r := BroadcastMessage(s, Request("user." + u, "OFFER_MADE", data, ids), Config, now);
            var n := OfferNotification(s, u, data, now);
            && r.0 == Ok
            && r.1.notifications == s.notifications + [n]
            && r.1.emitted == s.emitted + [Render(n).value]
  {
    var req := Request("user." + u, "OFFER_MADE", data, ids);
    assert Authorized(req, Config) && WellFormed(req);
    OfferRenders(NewNotification(s, req, now));
  }

  /** An accepted request appends the fan-out of its recipients. */
  lemma AcceptedDeliveries(s: Store, req: BroadcastRequest, now: int)
    requires Authorized(req, Config) && WellFormed(req)
    ensures BroadcastMessage(s, req, Config, now).1.deliveries
              == s.deliveries + FanOut(Recipients(req.channel.value, req.userIds), |s.notifications| + 1)
  {
  }

  /** The offer creates exactly one delivery record, for `u`. */
  lemma OfferRecords(s: Store, u: string, data: Json, ids: UserIds, now: int)
    requires OfferRequest(u, data, ids)
    ensures BroadcastMessage(s, Request("user." + u, "OFFER_MADE", data, ids), Config, now).1.deliveries
              == s.deliveries + [Delivery(u, |s.notifications| + 1, Pending, None)]
  {
    var req := Request("user." + u, "OFFER_MADE", data, ids);
    assert Authorized(req, Config) && WellFormed(req);
    AcceptedDeliveries(s, req, now);
    OfferListsOnlyItsUser(u, ids);
    UserChannelRecipients(u, ids);
    FanOutOfOne(u, |s.notifications| + 1);
  }

  lemma OfferListsOnlyItsUser(u: string, ids: UserIds)
    requires ids == NoIds || ids == IdList([u]) || ids == IdList([u, u])
    ensures forall x :: x in ExplicitRecipients(ids) ==> x == u
  {
  }

  lemma FanOutOfOne(u: string, id: nat)
    ensures FanOut([u], id) == [Delivery(u, id, Pending, None)]
  {
  }

  /** An untitled "OFFER_MADE" broadcast to "user.<u>", listing `u` again or
      not at all, appends one notification, one pending record for `u`, and
      one event on the "user.<u>" presence channel titled "New Offer". */
  lemma ScenarioFanOut(s: Store, u: string, data: Json, ids: UserIds, now: int)
    requires OfferRequest(u, data, ids)
    ensures var r := BroadcastMessage(s, Request("user." + u, "OFFER_MADE", data, ids), Config, now);
            var n := OfferNotification(s, u, data, now);
            && r.0 == Ok
            && r.1.notifications == s.notifications + [n]
            && r.1.deliveries == s.deliveries + [Delivery(u, n.id, Pending, None)]
            && r.1.emitted == s.emitted + [Render(n).value]
            && Render(n).value.channels == [PresenceChannel("user." + u)]
            && Render(n).value.payload.title == "New Offer"
  {
    OfferBroadcast(s, u, data, ids, now);
    OfferRecords(s, u, data, ids, now);
    OfferRenders(OfferNotification(s, u, data, now));
  }

  function WorkerAuthority(c: Credentials): AuthResponse {
    Successful(Identity(Some("w9"), Some("worker"), None, None))
  }

  /** A worker token resolved once is cached; presenting the same token and
      session as a user is refused from the cache without asking the
      authority. */
  lemma ScenarioWorkerTokenReusedAsUser()
    ensures var first := User(Guard(Headers(Some("t1"), Some("s1"), Some("worker")), None), [], 0, WorkerAuthority);
            && first.user == Some(CacheRow("w9", "s1", "t1", TokenLifetime, Some("worker"), None))
            && first.asked == [Credentials("t1", "s1", "worker")]
            && var second := User(Guard(Headers(Some("t1"), Some("s1"), Some("user")), None), first.cache, 10, WorkerAuthority);
               second.user.None? && second.asked == []
  {
    var first := User(Guard(Headers(Some("t1"), Some("s1"), Some("worker")), None), [], 0, WorkerAuthority);
    assert first.cache == [CacheRow("w9", "s1", "t1", TokenLifetime, Some("worker"), None)];
    assert Live(first.cache[0], "t1", "s1", 10);
  }

  /** The catch-up sweep re-emits a pending notification once and leaves it
      pending. */
  lemma ScenarioCatchUp()
    ensures var n := Notification(1, "user.7", "INVOICE", None, JObj(map[]), 0);
            var s := Store([n], [Delivery("7", 1, Pending, None)], [], []);
            var r := RedeliverPending(s, "7");
            && r.completed && r.count == 1
            && r.store.emitted == [Render(n).value]
            && r.store.deliveries == [Delivery("7", 1, Pending, None)]
  {
    var n := Notification(1, "user.7", "INVOICE", None, JObj(map[]), 0);
    var s := Store([n], [Delivery("7", 1, Pending, None)], [], []);
    assert PendingFor(s.deliveries, "7") == s.deliveries;
    assert s.notifications[0].id == 1;
  }

  /** A `client-ack` for notification 1 and user "7". */
  const AckFrame := Decoded(JObj(map[
    "event" := JStr("client-ack"),
    "data" := JObj(map["notification_id" := JNum(1), "user_id" := JStr("7")])]))

  /** One notification with one pending record for user "7". */
  const AckStore := Store([Notification(1, "user.7", "INVOICE", None, JObj(map[]), 0)], [Delivery("7", 1, Pending, None)], [], [])

  lemma AckFrameParses()
    ensures ParseAck(AckFrame).Some?
    ensures FirstMatch(AckStore.deliveries, ParseAck(AckFrame).value.user, ParseAck(AckFrame).value.notification) == 0
  {
    assert "client-ack"[..7] == "client-";
  }

  /** The same ack twice: one transition, one confirmation. */
  lemma ScenarioDoubleAck()
    ensures var once := HandleClientAck(AckStore, AckFrame, 5);
            && once.deliveries == [Delivery("7", 1, Delivered, Some(5))]
            && |once.confirmations| == 1
            && HandleClientAck(once, AckFrame, 9) == once
  {
    AckFrameParses();
    AckIdempotent(AckStore, AckFrame, 5, 9);
  }

  /** The same ack against the listener as written: the record becomes
      delivered, no confirmation is issued, and an error escapes. */
  lemma AsWrittenAckConfirmsNothing()
    ensures var (written, thrown) := HandleClientAckAsWritten(AckStore, AckFrame, 5);
            && written.deliveries == [Delivery("7", 1, Delivered, Some(5))]
            && written.confirmations == []
            && thrown
  {
    AckFrameParses();
  }

  function TypelessAuthority(c: Credentials): AuthResponse {
    Successful(Identity(Some("w9"), None, None, None))
  }

  /** When the authority omits the type, the presence payload takes the
      type of the first stored row for the user id, whatever its session:
      a worker joining while an older user-typed row for the same id exists
      is announced as "user". */
  lemma PresenceTypeFollowsFirstStoredRow()
    ensures var cache := [CacheRow("w9", "s0", "old", 0, Some("user"), None)];
            var r := Join(cache, Headers(Some("t1"), Some("s1"), Some("worker")), "room", 100, TypelessAuthority, true);
            && r.presence == Some(Presence("w9", "User", "user"))
            && r.cache == cache + [CacheRow("w9", "s1", "t1", 100 + TokenLifetime, Some("worker"), None)]
  {
    var cache := [CacheRow("w9", "s0", "old", 0, Some("user"), None)];
    assert !UserChannel("room") && !WorkerChannel("room");
  }
}
