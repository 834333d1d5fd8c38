/** The listener for client-originated realtime messages: it filters for
    `client-ack` and moves the matching delivery record from pending to
    delivered at most once. */
module ClientAck {
  import opened Php
  import opened Records

  /** The raw frame as the listener sees it after `json_decode`. */
  datatype Inbound = Undecodable | Decoded(message: Json)

  /** `$message['event'] ?? ''`, read as a string; a non-string event name
      can never start with `client-`, so it reads as "". */
  function EventName(message: Json): (name: string)
    ensures Field(message, "event").Some? && Field(message, "event").value.JStr? ==>
              name == Field(message, "event").value.s
    ensures name != "" ==> Field(message, "event") == Some(JStr(name))
  {
    match Field(message, "event")
    case Some(JStr(name)) => name
    case _ => ""
  }

  /** The `data.user_id` of an ack names this record's user: as the string
      itself, or as a number whose decimal text is the user id. */
  predicate NamesUser(v: Json, userId: string) {
    (v.JStr? && v.s == userId) || (v.JNum? && IntText(v.n) == userId)
  }

  /** The `data.notification_id` of an ack names this notification: as the
      number itself, or as its decimal text. */
  predicate NamesNotification(v: Json, id: nat) {
    (v.JNum? && v.n == id) || (v.JStr? && v.s == NatText(id))
  }

  /** The id coercion of the record lookup: a numeric user id names the
      user whose id is its decimal text, and a string notification id
      names the notification whose number it prints. */
  lemma IdsCompareAsText(n: int, userId: string, id: nat)
    ensures NamesUser(JNum(n), userId) <==> NamesUser(JStr(IntText(n)), userId)
    ensures n >= 0 ==> (NamesNotification(JNum(n), id) <==> NamesNotification(JStr(NatText(n)), id))
  {
    if n >= 0 && NamesNotification(JStr(NatText(n)), id) {
      NatTextInjective(n, id);
    }
  }

  /** An ack value names at most one notification. */
  lemma NotificationNamedOnce(v: Json, id1: nat, id2: nat)
    requires NamesNotification(v, id1) && NamesNotification(v, id2)
    ensures id1 == id2
  {
    if v.JStr? {
      NatTextInjective(id1, id2);
    }
  }

  predicate Matches(d: Delivery, user: Json, notification: Json) {
    NamesUser(user, d.userId) && NamesNotification(notification, d.notificationId)
  }

  /** `where('user_id', ..)->where('notification_id', ..)->first()`: the
      index of the first matching record, or `|ds|`. */
  function FirstMatch(ds: seq<Delivery>, user: Json, notification: Json): (i: nat)
    ensures i <= |ds|
    ensures i < |ds| ==> Matches(ds[i], user, notification)
    ensures forall j :: 0 <= j < i ==> !Matches(ds[j], user, notification)
    decreases |ds|
  {
    if |ds| == 0 then 0
    else if Matches(ds[0], user, notification) then 0
    else 1 + FirstMatch(ds[1..], user, notification)
  }

  /** The ack fields, when the message is a `client-ack` carrying a truthy
      `notification_id` and a truthy `user_id` in its `data`. */
  datatype Ack = Ack(user: Json, notification: Json, messageId: Json, senderChannel: Json)

  function ParseAck(m: Inbound): (a: Option<Ack>)
    ensures a.Some? ==> m.Decoded? && EventName(m.message) == "client-ack"
    ensures a.Some? ==> Truthy(a.value.user) && Truthy(a.value.notification)
    ensures m.Decoded? ==>
              var data := Coalesce(m.message, "data", JObj(map[]));
              var notification := Coalesce(data, "notification_id", JNull);
              var user := Coalesce(data, "user_id", JNull);
              && (a.Some? ==> a.value.user == user && a.value.notification == notification)
              && (EventName(m.message) == "client-ack" && Truthy(notification) && Truthy(user) ==> a.Some?)
  {
    match m
    case Undecodable => None
    case Decoded(message) =>
      var name := EventName(message);
      if !StartsWith(name, "client-") then None
      else if name != "client-ack" then None
      else
        var data := Coalesce(message, "data", JObj(map[]));
        var notification := Coalesce(data, "notification_id", JNull);
        var user := Coalesce(data, "user_id", JNull);
        if Truthy(notification) && Truthy(user) then
          Some(Ack(user, notification, Coalesce(data, "message_id", JNull), Coalesce(message, "sender_channel", JNull)))
        else None
  }

  /** `handle($event)`. An undecodable frame, an event that is not
      `client-ack`, or an ack without both ids leaves the store as it was.
      Otherwise the first record matching (user_id, notification_id) is
      marked delivered at `now` if, and only if, it is pending, and one
      confirmation is issued for it. No other record changes, a
      delivered record never goes back, and the invariant is kept. */
  function HandleClientAck(s: Store, m: Inbound, now: int): (r: Store)
    ensures ParseAck(m).None? ==> r == s
    ensures r.notifications == s.notifications && r.emitted == s.emitted
    ensures |r.deliveries| == |s.deliveries|
    ensures r != s ==>
              && ParseAck(m).Some?
              && var a := ParseAck(m).value;
                 var i := FirstMatch(s.deliveries, a.user, a.notification);
                 && i < |s.deliveries|
                 && s.deliveries[i].status == Pending
                 && r.deliveries[i] == s.deliveries[i].(status := Delivered, deliveredAt := Some(now))
                 && (forall j :: 0 <= j < |s.deliveries| && j != i ==> r.deliveries[j] == s.deliveries[j])
                 && r.confirmations == s.confirmations
                      + [Confirmation(s.deliveries[i].userId, s.deliveries[i].notificationId, a.messageId, a.senderChannel)]
    ensures ParseAck(m).Some? ==>
              var a := ParseAck(m).value;
              var i := FirstMatch(s.deliveries, a.user, a.notification);
              (r != s <==> i < |s.deliveries| && s.deliveries[i].status == Pending)
    ensures forall j :: 0 <= j < |s.deliveries| && s.deliveries[j].status != Pending ==> r.deliveries[j] == s.deliveries[j]
    ensures Valid(s) ==> Valid(r)
  {
    match ParseAck(m)
    case None => s
    case Some(a) =>
      var i := FirstMatch(s.deliveries, a.user, a.notification);
      if i < |s.deliveries| && s.deliveries[i].status == Pending then
        var d := s.deliveries[i];
        var ds := s.deliveries[i := d.(status := Delivered, deliveredAt := Some(now))];
        assert forall j :: 0 <= j < |ds| ==> SameKey(ds[j], s.deliveries[j]);
        s.(deliveries := ds,
           confirmations := s.confirmations + [Confirmation(d.userId, d.notificationId, a.messageId, a.senderChannel)])
      else s
  }

  /** A status change leaves every record's key in place, so the first
      match of an ack is the same before and after. */
  lemma {:induction false} FirstMatchIgnoresStatus(ds: seq<Delivery>, k: nat, d: Delivery, user: Json, notification: Json)
    requires k < |ds| && SameKey(d, ds[k])
    ensures FirstMatch(ds[k := d], user, notification) == FirstMatch(ds, user, notification)
    decreases |ds|
  {
    if k > 0 && !Matches(ds[0], user, notification) {
      assert ds[k := d][1..] == ds[1..][k - 1 := d];
      FirstMatchIgnoresStatus(ds[1..], k - 1, d, user, notification);
    }
  }

  /** Acknowledgments are idempotent: processing the same ack a second time,
      at any later time, changes nothing, so there is one transition, one
      `delivered_at` and one confirmation. */
  lemma AckIdempotent(s: Store, m: Inbound, now: int, later: int)
    ensures HandleClientAck(HandleClientAck(s, m, now), m, later) == HandleClientAck(s, m, now)
  {
    var once := HandleClientAck(s, m, now);
    if once != s {
      var a := ParseAck(m).value;
      var i := FirstMatch(s.deliveries, a.user, a.notification);
      assert once.deliveries == s.deliveries[i := once.deliveries[i]];
      FirstMatchIgnoresStatus(s.deliveries, i, once.deliveries[i], a.user, a.notification);
    }
  }

  /** `handle($event)` as the listener is written: the forward and the
      status event after the transition name `Http` and `MessageEvent`,
      which the listener's namespace does not import, and read
      `$message['token']` without a default; whichever comes first throws.
      So the transition is stored, no confirmation is ever issued, and an
      error escapes (`true`) exactly when a record changed. */
  function HandleClientAckAsWritten(s: Store, m: Inbound, now: int): (r: (Store, bool))
    ensures r.0.confirmations == s.confirmations
    ensures r.1 <==> r.0 != s
  {
    match ParseAck(m)
    case None => (s, false)
    case Some(a) =>
      var i := FirstMatch(s.deliveries, a.user, a.notification);
      if i < |s.deliveries| && s.deliveries[i].status == Pending then
        var ds := s.deliveries[i := s.deliveries[i].(status := Delivered, deliveredAt := Some(now))];
        assert ds[i] != s.deliveries[i];
        (s.(deliveries := ds), true)
      else (s, false)
  }

  /** The listener as written makes the same state transition as the
      corrected one, but drops the confirmation the corrected one issues
      for every transition. */
  lemma AsWrittenDropsConfirmation(s: Store, m: Inbound, now: int)
    ensures var (written, thrown) := HandleClientAckAsWritten(s, m, now);
            var intended := HandleClientAck(s, m, now);
            && written == intended.(confirmations := s.confirmations)
            && (thrown <==> intended != s)
            && (thrown ==> |intended.confirmations| == |written.confirmations| + 1)
  {
  }
}
