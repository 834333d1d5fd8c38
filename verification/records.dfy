/** The notification side of the persisted state: the `notifications` and
    `user_notifications` tables, the events handed to the broadcast
    transport, and the acknowledgment confirmations issued after a
    delivery transition. */
module Records {
  import opened Php
  import opened NotificationEvent

  /** `pending` -> `delivered`; `read` exists in the schema but nothing sets it. */
  datatype Status = Pending | Delivered | Read

  /** A row of `user_notifications`: one recipient of one notification. */
  datatype Delivery = Delivery(userId: string, notificationId: nat, status: Status, deliveredAt: Option<int>)

  /** The follow-up the acknowledgment listener issues once a record became
      delivered: a forward to the downstream system of record and a status
      event to the sender's channel. */
  datatype Confirmation = Confirmation(userId: string, notificationId: nat, messageId: Json, senderChannel: Json)

  datatype Store = Store(
    notifications: seq<Notification>,
    deliveries: seq<Delivery>,
    emitted: seq<Emission>,
    confirmations: seq<Confirmation>)

  predicate SameKey(a: Delivery, b: Delivery) {
    a.userId == b.userId && a.notificationId == b.notificationId
  }

  /** At most one delivery record per (user, notification). */
  predicate OneDeliveryPerKey(ds: seq<Delivery>) {
    forall i, j :: 0 <= i < j < |ds| ==> !SameKey(ds[i], ds[j])
  }

  /** The store's invariant: notification ids are the auto-increment
      sequence 1, 2, ...; every delivery refers to an existing notification;
      and no (user, notification) pair has two delivery records. */
  predicate Valid(s: Store) {
    ValidTables(s.notifications, s.deliveries)
  }

  predicate ValidTables(ns: seq<Notification>, ds: seq<Delivery>) {
    && (forall i :: 0 <= i < |ns| ==> ns[i].id == i + 1)
    && (forall i :: 0 <= i < |ds| ==> 1 <= ds[i].notificationId <= |ns|)
    && OneDeliveryPerKey(ds)
  }

  /** The notification with a given id (`->with('notification')`), if any. */
  function FindNotification(ns: seq<Notification>, id: nat): (r: Option<Notification>)
    ensures r.Some? <==> exists i :: 0 <= i < |ns| && ns[i].id == id
    ensures r.Some? ==> r.value in ns && r.value.id == id
    decreases |ns|
  {
    if |ns| == 0 then None
    else if ns[0].id == id then Some(ns[0])
    else FindNotification(ns[1..], id)
  }
}
