/** The broadcast event for a stored notification: the channel it goes out
    on, its wire name, and the payload clients receive, with the default
    title table and the whitelist projection of `metaData`. */
module NotificationEvent {
  import opened Php

  /** A row of the `notifications` table; immutable once created. */
  datatype Notification = Notification(
    id: nat,
    channel: string,
    event: string,
    title: Option<string>,
    data: Json,
    createdAt: int)

  datatype Channel = PresenceChannel(name: string)

  /** The array `broadcastWith` returns, less the ISO-8601 timestamp. */
  datatype Payload = Payload(
    id: nat,
    title: string,
    message: Json,
    eventType: string,
    notificationType: Json,
    channel: string,
    data: Json,
    metaData: Json,
    eventDetails: map<string, Json>)

  /** One event handed to the broadcast transport. */
  datatype Emission = Emission(channels: seq<Channel>, name: string, payload: Payload)

  /** The event types with a default title. */
  const DefaultTitles: map<string, string> := map[
    "notification" := "New Notification",
    "SERVICE_REQUEST" := "Service Request Update",
    "SERVICE_REQUEST_FLEX" := "Flex Service Request",
    "OFFER_MADE" := "New Offer",
    "OFFER_ACCEPTED" := "Offer Accepted",
    "OFFER_REJECTED" := "Offer Rejected",
    "INVOICE" := "Invoice Update",
    "COMPLAINT" := "Complaint Update",
    "WITHDRAWAL_REQUEST" := "Withdrawal Request"
  ]

  /** The title used when none is stored. */
  const FallbackTitle := "Notification"

  /** The `metaData` keys copied into `event_details`, in source order. */
  const DetailKeys: seq<string> := [
    "service_request_id", "service_request_number", "offer_id", "invoice_id",
    "complaint_id", "user_id", "worker_id", "status", "amount"
  ]

  /** `getDefaultTitle()`: the table's entry for a listed event type, and
      "Notification" (which no listed type maps to) for any other. */
  function DefaultTitle(event: string): (t: string)
    ensures event in DefaultTitles ==> t == DefaultTitles[event]
    ensures t == FallbackTitle <==> event !in DefaultTitles
  {
    if event in DefaultTitles then DefaultTitles[event] else FallbackTitle
  }

  /** The nine `if (isset($metaData[k])) $details[k] = $metaData[k];`
      statements, one per key of `keys`: the result holds exactly the listed
      keys whose `metaData` value is set and not null, each with that value. */
  function Project(keys: seq<string>, meta: map<string, Json>): (details: map<string, Json>)
    ensures forall k :: k in details <==> k in keys && k in meta && meta[k] != JNull
    ensures forall k :: k in details ==> details[k] == meta[k]
    decreases |keys|
  {
    if |keys| == 0 then map[]
    else
      var rest := Project(keys[..|keys| - 1], meta);
      var k := keys[|keys| - 1];
      assert forall x :: x in keys <==> x in keys[..|keys| - 1] || x == k by {
        assert keys == keys[..|keys| - 1] + [k];
      }
      if k in meta && meta[k] != JNull then rest[k := meta[k]] else rest
  }

  /** `extractEventDetails($data)`: the whitelisted `metaData` entries that
      are set. A `metaData` that is absent, null or not an object (a string
      or a list has no such keys) contributes nothing. */
  function ExtractEventDetails(data: Json): (details: map<string, Json>)
    ensures details.Keys <= set k | k in DetailKeys
    ensures forall k :: k in details ==> Field(Coalesce(data, "metaData", JObj(map[])), k) == Some(details[k])
    ensures forall k :: k in DetailKeys && Field(Coalesce(data, "metaData", JObj(map[])), k).Some? ==> k in details
  {
    var meta := Coalesce(data, "metaData", JObj(map[]));
    if meta.JObj? then Project(DetailKeys, meta.fields) else map[]
  }

  /** `broadcastOn()`: exactly one presence channel, named after the
      notification's channel. */
  function BroadcastOn(n: Notification): (channels: seq<Channel>)
    ensures |channels| == 1 && channels[0] == PresenceChannel(n.channel)
  {
    [PresenceChannel(n.channel)]
  }

  /** `broadcastWith()`. Null data reads as an empty array; data that is a
      scalar makes `extractEventDetails` throw a type error, so there is no
      payload (`None`). */
  function BroadcastWith(n: Notification): (p: Option<Payload>)
    ensures p.Some? <==> n.data == JNull || IsArray(n.data)
    ensures p.Some? ==>
              var data := if n.data == JNull then JObj(map[]) else n.data;
              && p.value.id == n.id && p.value.eventType == n.event && p.value.channel == n.channel
              && p.value.data == data
              && (n.title.Some? ==> p.value.title == n.title.value)
              && (n.title.None? ==> p.value.title == DefaultTitle(n.event))
              && p.value.message == Coalesce(data, "message", JNull)
              && p.value.notificationType == Coalesce(data, "notification_type", JNull)
              && p.value.metaData == Coalesce(data, "metaData", JNull)
              && p.value.eventDetails == ExtractEventDetails(data)
  {
    var data := if n.data == JNull then JObj(map[]) else n.data;
    if !IsArray(data) then None
    else
      Some(Payload(
        n.id,
        n.title.GetOr(DefaultTitle(n.event)),
        Coalesce(data, "message", JNull),
        n.event,
        Coalesce(data, "notification_type", JNull),
        n.channel,
        data,
        Coalesce(data, "metaData", JNull),
        ExtractEventDetails(data)))
  }

  /** The event the transport receives for a notification: on its one
      presence channel, named by its event type (`broadcastAs()`), carrying
      `broadcastWith()`; `None` when the payload cannot be built. */
  function Render(n: Notification): (e: Option<Emission>)
    ensures e.Some? <==> BroadcastWith(n).Some?
    ensures e.Some? ==> e.value.channels == [PresenceChannel(n.channel)] && e.value.name == n.event
                        && e.value.payload == BroadcastWith(n).value
  {
    match BroadcastWith(n)
    case Some(p) => Some(Emission(BroadcastOn(n), n.event, p))
    case None => None
  }

  /** The default title of each listed event type, and the fallback. */
  lemma DefaultTitleExamples()
    ensures DefaultTitle("OFFER_MADE") == "New Offer"
    ensures DefaultTitle("INVOICE") == "Invoice Update"
    ensures DefaultTitle("notification") == "New Notification"
    ensures DefaultTitle("offer_made") == FallbackTitle
  {
  }
}
