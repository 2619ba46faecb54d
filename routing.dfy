/** The single-slot subscription registry and the rule that routes an inbound
    message to its listener. */
module Routing {
  import opened Types

  /** The properties of a proton::message that the adapter reads. The
      correlation id is None when no id is set (proton's empty message_id),
      and otherwise Some of its text (to_string of the id). An id set to the
      empty string is Some(""), which is not the same as no id. */
  datatype ProtonMessage = ProtonMessage(
    to: string,
    address: string,
    correlationId: Option<string>,
    replyTo: string,
    body: string)

  /** A MessageListener. The source's is a std::function that may be empty;
      here an empty one is None and a present one is Some(Listener(id)). */
  datatype Listener = Listener(id: nat)

  /** The pair<key, listener> slot; a default-constructed pair is NoSubscription. */
  datatype Subscription = Subscription(key: string, listener: Option<Listener>)

  const NoSubscription: Subscription := Subscription("", None)

  /** The slot is either cleared or filled with a non-empty key and a present listener. */
  predicate WellFormedSlot(slot: Subscription)
  {
    slot == NoSubscription || (slot.key != "" && slot.listener.Some?)
  }

  /** receive keys its subscription by the filter when one is given, else by the address. */
  function SubscriptionKey(address: string, filter: string): (k: string)
    ensures filter != "" ==> k == filter
    ensures filter == "" ==> k == address
  {
    if filter != "" then filter else address
  }

  /** setSubscriptions: a complete subscription replaces the slot outright;
      an empty key or an absent listener is skipped. */
  function Subscribe(slot: Subscription, key: string, listener: Option<Listener>): (r: Subscription)
    ensures key != "" && listener.Some? ==> r == Subscription(key, listener)
    ensures key == "" || listener.None? ==> r == slot
    ensures WellFormedSlot(slot) ==> WellFormedSlot(r)
  {
    if key != "" && listener.Some? then Subscription(key, listener) else slot
  }

  /** A reply (a correlation id and no reply-to) is routed by the text of its
      correlation id; every other message by its address. */
  function RoutingKey(m: ProtonMessage): (k: string)
    ensures m.correlationId.Some? && m.replyTo == "" ==> k == m.correlationId.value
    ensures m.correlationId.None? || m.replyTo != "" ==> k == m.address
  {
    if m.correlationId.Some? && m.replyTo == "" then m.correlationId.value else m.address
  }

  /** The listener an inbound message is dispatched to, if any: there must be a
      connection, and the slot's key must be non-empty, equal the routing key
      exactly, and carry a listener. */
  function Route(hasConnection: bool, slot: Subscription, m: ProtonMessage): (r: Option<Listener>)
    ensures r.Some? <==> hasConnection && slot.key != "" && slot.key == RoutingKey(m) && slot.listener.Some?
    ensures r.Some? ==> r == slot.listener
  {
    if hasConnection && slot.key != "" && slot.key == RoutingKey(m) && slot.listener.Some?
    then slot.listener
    else None
  }

  /** A second subscription replaces the first and never merges with it. */
  lemma SecondSubscriptionReplaces(slot: Subscription, k1: string, l1: Option<Listener>, k2: string, l2: Option<Listener>)
    requires k2 != "" && l2.Some?
    ensures Subscribe(Subscribe(slot, k1, l1), k2, l2) == Subscription(k2, l2)
  {
  }

  /** A message carrying a reply-to is never routed by its correlation id, so a
      request does not reach the subscriber of its correlation id unless that
      subscriber also owns the request's address. */
  lemma RequestRoutedByAddress(hasConnection: bool, slot: Subscription, m: ProtonMessage)
    requires m.replyTo != ""
    requires m.correlationId == Some(slot.key) && slot.key != m.address
    ensures Route(hasConnection, slot, m) == None
  {
  }

  /** A reply whose correlation id is set to the empty string is routed by the
      key "", which no subscription can hold, so it is dropped even when its
      address is subscribed. */
  lemma EmptyCorrelationIdDropped(hasConnection: bool, slot: Subscription, m: ProtonMessage)
    requires m.correlationId == Some("") && m.replyTo == ""
    ensures Route(hasConnection, slot, m) == None
  {
  }

  /** With a well-formed slot, a message is dispatched exactly when there is a
      connection, the slot is filled, and its key is the message's routing key. */
  lemma RouteOfWellFormedSlot(hasConnection: bool, slot: Subscription, m: ProtonMessage)
    requires WellFormedSlot(slot)
    ensures Route(hasConnection, slot, m).Some? <==> hasConnection && slot != NoSubscription && slot.key == RoutingKey(m)
  {
  }
}
