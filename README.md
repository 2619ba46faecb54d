# AMQP client adapter: a verified model

This project models `AmqpClient`, the adapter of the fty message bus that turns
a callback-driven Qpid Proton session into blocking operations: `send`,
`receive`, `unreceive` and `close`, gated on a `connected()` query. It also
routes inbound messages to the single registered listener. The model is a
sequential state machine over the adapter's own fields.

- The driver thread's callbacks (`on_container_start`, `on_connection_open`,
  `on_sender_open`, `on_receiver_open`, `on_receiver_close`,
  `on_transport_error`, `on_message`) are ordinary method calls.
- Each `std::promise` is a cell, `Signal<T>`, that is `Pending` or
  `Fulfilled(v)`. The first value set wins.
- `connected()` waits on the connect promise. When the cell is still
  pending, the caller says which callback ended the wait, as a
  `ConnectWait`: `TimedOut` (none in time), `StartFailed`
  (`on_container_start` caught a connect error) or `Opened(reconnected)`
  (`on_connection_open`). That callback's effects are applied, and the
  wait's result follows from the cell: its value, ConnectFailed on timeout,
  or, on a reconnection, a broken promise whose error is caught. A
  promise that already holds a value is ready at once.
- `std::promise::get_future()` may be called once per promise. The adapter
  records whether `connected()` has taken the connect promise's future; a
  second `get_future()` throws `std::future_error` out of `connected()`, and
  `send` and `receive` propagate it. Results are `Outcome<T>`: `Done(v)` or
  `FutureError`.
- The sender and receiver waits take their outcome from the caller as a
  `Wait<()>`: `Arrived(())`, `Abandoned` or `Expired`. `Abandoned` means the
  promise was replaced while it was waited on, so its future became ready with
  a broken-promise error. The outcome is only consulted when the cell is still
  pending; a promise that already holds a value is ready at once.
- An inbound message's correlation id is an `Option<string>`: `None` when
  no id is set, `Some(text)` otherwise, so an id set to the empty string is
  distinct from no id.
- Proton's `active()` queries on the receiver and on the connection are
  boolean parameters.
- The connection's work queue is a `seq<Work>` that only grows at its end.
  Direct proton calls (`container.connect`, `sender.send`,
  `delivery.accept`, `connection.close`) are appended to a `seq<Effect>`.

Modules, one per concern:

- `Types` (types.dfy): `ComState`, `DeliveryState`, `Outcome`, `Option`, `Signal`, `Wait`.
- `Routing` (routing.dfy): the proton message fields the adapter reads, the
  single-slot subscription, the routing key and the match rule.
- `Transitions` (transitions.dfy): the adapter's fields as one `Adapter`
  value, with one function per source method. Each function's `ensures`
  states what that method promises.
- `Traces` (traces.dfy): sequences of events, and lemmas proved by induction
  over them.
- `Client` (client.dfy): class `AmqpClient` with the source's fields and one
  method per source method. Each method is proved to change the fields
  exactly as the matching `Transitions` function does, so every lemma about
  the functions holds of the object.

## Model

| member | source | states |
|---|---|---|
| `Routing.SubscriptionKey` | amqp/src/AmqpClient.cpp:166 | receive subscribes under the filter when it is non-empty, otherwise under the address |
| `Routing.Subscribe` | amqp/src/AmqpClient.cpp:203-211 | a complete subscription (non-empty key, present listener) replaces the slot outright; otherwise the slot is unchanged; a cleared-or-complete slot stays so |
| `Routing.SecondSubscriptionReplaces` | amqp/src/AmqpClient.cpp:203-211 | a second complete subscription replaces the first, whatever it was, and never merges with it |
| `Routing.RoutingKey` | amqp/src/AmqpClient.cpp:188-191 | the routing key is the correlation id's text when an id is set and reply-to is empty; when no id is set or reply-to is non-empty it is the message address |
| `Routing.Route` | amqp/src/AmqpClient.cpp:187-196 | a message finds a listener if and only if a connection is set, the slot key is non-empty, the slot key equals the routing key exactly, and the listener is present; that listener is then the slot's |
| `Routing.RequestRoutedByAddress` | amqp/src/AmqpClient.cpp:188-192 | a message with a reply-to is not routed to a subscriber of its correlation id (unless that key is also its address) |
| `Routing.EmptyCorrelationIdDropped` | amqp/src/AmqpClient.cpp:189-192 | a reply whose correlation id is set to the empty string is routed by the empty key and so is dispatched to no subscriber, even to the owner of its address |
| `Routing.RouteOfWellFormedSlot` | amqp/src/AmqpClient.cpp:192 | with a cleared-or-complete slot, a message is dispatched exactly when the connection is set, the slot is filled and its key is the routing key |
| `Transitions.OnContainerStart` | amqp/src/AmqpClient.cpp:64-72 | a connect request to the adapter's url is recorded; if it throws, nothing is recorded and the connect signal is fulfilled (with ConnectFailed when it was pending); nothing else changes |
| `Transitions.ResetPromise` | amqp/src/AmqpClient.cpp:113-119 | all three signals become pending and the new connect signal's future is not yet taken; nothing else changes |
| `Transitions.OnConnectionOpen` | amqp/src/AmqpClient.cpp:74-82 | the connection is recorded and the state is not touched; on a reconnection every signal is reset first (its future not yet taken), so the connect signal then holds Connected; otherwise only a pending connect signal takes Connected |
| `Transitions.OnSenderOpen` | amqp/src/AmqpClient.cpp:84-88 | the stored message is transmitted and the sender signal is fulfilled, a second fulfilment leaving it as it was; nothing else changes |
| `Transitions.OnReceiverOpen` | amqp/src/AmqpClient.cpp:90-95 | the receiver handle is recorded and the receiver signal is fulfilled (first value wins); nothing else changes |
| `Transitions.OnReceiverClose` | amqp/src/AmqpClient.cpp:97-100 | the receiver signal is fulfilled (first value wins); the handle and everything else are kept |
| `Transitions.OnTransportError` | amqp/src/AmqpClient.cpp:107-111 | the state becomes Lost whatever it was, and no signal or other field changes |
| `Transitions.CheckConnected` | amqp/src/AmqpClient.cpp:121-136 | a state other than Unknown or Lost is returned with nothing changed; in Unknown or Lost, it throws with nothing changed exactly when the connect signal's future was already taken; otherwise the future is marked taken and a value already in the signal becomes the state, a timeout gives ConnectFailed, a failed container start fulfils the signal with ConnectFailed and gives it, an opened connection is recorded and gives Connected, and a reconnection during the wait replaces the signal, whose broken-promise error is caught and leaves the state as it was; a returned state is always the stored one, and queues, slot and message never change |
| `Transitions.CheckConnectedIdempotent` | amqp/src/AmqpClient.cpp:121-136 | once connected() has returned a state other than Unknown or Lost, the next call returns the same state and changes nothing, whatever its wait outcome |
| `Transitions.ConnectedThenLostThrows` | amqp/src/AmqpClient.cpp:107-136 | after connected() has resolved Unknown or Lost to Connected, a transport error followed by another connected() throws `std::future_error` and changes nothing |
| `Transitions.ReconnectionResolvesLost` | amqp/src/AmqpClient.cpp:74-82 | in Lost, a reconnection installs a fresh connect signal holding Connected, so the next connected() returns Connected whatever its wait |
| `Transitions.Send` | amqp/src/AmqpClient.cpp:138-158 | when connected() throws, send throws with nothing changed; when it gives a state other than Connected the result is Rejected and nothing beyond connected()'s own update changes (no work, message and slot untouched); when connected, the message is stored, exactly one sender open for its `to` address is appended, the sender signal is reset, and the result is Accepted iff the wait did not time out |
| `Transitions.StaleSenderSignalIgnored` | amqp/src/AmqpClient.cpp:142-155 | a value left in the sender signal by a late callback does not change the next send's result |
| `Transitions.SetSubscriptions` | amqp/src/AmqpClient.cpp:203-211 | a non-empty key with a present listener becomes the slot; otherwise the adapter is unchanged; only the slot ever changes |
| `Transitions.Receive` | amqp/src/AmqpClient.cpp:160-179 | when connected() throws, receive throws with nothing changed; when it gives a state other than Connected the result is Rejected with no work enqueued and the slot untouched; when connected, the receiver signal is reset, the slot is set under the filter (or the address), exactly one receiver open for the address is appended, and the result is Accepted iff the wait did not time out |
| `Transitions.OnMessage` | amqp/src/AmqpClient.cpp:181-201 | the delivery is accepted in every case; the message is appended as a dispatch to the slot's listener exactly when it routes to that listener, and otherwise nothing is enqueued; nothing else changes |
| `Transitions.Unreceive` | amqp/src/AmqpClient.cpp:213-232 | the receiver signal is always reset; without a receiver handle the result is Rejected and nothing else changes; with one, the slot is cleared whatever the outcome, a receiver close is enqueued only when the receiver is active, and the result is Accepted iff it is active and the wait did not time out |
| `Transitions.Close` | amqp/src/AmqpClient.cpp:234-242 | the result is unreceive's; after unreceive, a connection close is recorded exactly when a connection is set and active; nothing else changes |
| `Traces.Step` | amqp/src/AmqpClient.cpp:64-242 | every event only appends to the work queue and to the record of proton calls, and keeps the url |
| `Traces.CheckConnectedKeepsInv` | amqp/src/AmqpClient.cpp:64-136 | connected() keeps the invariant below, whichever callback ends its wait |
| `Traces.SendKeepsInv` | amqp/src/AmqpClient.cpp:138-158 | send keeps the invariant |
| `Traces.ReceiveKeepsInv` | amqp/src/AmqpClient.cpp:160-179 | receive keeps the invariant, its new subscription included |
| `Traces.StepKeepsInv` | amqp/src/AmqpClient.cpp:64-232 | one event keeps the invariant: Connecting never stored, Connected stored only once a connection is set, connect signal holding only Connected or ConnectFailed and Connected only once a connection is set, slot cleared or complete |
| `Traces.RunKeepsInv` | amqp/src/AmqpClient.cpp:64-232 | every sequence of events keeps that invariant |
| `Traces.ReachableInv` | amqp/src/AmqpClient.cpp:54-232 | from construction, every sequence of events reaches a state satisfying the invariant, so the adapter never stores Connecting and never reports Connected before a connection is set |
| `Traces.RunAppend` | amqp/src/AmqpClient.cpp:64-242 | running two event sequences one after the other is running their concatenation |
| `Traces.RunOnlyAppends` | amqp/src/AmqpClient.cpp:138-242 | over any sequence of events, the work queue and the record of proton calls only grow at their end |
| `Traces.StepKeepsResolvedState` | amqp/src/AmqpClient.cpp:107-136 | no event but a transport error changes a state other than Unknown or Lost |
| `Traces.RunKeepsResolvedState` | amqp/src/AmqpClient.cpp:107-136 | Connected and ConnectFailed (and Connecting) persist over any sequence of events without a transport error: connected() stays idempotent and ConnectFailed is sticky |
| `Traces.StepAfterFailureOpensNothing` | amqp/src/AmqpClient.cpp:121-179 | in ConnectFailed, an event other than a transport error keeps ConnectFailed and enqueues no sender or receiver open |
| `Traces.RunAfterFailureOpensNothing` | amqp/src/AmqpClient.cpp:121-179 | after ConnectFailed and until a transport error, every send and receive is rejected before it reaches the work queue |
| `Traces.StepAfterLossOpensNothing` | amqp/src/AmqpClient.cpp:74-179 | in Lost with the connect future taken, an event other than a reconnection keeps both and enqueues no sender or receiver open |
| `Traces.RunAfterLossOpensNothing` | amqp/src/AmqpClient.cpp:74-179 | after such a loss and until a reconnection, the state stays Lost and every connected(), send and receive throws before it reaches the work queue |
| `Traces.SendDispatchesNothing` | amqp/src/AmqpClient.cpp:138-158 | send makes no direct proton call and enqueues no dispatch |
| `Traces.ReceiveDispatchesNothing` | amqp/src/AmqpClient.cpp:160-179 | receive makes no direct proton call and enqueues no dispatch |
| `Traces.StepDispatchesOnlyAccepted` | amqp/src/AmqpClient.cpp:181-201 | one event dispatches no more messages than it accepts deliveries |
| `Traces.RunDispatchesOnlyAccepted` | amqp/src/AmqpClient.cpp:181-201 | over any sequence of events, the dispatches to listeners never outnumber the deliveries accepted |
| `Traces.TopicDeliveredOnce` | amqp/src/AmqpClient.cpp:160-201 | after connecting and subscribing to `/topicTest`, a message addressed to that topic is dispatched exactly once, to the subscribed listener, whatever the connect wait of the receive |
| `Traces.ReplyRoutedByFilter` | amqp/src/AmqpClient.cpp:160-201 | a receive filtered on a correlation id gets the reply carrying that id, and a message on the same queue with another id, the empty one included, is dropped |
| `Traces.FirstConnectWaitsForOpen` | amqp/src/AmqpClient.cpp:74-158 | a first connected() whose wait ends with the connection opening reports Connected with the connection set, and a following send enqueues its sender open |
| `Traces.LossPrefixLoses` | amqp/src/AmqpClient.cpp:64-136 | start, open, a connected() and a transport failure leave the adapter Lost, with the connect future taken and nothing enqueued |
| `Traces.LostConnectionThrows` | amqp/src/AmqpClient.cpp:121-158 | after that loss, send throws `std::future_error` with nothing stored or enqueued |
| `Traces.LostConnectionStaysLost` | amqp/src/AmqpClient.cpp:74-179 | after that loss and until a reconnection, whatever events follow, the state stays Lost and no sender or receiver open is ever enqueued |
| `Client.AmqpClient.constructor` | amqp/src/AmqpClient.cpp:54-57 | a new adapter for the url is in state Unknown with a cleared slot, pending signals, no future taken, no handles and empty queues |
| `Client.AmqpClient.OnContainerStart` | amqp/src/AmqpClient.cpp:64-72 | changes the fields as `Transitions.OnContainerStart` |
| `Client.AmqpClient.ResetPromise` | amqp/src/AmqpClient.cpp:113-119 | changes the fields as `Transitions.ResetPromise` |
| `Client.AmqpClient.OnConnectionOpen` | amqp/src/AmqpClient.cpp:74-82 | changes the fields as `Transitions.OnConnectionOpen`, calling `ResetPromise` on a reconnection |
| `Client.AmqpClient.OnSenderOpen` | amqp/src/AmqpClient.cpp:84-88 | changes the fields as `Transitions.OnSenderOpen` |
| `Client.AmqpClient.OnReceiverOpen` | amqp/src/AmqpClient.cpp:90-95 | changes the fields as `Transitions.OnReceiverOpen` |
| `Client.AmqpClient.OnReceiverClose` | amqp/src/AmqpClient.cpp:97-100 | changes the fields as `Transitions.OnReceiverClose` |
| `Client.AmqpClient.OnTransportError` | amqp/src/AmqpClient.cpp:107-111 | changes the fields as `Transitions.OnTransportError` |
| `Client.AmqpClient.CheckConnected` | amqp/src/AmqpClient.cpp:121-136 | runs the callback that ends a pending wait as its own method, then returns and changes the fields as `Transitions.CheckConnected` |
| `Client.AmqpClient.Send` | amqp/src/AmqpClient.cpp:138-158 | calls `CheckConnected`, then returns and changes the fields as `Transitions.Send` |
| `Client.AmqpClient.SetSubscriptions` | amqp/src/AmqpClient.cpp:203-211 | changes the slot as `Transitions.SetSubscriptions` |
| `Client.AmqpClient.Receive` | amqp/src/AmqpClient.cpp:160-179 | calls `CheckConnected` and `SetSubscriptions`, then returns and changes the fields as `Transitions.Receive` |
| `Client.AmqpClient.OnMessage` | amqp/src/AmqpClient.cpp:181-201 | changes the fields as `Transitions.OnMessage` |
| `Client.AmqpClient.Unreceive` | amqp/src/AmqpClient.cpp:213-232 | returns and changes the fields as `Transitions.Unreceive` |
| `Client.AmqpClient.Close` | amqp/src/AmqpClient.cpp:234-242 | calls `Unreceive`, then returns and changes the fields as `Transitions.Close` |

Behaviour a reader might not expect from the interface:

- `unreceive` and `close` do not call `connected()`. They run in any state.
- `unreceive` clears the slot only when a receiver handle exists. With no
  handle, the slot is kept.
- The adapter never stores `Connecting` (`Traces.ReachableInv`).
- A void wait whose promise was replaced while waited on is ready rather
  than timed out. So `send`, `receive` and `unreceive` return Accepted in
  that case too, with `Wait.Abandoned`, although no confirming callback ran.
- Once `connected()` has taken the connect promise's future, a transport
  error makes every later `connected()`, `send` and `receive` throw
  `std::future_error` until a reconnection installs a fresh promise
  (`Traces.LostConnectionThrows`, `Traces.LostConnectionStaysLost`).

## Left out

- Threads, the mutex, `std::future` and the proton container and driver
  thread. Promises are cells, waits are caller-supplied outcomes, and
  callbacks are method calls made one at a time. No interleaving inside a
  method is modelled.
- The value of TIMEOUT (2 seconds). Only its outcome is modelled, as a
  `ConnectWait` or `Wait` parameter.
- The reconnect options, the connection options and the idle timeout. They
  are only configuration handed to proton.
- Setting a promise twice raises `std::future_error` in the source, which
  `on_connection_open`, `on_sender_open` and the receiver callbacks can hit.
  Here the second set leaves the cell as it was, and the callback's other
  effects still happen.
- A wait on a pending connect promise is ended by at most one callback,
  applied inside `connected()`. Other callbacks that might run during the
  wait are separate events before or after the call.
- A sender or receiver wait that sees `Arrived(())` does not apply the
  confirming callback inside the call. Its effects (`sender.send`, the
  receiver handle) happen when its own event method is called.
- Proton's own calls are left opaque. `open_sender`, `open_receiver`,
  `receiver.close` and `make_work` are recorded as work items. The work
  items are never run, so listener execution is not modelled.
  `container.connect`, `sender.send`, `delivery.accept` and
  `connection.close` are recorded as effects.
- The conversion of an inbound message with `getMetaData` and `to_string`.
  A dispatch carries the proton message's fields as received.
- `on_error` only logs; all other logging is left out as well.
- The destructor calls `close()`. It is not a separate member here: it is
  `Close` with the transport's liveness answers.
- The initial field values come from `AmqpClient.h`, which is not part of this
  model. The constructor assumes state Unknown, an empty slot, pending
  promises, no handles and empty queues.
- The `MessageBusAmqp` facade (`publish`, `subscribe`, `sendRequest`,
  `request`, ...) is only declared in `MsgBusAmqp.hpp`, so its
  implementation is not part of this model. It includes the request/reply
  composition with a bounded wait for the reply.
- The MQTT client, the CLI front-end, the samples and the integration tests
  are not part of this model.
