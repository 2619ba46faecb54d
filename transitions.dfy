/** The adapter's fields as one value, and one transition function per method
    of AmqpClient: the driver thread's callbacks and the caller's operations. */
module Transitions {
  import opened Types
  import opened Routing

  /** A unit of work added to the connection's work queue, which the driver
      thread runs later in order. */
  datatype Work =
    | OpenSender(target: string)            // default_session().open_sender(msg.to())
    | OpenReceiver(source: string)          // default_session().open_receiver(address), auto-accepting
    | CloseReceiver                         // m_receiver.close()
    | Dispatch(listener: Listener, msg: ProtonMessage)  // make_work(listener, message)

  /** A call the adapter makes directly on a proton object. */
  datatype Effect =
    | ConnectRequested(url: string)         // container.connect(m_url, ...)
    | Transmitted(msg: ProtonMessage)       // sender.send(m_message)
    | DeliveryAccepted(msg: ProtonMessage)  // delivery.accept()
    | ConnectionClosed                      // m_connection.close()

  /** The fields of one AmqpClient. */
  datatype Adapter = Adapter(
    url: string,                      // m_url
    state: ComState,                  // m_communicationState
    subscription: Subscription,       // m_subscriptions
    connectSignal: Signal<ComState>,  // m_connectPromise
    connectFutureTaken: bool,         // get_future() was called on m_connectPromise
    senderSignal: Signal<()>,         // m_promiseSender
    receiverSignal: Signal<()>,       // m_promiseReceiver
    message: ProtonMessage,           // m_message
    hasReceiver: bool,                // m_receiver is set
    hasConnection: bool,              // m_connection is set
    workQueue: seq<Work>,             // m_connection.work_queue()
    effects: seq<Effect>)             // direct proton calls, in order

  /** What a caller blocked in connected() on a connect signal that is still
      pending sees within TIMEOUT. The waiting thread does not decide this, so
      the caller supplies it: no callback fulfils the signal in time, the
      container fails to start, or the connection opens (on a reconnection the
      signal waited on is replaced, which breaks it). */
  datatype ConnectWait = TimedOut | StartFailed | Opened(reconnected: bool)

  /** The state after a call, and what the call returned. */
  datatype Stepped<T> = Stepped(next: Adapter, result: T)

  const EmptyMessage: ProtonMessage := ProtonMessage("", "", None, "", "")

  function Initial(url: string): Adapter
  {
    Adapter(url, Unknown, NoSubscription, Pending, false, Pending, Pending, EmptyMessage, false, false, [], [])
  }

  /** connected() waits for the connect signal only in these two states. */
  predicate NeedsResolution(s: ComState)
  {
    s == Unknown || s == Lost
  }

  /** on_container_start: ask the container to connect; if that throws, the
      connect signal is fulfilled with ConnectFailed instead. */
  function OnContainerStart(a: Adapter, connectThrows: bool): (b: Adapter)
    ensures !connectThrows ==> b.effects == a.effects + [ConnectRequested(a.url)] && b.connectSignal == a.connectSignal
    ensures connectThrows ==> b.effects == a.effects && b.connectSignal.Fulfilled?
    ensures connectThrows && a.connectSignal.Pending? ==> b.connectSignal == Fulfilled(ConnectFailed)
    ensures b.(effects := a.effects, connectSignal := a.connectSignal) == a
  {
    if connectThrows then a.(connectSignal := Fulfil(a.connectSignal, ConnectFailed))
    else a.(effects := a.effects + [ConnectRequested(a.url)])
  }

  /** resetPromise: fresh connect, sender and receiver signals; the future of
      the new connect signal has not been taken yet. */
  function ResetPromise(a: Adapter): (b: Adapter)
    ensures b.connectSignal.Pending? && !b.connectFutureTaken && b.senderSignal.Pending? && b.receiverSignal.Pending?
    ensures b.(connectSignal := a.connectSignal, connectFutureTaken := a.connectFutureTaken,
               senderSignal := a.senderSignal, receiverSignal := a.receiverSignal) == a
  {
    a.(connectSignal := Pending, connectFutureTaken := false, senderSignal := Pending, receiverSignal := Pending)
  }

  /** on_connection_open: record the connection; on a reconnection first reset
      every signal, so the connect signal then surely takes Connected. The
      communication state itself is left to the next connected(). */
  function OnConnectionOpen(a: Adapter, reconnected: bool): (b: Adapter)
    ensures b.hasConnection && b.state == a.state
    ensures b.connectSignal.Fulfilled?
    ensures reconnected || a.connectSignal.Pending? ==> b.connectSignal == Fulfilled(Connected)
    ensures reconnected ==> !b.connectFutureTaken && b.senderSignal.Pending? && b.receiverSignal.Pending?
    ensures !reconnected ==> b.connectFutureTaken == a.connectFutureTaken && b.connectSignal == Fulfil(a.connectSignal, Connected) && b.senderSignal == a.senderSignal && b.receiverSignal == a.receiverSignal
    ensures b.(hasConnection := a.hasConnection, connectSignal := a.connectSignal, connectFutureTaken := a.connectFutureTaken,
               senderSignal := a.senderSignal, receiverSignal := a.receiverSignal) == a
  {
    var c := a.(hasConnection := true);
    var d := if reconnected then ResetPromise(c) else c;
    d.(connectSignal := Fulfil(d.connectSignal, Connected))
  }

  /** on_sender_open: send the stored message, then fulfil the sender signal. */
  function OnSenderOpen(a: Adapter): (b: Adapter)
    ensures b.effects == a.effects + [Transmitted(a.message)]
    ensures b.senderSignal.Fulfilled? && (a.senderSignal.Fulfilled? ==> b.senderSignal == a.senderSignal)
    ensures b.(effects := a.effects, senderSignal := a.senderSignal) == a
  {
    a.(effects := a.effects + [Transmitted(a.message)], senderSignal := Fulfil(a.senderSignal, ()))
  }

  /** on_receiver_open: record the receiver handle, then fulfil the receiver signal. */
  function OnReceiverOpen(a: Adapter): (b: Adapter)
    ensures b.hasReceiver
    ensures b.receiverSignal.Fulfilled? && (a.receiverSignal.Fulfilled? ==> b.receiverSignal == a.receiverSignal)
    ensures b.(hasReceiver := a.hasReceiver, receiverSignal := a.receiverSignal) == a
  {
    a.(hasReceiver := true, receiverSignal := Fulfil(a.receiverSignal, ()))
  }

  /** on_receiver_close: fulfil the receiver signal; the handle is kept. */
  function OnReceiverClose(a: Adapter): (b: Adapter)
    ensures b.receiverSignal.Fulfilled? && (a.receiverSignal.Fulfilled? ==> b.receiverSignal == a.receiverSignal)
    ensures b.(receiverSignal := a.receiverSignal) == a
  {
    a.(receiverSignal := Fulfil(a.receiverSignal, ()))
  }

  /** on_transport_error: the state becomes Lost whatever it was; no signal is
      touched, so a blocked caller is not woken. */
  function OnTransportError(a: Adapter): (b: Adapter)
    ensures b.state == Lost
    ensures b.(state := a.state) == a
  {
    a.(state := Lost)
  }

  /** connectFuture.get() on a ready future that holds a value: the value
      becomes the communication state and is returned. */
  function TakeValue(c: Adapter): Stepped<Outcome<ComState>>
    requires c.connectSignal.Fulfilled?
  {
    Stepped(c.(state := c.connectSignal.value), Done(c.connectSignal.value))
  }

  /** connected(): any state but Unknown and Lost is returned as it is. In
      those two, the future of the connect signal is taken; a future taken
      before from the same signal makes get_future() throw, and the error
      leaves the call with nothing changed. Otherwise the call waits: a
      fulfilled signal gives its value, a timeout gives ConnectFailed, and a
      signal replaced during the wait is broken, whose error is caught and
      leaves the state as it was. */
  function CheckConnected(a: Adapter, w: ConnectWait): (s: Stepped<Outcome<ComState>>)
    ensures !NeedsResolution(a.state) ==> s == Stepped(a, Done(a.state))
    ensures s.result.FutureError? <==> NeedsResolution(a.state) && a.connectFutureTaken
    ensures s.result.FutureError? ==> s.next == a
    ensures s.result.Done? ==> s.next.state == s.result.value
    ensures s.result.Done? ==>
      && s.next.url == a.url && s.next.subscription == a.subscription && s.next.message == a.message
      && s.next.hasReceiver == a.hasReceiver && s.next.workQueue == a.workQueue && s.next.effects == a.effects
    ensures NeedsResolution(a.state) && !a.connectFutureTaken && a.connectSignal.Fulfilled? ==>
      s == Stepped(a.(state := a.connectSignal.value, connectFutureTaken := true), Done(a.connectSignal.value))
    ensures NeedsResolution(a.state) && !a.connectFutureTaken && a.connectSignal.Pending? && w == TimedOut ==>
      s == Stepped(a.(state := ConnectFailed, connectFutureTaken := true), Done(ConnectFailed))
    ensures NeedsResolution(a.state) && !a.connectFutureTaken && a.connectSignal.Pending? && w == StartFailed ==>
      s == Stepped(a.(state := ConnectFailed, connectSignal := Fulfilled(ConnectFailed), connectFutureTaken := true), Done(ConnectFailed))
    ensures NeedsResolution(a.state) && !a.connectFutureTaken && a.connectSignal.Pending? && w == Opened(false) ==>
      s == Stepped(a.(state := Connected, hasConnection := true, connectSignal := Fulfilled(Connected), connectFutureTaken := true),
                   Done(Connected))
    ensures NeedsResolution(a.state) && !a.connectFutureTaken && a.connectSignal.Pending? && w == Opened(true) ==>
      s == Stepped(a.(hasConnection := true, connectSignal := Fulfilled(Connected), connectFutureTaken := false,
                      senderSignal := Pending, receiverSignal := Pending),
                   Done(a.state))
  {
    if !NeedsResolution(a.state) then Stepped(a, Done(a.state))
    else if a.connectFutureTaken then Stepped(a, FutureError)
    else
      var b := a.(connectFutureTaken := true);
      if b.connectSignal.Fulfilled? then TakeValue(b)
      else
        match w
        case TimedOut => Stepped(b.(state := ConnectFailed), Done(ConnectFailed))
        case StartFailed => TakeValue(OnContainerStart(b, true))
        case Opened(reconnected) =>
          if reconnected then Stepped(OnConnectionOpen(b, true), Done(b.state))
          else TakeValue(OnConnectionOpen(b, false))
  }

  /** send: only when connected() gives Connected, store the message, reset
      the sender signal, enqueue one sender open and wait for the signal. An
      error out of connected() leaves send as well. */
  function Send(a: Adapter, msg: ProtonMessage, cw: ConnectWait, sw: Wait<()>): (s: Stepped<Outcome<DeliveryState>>)
    ensures var c := CheckConnected(a, cw); c.result.FutureError? ==> s == Stepped(a, FutureError)
    ensures var c := CheckConnected(a, cw); c.result.Done? && c.result.value != Connected ==> s == Stepped(c.next, Done(Rejected))
    ensures var c := CheckConnected(a, cw); c.result == Done(Connected) ==>
      && s.next.workQueue == a.workQueue + [OpenSender(msg.to)]
      && s.next.message == msg
      && s.next.senderSignal == Pending
      && s.result.Done?
      && (s.result == Done(Accepted) <==> !sw.Expired?)
      && s.next.(workQueue := a.workQueue, message := a.message, senderSignal := a.senderSignal) == c.next
  {
    var c := CheckConnected(a, cw);
    match c.result
    case FutureError => Stepped(c.next, FutureError)
    case Done(state) =>
      if state != Connected then Stepped(c.next, Done(Rejected))
      else
        var b := c.next.(senderSignal := Pending, message := msg, workQueue := c.next.workQueue + [OpenSender(msg.to)]);
        Stepped(b, Done(DeliveryOf(Observe(b.senderSignal, sw))))
  }

  /** setSubscriptions. */
  function SetSubscriptions(a: Adapter, key: string, listener: Option<Listener>): (b: Adapter)
    ensures key != "" && listener.Some? ==> b.subscription == Subscription(key, listener)
    ensures key == "" || listener.None? ==> b == a
    ensures b.(subscription := a.subscription) == a
  {
    a.(subscription := Subscribe(a.subscription, key, listener))
  }

  /** receive: only when connected() gives Connected, reset the receiver
      signal, subscribe the listener under the filter (or the address),
      enqueue one receiver open and wait for the signal. An error out of
      connected() leaves receive as well. */
  function Receive(a: Adapter, address: string, filter: string, listener: Option<Listener>,
                   cw: ConnectWait, rw: Wait<()>): (s: Stepped<Outcome<DeliveryState>>)
    ensures var c := CheckConnected(a, cw); c.result.FutureError? ==> s == Stepped(a, FutureError)
    ensures var c := CheckConnected(a, cw); c.result.Done? && c.result.value != Connected ==> s == Stepped(c.next, Done(Rejected))
    ensures var c := CheckConnected(a, cw); c.result == Done(Connected) ==>
      && s.next.workQueue == a.workQueue + [OpenReceiver(address)]
      && s.next.subscription == Subscribe(a.subscription, SubscriptionKey(address, filter), listener)
      && s.next.receiverSignal == Pending
      && s.result.Done?
      && (s.result == Done(Accepted) <==> !rw.Expired?)
      && s.next.(workQueue := a.workQueue, subscription := a.subscription, receiverSignal := a.receiverSignal) == c.next
  {
    var c := CheckConnected(a, cw);
    match c.result
    case FutureError => Stepped(c.next, FutureError)
    case Done(state) =>
      if state != Connected then Stepped(c.next, Done(Rejected))
      else
        var b := c.next.(receiverSignal := Pending);
        var d := SetSubscriptions(b, SubscriptionKey(address, filter), listener);
        var e := d.(workQueue := d.workQueue + [OpenReceiver(address)]);
        Stepped(e, Done(DeliveryOf(Observe(e.receiverSignal, rw))))
  }

  /** on_message: accept the delivery first; then, with a connection, dispatch
      the message to the subscriber whose key is its routing key, or drop it. */
  function OnMessage(a: Adapter, m: ProtonMessage): (b: Adapter)
    ensures b.effects == a.effects + [DeliveryAccepted(m)]
    ensures Route(a.hasConnection, a.subscription, m).Some? ==>
      b.workQueue == a.workQueue + [Dispatch(a.subscription.listener.value, m)]
    ensures Route(a.hasConnection, a.subscription, m).None? ==> b.workQueue == a.workQueue
    ensures b.(effects := a.effects, workQueue := a.workQueue) == a
  {
    var accepted := a.(effects := a.effects + [DeliveryAccepted(m)]);
    if accepted.hasConnection then
      var key := RoutingKey(m);
      if accepted.subscription.key != "" && accepted.subscription.key == key && accepted.subscription.listener.Some? then
        accepted.(workQueue := accepted.workQueue + [Dispatch(accepted.subscription.listener.value, m)])
      else
        accepted
    else
      accepted
  }

  /** unreceive: reset the receiver signal; with a receiver handle, close an
      active receiver and wait for the signal, then clear the slot whatever the
      outcome. Without a handle the result is Rejected. */
  function Unreceive(a: Adapter, receiverActive: bool, w: Wait<()>): (s: Stepped<DeliveryState>)
    ensures s.next.receiverSignal == Pending
    ensures !a.hasReceiver ==> s.result == Rejected && s.next == a.(receiverSignal := Pending)
    ensures a.hasReceiver ==>
      && s.next.subscription == NoSubscription
      && s.next.workQueue == a.workQueue + (if receiverActive then [CloseReceiver] else [])
      && (s.result == Accepted <==> receiverActive && !w.Expired?)
      && s.next.(subscription := a.subscription, workQueue := a.workQueue, receiverSignal := a.receiverSignal) == a
  {
    var b := a.(receiverSignal := Pending);
    if !b.hasReceiver then Stepped(b, Rejected)
    else if receiverActive then
      var c := b.(workQueue := b.workQueue + [CloseReceiver]);
      Stepped(c.(subscription := NoSubscription), DeliveryOf(Observe(c.receiverSignal, w)))
    else
      Stepped(b.(subscription := NoSubscription), Rejected)
  }

  /** close: unreceive, then close the connection if it is set and active;
      the result is unreceive's. */
  function Close(a: Adapter, receiverActive: bool, w: Wait<()>, connectionActive: bool): (s: Stepped<DeliveryState>)
    ensures var u := Unreceive(a, receiverActive, w);
      && s.result == u.result
      && s.next.effects == u.next.effects + (if a.hasConnection && connectionActive then [ConnectionClosed] else [])
      && s.next.(effects := u.next.effects) == u.next
  {
    var u := Unreceive(a, receiverActive, w);
    if u.next.hasConnection && connectionActive then
      Stepped(u.next.(effects := u.next.effects + [ConnectionClosed]), u.result)
    else
      u
  }

  /** Once connected() resolves to a state other than Unknown or Lost, calling
      it again returns that state and changes nothing, whatever the wait. */
  lemma CheckConnectedIdempotent(a: Adapter, w: ConnectWait, w': ConnectWait)
    requires CheckConnected(a, w).result.Done? && !NeedsResolution(CheckConnected(a, w).result.value)
    ensures CheckConnected(CheckConnected(a, w).next, w') == CheckConnected(a, w)
  {
  }

  /** Once connected() has resolved Unknown or Lost to Connected, a transport
      error followed by another connected() throws: the connect signal's
      future was already taken, and nothing but a reconnection replaces it. */
  lemma ConnectedThenLostThrows(a: Adapter, w: ConnectWait, w': ConnectWait)
    requires NeedsResolution(a.state) && CheckConnected(a, w).result == Done(Connected)
    ensures CheckConnected(OnTransportError(CheckConnected(a, w).next), w') == Stepped(OnTransportError(CheckConnected(a, w).next), FutureError)
  {
  }

  /** A reconnection after the connection was lost gives a fresh connect
      signal holding Connected, so the next connected() returns Connected,
      whatever happened to the old signal. */
  lemma ReconnectionResolvesLost(a: Adapter, w: ConnectWait)
    requires a.state == Lost
    ensures var b := OnConnectionOpen(a, true);
      CheckConnected(b, w) == Stepped(b.(state := Connected, connectFutureTaken := true), Done(Connected))
  {
  }

  /** Whatever a late callback left in the sender signal does not leak into
      the next send: its result depends only on its own waits. */
  lemma StaleSenderSignalIgnored(a: Adapter, stale: Signal<()>, msg: ProtonMessage, cw: ConnectWait, sw: Wait<()>)
    ensures Send(a.(senderSignal := stale), msg, cw, sw).result == Send(a, msg, cw, sw).result
  {
  }
}
