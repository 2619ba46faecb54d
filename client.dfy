/** The AMQP client adapter as an object whose methods update its fields, as
    AmqpClient does. The driver thread's callbacks are ordinary method calls;
    every wait of at most TIMEOUT takes its outcome as a parameter (a connect
    wait names the callback that ended it, which runs inside the call), and
    every proton query for liveness (active()) is a parameter too. Each method is
    proved to move the fields exactly as the matching function of Transitions
    moves an Adapter value, so the lemmas of Transitions and Traces hold of
    the object. */
module Client {
  import opened Types
  import opened Routing
  import opened Transitions

  class AmqpClient {
    const url: string
    var communicationState: ComState
    var subscriptions: Subscription
    var connectPromise: Signal<ComState>
    var connectFutureTaken: bool
    var promiseSender: Signal<()>
    var promiseReceiver: Signal<()>
    var message: ProtonMessage
    var hasReceiver: bool
    var hasConnection: bool
    var workQueue: seq<Work>
    var effects: seq<Effect>

    /** The fields as one Adapter value. */
    function Snapshot(): Adapter
      reads this
    {
      Adapter(url, communicationState, subscriptions, connectPromise, connectFutureTaken, promiseSender, promiseReceiver,
              message, hasReceiver, hasConnection, workQueue, effects)
    }

    constructor (url: string)
      ensures Snapshot() == Initial(url)
    {
      this.url := url;
      communicationState := Unknown;
      subscriptions := NoSubscription;
      connectPromise := Pending;
      connectFutureTaken := false;
      promiseSender := Pending;
      promiseReceiver := Pending;
      message := EmptyMessage;
      hasReceiver := false;
      hasConnection := false;
      workQueue := [];
      effects := [];
    }

    method OnContainerStart(connectThrows: bool)
      modifies this
      ensures Snapshot() == Transitions.OnContainerStart(old(Snapshot()), connectThrows)
    {
      if connectThrows {
        connectPromise := Fulfil(connectPromise, ConnectFailed);
      } else {
        effects := effects + [ConnectRequested(url)];
      }
    }

    method ResetPromise()
      modifies this
      ensures Snapshot() == Transitions.ResetPromise(old(Snapshot()))
    {
      connectPromise := Pending;
      connectFutureTaken := false;
      promiseSender := Pending;
      promiseReceiver := Pending;
    }

    method OnConnectionOpen(reconnected: bool)
      modifies this
      ensures Snapshot() == Transitions.OnConnectionOpen(old(Snapshot()), reconnected)
    {
      hasConnection := true;
      if reconnected {
        ResetPromise();
      }
      connectPromise := Fulfil(connectPromise, Connected);
    }

    method OnSenderOpen()
      modifies this
      ensures Snapshot() == Transitions.OnSenderOpen(old(Snapshot()))
    {
      effects := effects + [Transmitted(message)];
      promiseSender := Fulfil(promiseSender, ());
    }

    method OnReceiverOpen()
      modifies this
      ensures Snapshot() == Transitions.OnReceiverOpen(old(Snapshot()))
    {
      hasReceiver := true;
      promiseReceiver := Fulfil(promiseReceiver, ());
    }

    method OnReceiverClose()
      modifies this
      ensures Snapshot() == Transitions.OnReceiverClose(old(Snapshot()))
    {
      promiseReceiver := Fulfil(promiseReceiver, ());
    }

    method OnTransportError()
      modifies this
      ensures Snapshot() == Transitions.OnTransportError(old(Snapshot()))
    {
      communicationState := Lost;
    }

    /** The callback that ends a wait on a pending connect signal runs here,
        as the matching callback method. */
    method CheckConnected(cw: ConnectWait) returns (s: Outcome<ComState>)
      modifies this
      ensures Stepped(Snapshot(), s) == Transitions.CheckConnected(old(Snapshot()), cw)
    {
      if communicationState == Unknown || communicationState == Lost {
        if connectFutureTaken {
          return FutureError;
        }
        connectFutureTaken := true;
        var broken := false;
        if connectPromise.Pending? {
          match cw
          case TimedOut =>
          case StartFailed =>
            OnContainerStart(true);
          case Opened(reconnected) =>
            OnConnectionOpen(reconnected);
            broken := reconnected;
        }
        if connectPromise.Pending? {
          communicationState := ConnectFailed;
        } else if !broken {
          communicationState := connectPromise.value;
        }
      }
      s := Done(communicationState);
    }

    method Send(msg: ProtonMessage, cw: ConnectWait, sw: Wait<()>) returns (d: Outcome<DeliveryState>)
      modifies this
      ensures Stepped(Snapshot(), d) == Transitions.Send(old(Snapshot()), msg, cw, sw)
    {
      var state := CheckConnected(cw);
      if state.FutureError? {
        return FutureError;
      }
      d := Done(Rejected);
      if state.value == Connected {
        promiseSender := Pending;
        message := msg;
        workQueue := workQueue + [OpenSender(msg.to)];
        if !Observe(promiseSender, sw).Expired? {
          d := Done(Accepted);
        }
      }
    }

    method SetSubscriptions(key: string, listener: Option<Listener>)
      modifies this
      ensures Snapshot() == Transitions.SetSubscriptions(old(Snapshot()), key, listener)
    {
      if key != "" && listener.Some? {
        subscriptions := Subscription(key, listener);
      }
    }

    method Receive(address: string, filter: string, listener: Option<Listener>,
                   cw: ConnectWait, rw: Wait<()>) returns (d: Outcome<DeliveryState>)
      modifies this
      ensures Stepped(Snapshot(), d) == Transitions.Receive(old(Snapshot()), address, filter, listener, cw, rw)
    {
      var state := CheckConnected(cw);
      if state.FutureError? {
        return FutureError;
      }
      d := Done(Rejected);
      if state.value == Connected {
        promiseReceiver := Pending;
        SetSubscriptions(SubscriptionKey(address, filter), listener);
        workQueue := workQueue + [OpenReceiver(address)];
        if !Observe(promiseReceiver, rw).Expired? {
          d := Done(Accepted);
        }
      }
    }

    method OnMessage(msg: ProtonMessage)
      modifies this
      ensures Snapshot() == Transitions.OnMessage(old(Snapshot()), msg)
    {
      effects := effects + [DeliveryAccepted(msg)];
      if hasConnection {
        var key := RoutingKey(msg);
        if subscriptions.key != "" && subscriptions.key == key && subscriptions.listener.Some? {
          workQueue := workQueue + [Dispatch(subscriptions.listener.value, msg)];
        }
      }
    }

    method Unreceive(receiverActive: bool, w: Wait<()>) returns (d: DeliveryState)
      modifies this
      ensures Stepped(Snapshot(), d) == Transitions.Unreceive(old(Snapshot()), receiverActive, w)
    {
      promiseReceiver := Pending;
      d := Rejected;
      if hasReceiver {
        if receiverActive {
          workQueue := workQueue + [CloseReceiver];
          if !Observe(promiseReceiver, w).Expired? {
            d := Accepted;
          }
        }
        subscriptions := NoSubscription;
      }
    }

    method Close(receiverActive: bool, w: Wait<()>, connectionActive: bool) returns (d: DeliveryState)
      modifies this
      ensures Stepped(Snapshot(), d) == Transitions.Close(old(Snapshot()), receiverActive, w, connectionActive)
    {
      d := Unreceive(receiverActive, w);
      if hasConnection && connectionActive {
        effects := effects + [ConnectionClosed];
      }
    }
  }
}
