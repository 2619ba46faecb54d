/** Sequences of events on one adapter: driver-thread callbacks and caller
    operations, each with the outcome of its waits. What holds after every
    such sequence is proved here by induction on its length. */
module Traces {
  import opened Types
  import opened Routing
  import opened Transitions

  datatype Event =
    | ContainerStarted(connectThrows: bool)
    | ConnectionOpened(reconnected: bool)
    | SenderOpened
    | ReceiverOpened
    | ReceiverClosed
    | TransportFailed
    | MessageArrived(msg: ProtonMessage)
    | ConnectedCalled(cw: ConnectWait)
    | SendCalled(out: ProtonMessage, cw: ConnectWait, sw: Wait<()>)
    | ReceiveCalled(address: string, filter: string, listener: Option<Listener>, cw: ConnectWait, rw: Wait<()>)
    | SetSubscriptionsCalled(key: string, slotListener: Option<Listener>)
    | UnreceiveCalled(receiverActive: bool, uw: Wait<()>)
    | CloseCalled(closeReceiverActive: bool, closeWait: Wait<()>, connectionActive: bool)

  /** The adapter after one event. The work queue and the record of proton
      calls only ever grow at their end. */
  function Step(a: Adapter, e: Event): (b: Adapter)
    ensures a.workQueue <= b.workQueue && a.effects <= b.effects
    ensures b.url == a.url
  {
    match e
    case ContainerStarted(t) => OnContainerStart(a, t)
    case ConnectionOpened(r) => OnConnectionOpen(a, r)
    case SenderOpened => OnSenderOpen(a)
    case ReceiverOpened => OnReceiverOpen(a)
    case ReceiverClosed => OnReceiverClose(a)
    case TransportFailed => OnTransportError(a)
    case MessageArrived(m) => OnMessage(a, m)
    case ConnectedCalled(cw) => CheckConnected(a, cw).next
    case SendCalled(m, cw, sw) => Send(a, m, cw, sw).next
    case ReceiveCalled(ad, f, l, cw, rw) => Receive(a, ad, f, l, cw, rw).next
    case SetSubscriptionsCalled(k, l) => SetSubscriptions(a, k, l)
    case UnreceiveCalled(ra, w) => Unreceive(a, ra, w).next
    case CloseCalled(ra, w, ca) => Close(a, ra, w, ca).next
  }

  function Run(a: Adapter, t: seq<Event>): Adapter
    decreases |t|
  {
    if t == [] then a else Run(Step(a, t[0]), t[1..])
  }

  /** What every reachable adapter satisfies: Connecting is never stored,
      Connected is stored only once a connection is recorded, the connect
      signal only holds Connected or ConnectFailed and holds Connected only
      once a connection is recorded, and the subscription slot is either
      cleared or complete. */
  predicate Inv(a: Adapter)
  {
    && a.state != Connecting
    && (a.state == Connected ==> a.hasConnection)
    && (a.connectSignal.Fulfilled? ==> a.connectSignal.value == Connected || a.connectSignal.value == ConnectFailed)
    && (a.connectSignal == Fulfilled(Connected) ==> a.hasConnection)
    && WellFormedSlot(a.subscription)
  }

  /** connected() keeps the invariant, whichever callback ends its wait. */
  lemma CheckConnectedKeepsInv(a: Adapter, cw: ConnectWait)
    requires Inv(a)
    ensures Inv(CheckConnected(a, cw).next)
  {
  }

  lemma SendKeepsInv(a: Adapter, m: ProtonMessage, cw: ConnectWait, sw: Wait<()>)
    requires Inv(a)
    ensures Inv(Send(a, m, cw, sw).next)
  {
    CheckConnectedKeepsInv(a, cw);
  }

  lemma ReceiveKeepsInv(a: Adapter, ad: string, f: string, l: Option<Listener>, cw: ConnectWait, rw: Wait<()>)
    requires Inv(a)
    ensures Inv(Receive(a, ad, f, l, cw, rw).next)
  {
    CheckConnectedKeepsInv(a, cw);
    if CheckConnected(a, cw).result == Done(Connected) {
      assert WellFormedSlot(Subscribe(a.subscription, SubscriptionKey(ad, f), l));
    }
  }

  lemma StepKeepsInv(a: Adapter, e: Event)
    requires Inv(a)
    ensures Inv(Step(a, e))
  {
    match e
    case ConnectedCalled(cw) => CheckConnectedKeepsInv(a, cw);
    case SendCalled(m, cw, sw) => SendKeepsInv(a, m, cw, sw);
    case ReceiveCalled(ad, f, l, cw, rw) => ReceiveKeepsInv(a, ad, f, l, cw, rw);
    case _ =>
  }

  lemma {:induction false} RunKeepsInv(a: Adapter, t: seq<Event>)
    requires Inv(a)
    ensures Inv(Run(a, t))
    decreases |t|
  {
    if t != [] {
      StepKeepsInv(a, t[0]);
      RunKeepsInv(Step(a, t[0]), t[1..]);
    }
  }

  /** From construction, every sequence of events keeps the invariant; in
      particular connected() never reports Connected before a connection
      opened. */
  lemma ReachableInv(url: string, t: seq<Event>)
    ensures Inv(Run(Initial(url), t))
    ensures Run(Initial(url), t).state != Connecting
    ensures Run(Initial(url), t).state == Connected ==> Run(Initial(url), t).hasConnection
  {
    RunKeepsInv(Initial(url), t);
  }

  /** Running two sequences one after the other is running their concatenation. */
  lemma {:induction false} RunAppend(a: Adapter, s: seq<Event>, t: seq<Event>)
    ensures Run(a, s + t) == Run(Run(a, s), t)
    decreases |s|
  {
    if s != [] {
      assert (s + t)[0] == s[0];
      assert (s + t)[1..] == s[1..] + t;
      RunAppend(Step(a, s[0]), s[1..], t);
    } else {
      assert s + t == t;
    }
  }

  /** The work queue and the proton calls are only ever appended to. */
  lemma {:induction false} RunOnlyAppends(a: Adapter, t: seq<Event>)
    ensures a.workQueue <= Run(a, t).workQueue
    ensures a.effects <= Run(a, t).effects
    decreases |t|
  {
    if t != [] {
      RunOnlyAppends(Step(a, t[0]), t[1..]);
    }
  }

  /** Connected, ConnectFailed and Connecting are kept by every event but a
      transport error: connected() returns them unchanged and nothing else
      writes the state. */
  lemma StepKeepsResolvedState(a: Adapter, e: Event)
    requires !NeedsResolution(a.state) && !e.TransportFailed?
    ensures Step(a, e).state == a.state
  {
  }

  lemma {:induction false} RunKeepsResolvedState(a: Adapter, t: seq<Event>)
    requires !NeedsResolution(a.state)
    requires forall i :: 0 <= i < |t| ==> !t[i].TransportFailed?
    ensures Run(a, t).state == a.state
    decreases |t|
  {
    if t != [] {
      StepKeepsResolvedState(a, t[0]);
      assert forall i :: 0 <= i < |t[1..]| ==> !t[1..][i].TransportFailed? by {
        forall i | 0 <= i < |t[1..]| ensures !t[1..][i].TransportFailed? {
          assert t[1..][i] == t[i + 1];
        }
      }
      RunKeepsResolvedState(Step(a, t[0]), t[1..]);
    }
  }

  /** No sender or receiver open among the work items from index `from` on. */
  predicate OpensNothingFrom(q: seq<Work>, from: nat)
  {
    forall i :: from <= i < |q| ==> !q[i].OpenSender? && !q[i].OpenReceiver?
  }

  lemma StepAfterFailureOpensNothing(a: Adapter, e: Event)
    requires a.state == ConnectFailed && !e.TransportFailed?
    ensures Step(a, e).state == ConnectFailed
    ensures OpensNothingFrom(Step(a, e).workQueue, |a.workQueue|)
  {
    match e
    case ConnectedCalled(cw) => assert Step(a, e) == a;
    case SendCalled(m, cw, sw) => assert Step(a, e) == a;
    case ReceiveCalled(ad, f, l, cw, rw) => assert Step(a, e) == a;
    case _ =>
  }

  /** A failed connection stays failed until a transport error, and meanwhile
      every send and receive is rejected before it reaches the work queue. */
  lemma {:induction false} RunAfterFailureOpensNothing(a: Adapter, t: seq<Event>)
    requires a.state == ConnectFailed
    requires forall i :: 0 <= i < |t| ==> !t[i].TransportFailed?
    ensures Run(a, t).state == ConnectFailed
    ensures OpensNothingFrom(Run(a, t).workQueue, |a.workQueue|)
    decreases |t|
  {
    if t != [] {
      var b := Step(a, t[0]);
      StepAfterFailureOpensNothing(a, t[0]);
      assert forall i :: 0 <= i < |t[1..]| ==> !t[1..][i].TransportFailed? by {
        forall i | 0 <= i < |t[1..]| ensures !t[1..][i].TransportFailed? {
          assert t[1..][i] == t[i + 1];
        }
      }
      RunAfterFailureOpensNothing(b, t[1..]);
      RunOnlyAppends(b, t[1..]);
      var q := Run(b, t[1..]).workQueue;
      forall i | |a.workQueue| <= i < |q| ensures !q[i].OpenSender? && !q[i].OpenReceiver? {
        if i < |b.workQueue| {
          assert q[i] == b.workQueue[i];
        }
      }
    }
  }

  lemma StepAfterLossOpensNothing(a: Adapter, e: Event)
    requires a.state == Lost && a.connectFutureTaken && e != ConnectionOpened(true)
    ensures Step(a, e).state == Lost && Step(a, e).connectFutureTaken
    ensures OpensNothingFrom(Step(a, e).workQueue, |a.workQueue|)
  {
    match e
    case ConnectedCalled(cw) => assert Step(a, e) == a;
    case SendCalled(m, cw, sw) => assert Step(a, e) == a;
    case ReceiveCalled(ad, f, l, cw, rw) => assert Step(a, e) == a;
    case _ =>
  }

  /** Once the connection is lost after connected() took the connect signal's
      future, the state stays Lost until a reconnection replaces the signal,
      and meanwhile every connected(), send and receive throws before it
      reaches the work queue. */
  lemma {:induction false} RunAfterLossOpensNothing(a: Adapter, t: seq<Event>)
    requires a.state == Lost && a.connectFutureTaken
    requires forall i :: 0 <= i < |t| ==> t[i] != ConnectionOpened(true)
    ensures Run(a, t).state == Lost && Run(a, t).connectFutureTaken
    ensures OpensNothingFrom(Run(a, t).workQueue, |a.workQueue|)
    decreases |t|
  {
    if t != [] {
      var b := Step(a, t[0]);
      StepAfterLossOpensNothing(a, t[0]);
      assert forall i :: 0 <= i < |t[1..]| ==> t[1..][i] != ConnectionOpened(true) by {
        forall i | 0 <= i < |t[1..]| ensures t[1..][i] != ConnectionOpened(true) {
          assert t[1..][i] == t[i + 1];
        }
      }
      RunAfterLossOpensNothing(b, t[1..]);
      RunOnlyAppends(b, t[1..]);
      var q := Run(b, t[1..]).workQueue;
      forall i | |a.workQueue| <= i < |q| ensures !q[i].OpenSender? && !q[i].OpenReceiver? {
        if i < |b.workQueue| {
          assert q[i] == b.workQueue[i];
        }
      }
    }
  }

  function DispatchCount(q: seq<Work>): nat
  {
    if q == [] then 0 else DispatchCount(q[..|q| - 1]) + (if q[|q| - 1].Dispatch? then 1 else 0)
  }

  function AcceptCount(r: seq<Effect>): nat
  {
    if r == [] then 0 else AcceptCount(r[..|r| - 1]) + (if r[|r| - 1].DeliveryAccepted? then 1 else 0)
  }

  lemma DispatchCountAppend(q: seq<Work>, w: Work)
    ensures DispatchCount(q + [w]) == DispatchCount(q) + (if w.Dispatch? then 1 else 0)
  {
    assert (q + [w])[..|q|] == q;
  }

  lemma AcceptCountAppend(r: seq<Effect>, x: Effect)
    ensures AcceptCount(r + [x]) == AcceptCount(r) + (if x.DeliveryAccepted? then 1 else 0)
  {
    assert (r + [x])[..|r|] == r;
  }

  /** send makes no proton call and enqueues no dispatch. */
  lemma SendDispatchesNothing(a: Adapter, m: ProtonMessage, cw: ConnectWait, sw: Wait<()>)
    ensures Send(a, m, cw, sw).next.effects == a.effects
    ensures DispatchCount(Send(a, m, cw, sw).next.workQueue) == DispatchCount(a.workQueue)
  {
    if CheckConnected(a, cw).result == Done(Connected) {
      DispatchCountAppend(a.workQueue, OpenSender(m.to));
    }
  }

  /** receive makes no proton call and enqueues no dispatch. */
  lemma ReceiveDispatchesNothing(a: Adapter, ad: string, f: string, l: Option<Listener>, cw: ConnectWait, rw: Wait<()>)
    ensures Receive(a, ad, f, l, cw, rw).next.effects == a.effects
    ensures DispatchCount(Receive(a, ad, f, l, cw, rw).next.workQueue) == DispatchCount(a.workQueue)
  {
    if CheckConnected(a, cw).result == Done(Connected) {
      DispatchCountAppend(a.workQueue, OpenReceiver(ad));
    }
  }

  /** One event dispatches at most as many messages as it accepts deliveries. */
  lemma StepDispatchesOnlyAccepted(a: Adapter, e: Event)
    ensures DispatchCount(Step(a, e).workQueue) - DispatchCount(a.workQueue)
         <= AcceptCount(Step(a, e).effects) - AcceptCount(a.effects)
  {
    var b := Step(a, e);
    match e
    case ContainerStarted(t) =>
      if !t { AcceptCountAppend(a.effects, ConnectRequested(a.url)); }
    case SenderOpened =>
      AcceptCountAppend(a.effects, Transmitted(a.message));
    case MessageArrived(m) =>
      AcceptCountAppend(a.effects, DeliveryAccepted(m));
      if Route(a.hasConnection, a.subscription, m).Some? {
        DispatchCountAppend(a.workQueue, Dispatch(a.subscription.listener.value, m));
      }
    case SendCalled(m, cw, sw) =>
      SendDispatchesNothing(a, m, cw, sw);
    case ReceiveCalled(ad, f, l, cw, rw) =>
      ReceiveDispatchesNothing(a, ad, f, l, cw, rw);
    case UnreceiveCalled(ra, w) =>
      if a.hasReceiver && ra { DispatchCountAppend(a.workQueue, CloseReceiver); }
    case CloseCalled(ra, w, ca) =>
      if a.hasReceiver && ra { DispatchCountAppend(a.workQueue, CloseReceiver); }
      var u := Unreceive(a, ra, w);
      if a.hasConnection && ca { AcceptCountAppend(u.next.effects, ConnectionClosed); }
    case _ =>
  }

  /** Over any sequence of events, no more messages are dispatched to listeners
      than deliveries are accepted. */
  lemma {:induction false} RunDispatchesOnlyAccepted(a: Adapter, t: seq<Event>)
    ensures DispatchCount(Run(a, t).workQueue) - DispatchCount(a.workQueue)
         <= AcceptCount(Run(a, t).effects) - AcceptCount(a.effects)
    decreases |t|
  {
    if t != [] {
      StepDispatchesOnlyAccepted(a, t[0]);
      RunDispatchesOnlyAccepted(Step(a, t[0]), t[1..]);
    }
  }

  /** Connect, subscribe to a topic, and let a message addressed to that topic
      arrive: it is dispatched exactly once, to the subscribed listener. The
      connect wait of the receive does not matter, because the connect signal
      already holds Connected. */
  lemma TopicDeliveredOnce(url: string, l: Listener, body: string, cw: ConnectWait)
    ensures var m := ProtonMessage("/topicTest", "/topicTest", None, "", body);
      Run(Initial(url), [ContainerStarted(false), ConnectionOpened(false),
                         ReceiveCalled("/topicTest", "", Some(l), cw, Arrived(())),
                         ReceiverOpened, MessageArrived(m)]).workQueue
      == [OpenReceiver("/topicTest"), Dispatch(l, m)]
  {
    var m := ProtonMessage("/topicTest", "/topicTest", None, "", body);
    var a1 := OnContainerStart(Initial(url), false);
    var a2 := OnConnectionOpen(a1, false);
    var a3 := Receive(a2, "/topicTest", "", Some(l), cw, Arrived(())).next;
    assert a3.subscription == Subscription("/topicTest", Some(l)) && a3.hasConnection;
    var a4 := OnReceiverOpen(a3);
    var a5 := OnMessage(a4, m);
    assert a5.workQueue == [OpenReceiver("/topicTest"), Dispatch(l, m)];
    assert Run(a4, [MessageArrived(m)]) == a5;
    assert Run(a3, [ReceiverOpened, MessageArrived(m)]) == a5;
    assert Run(a2, [ReceiveCalled("/topicTest", "", Some(l), cw, Arrived(())), ReceiverOpened, MessageArrived(m)]) == a5;
    assert Run(a1, [ConnectionOpened(false), ReceiveCalled("/topicTest", "", Some(l), cw, Arrived(())),
                    ReceiverOpened, MessageArrived(m)]) == a5;
  }

  /** A caller waiting for a reply subscribes on the reply queue with the
      request's correlation id as filter: the reply (that id, no reply-to) is
      dispatched to it, while a message on the same queue with another
      correlation id, even one set to the empty string, is dropped. */
  lemma ReplyRoutedByFilter(url: string, l: Listener, id: string, other: string, body: string)
    requires id != "" && other != id
    ensures var reply := ProtonMessage("/replyQueue", "/replyQueue", Some(id), "", body);
      var stray := ProtonMessage("/replyQueue", "/replyQueue", Some(other), "", body);
      var a := Run(Initial(url), [ContainerStarted(false), ConnectionOpened(false),
                                 ReceiveCalled("/replyQueue", id, Some(l), TimedOut, Arrived(())), ReceiverOpened]);
      && OnMessage(a, reply).workQueue == a.workQueue + [Dispatch(l, reply)]
      && OnMessage(a, stray).workQueue == a.workQueue
  {
    var a1 := OnContainerStart(Initial(url), false);
    var a2 := OnConnectionOpen(a1, false);
    var a3 := Receive(a2, "/replyQueue", id, Some(l), TimedOut, Arrived(())).next;
    assert a3.subscription == Subscription(id, Some(l)) && a3.hasConnection;
    var a4 := OnReceiverOpen(a3);
    assert Run(a3, [ReceiverOpened]) == a4;
    assert Run(a2, [ReceiveCalled("/replyQueue", id, Some(l), TimedOut, Arrived(())), ReceiverOpened]) == a4;
    assert Run(a1, [ConnectionOpened(false), ReceiveCalled("/replyQueue", id, Some(l), TimedOut, Arrived(())), ReceiverOpened]) == a4;
  }

  /** The first connected() blocks until the connection opens: it then
      reports Connected with the connection recorded, and a send that follows
      enqueues its sender open. */
  lemma FirstConnectWaitsForOpen(url: string, msg: ProtonMessage, cw: ConnectWait, sw: Wait<()>)
    ensures var a := Run(Initial(url), [ContainerStarted(false), ConnectedCalled(Opened(false))]);
      && a.state == Connected && a.hasConnection
      && Send(a, msg, cw, sw).next.workQueue == [OpenSender(msg.to)]
  {
    var a1 := OnContainerStart(Initial(url), false);
    var a2 := CheckConnected(a1, Opened(false)).next;
    assert Run(a1, [ConnectedCalled(Opened(false))]) == a2;
  }

  /** The events up to a lost connection: the container starts, the
      connection opens, connected() reads Connected off the fulfilled connect
      signal, and the transport fails. */
  function LossPrefix(): seq<Event>
  {
    [ContainerStarted(false), ConnectionOpened(false), ConnectedCalled(TimedOut), TransportFailed]
  }

  /** Those events leave the adapter Lost, with the connect signal's future
      taken and nothing enqueued. */
  lemma LossPrefixLoses(url: string)
    ensures var a := Run(Initial(url), LossPrefix());
      a.state == Lost && a.connectFutureTaken && a.workQueue == []
  {
    var a1 := OnContainerStart(Initial(url), false);
    var a2 := OnConnectionOpen(a1, false);
    var a3 := CheckConnected(a2, TimedOut).next;
    var a4 := OnTransportError(a3);
    assert Run(a3, [TransportFailed]) == a4;
    assert Run(a2, [ConnectedCalled(TimedOut), TransportFailed]) == a4;
    assert Run(a1, [ConnectionOpened(false), ConnectedCalled(TimedOut), TransportFailed]) == a4;
  }

  /** After that loss, a send throws out of connected() with nothing stored
      or enqueued. */
  lemma LostConnectionThrows(url: string, msg: ProtonMessage, cw: ConnectWait, sw: Wait<()>)
    ensures var a := Run(Initial(url), LossPrefix());
      a.state == Lost && Send(a, msg, cw, sw) == Stepped(a, FutureError)
  {
    LossPrefixLoses(url);
  }

  /** After that loss and until a reconnection, every further event leaves
      the state Lost and opens no sender and no receiver. */
  lemma LostConnectionStaysLost(url: string, t: seq<Event>)
    requires forall i :: 0 <= i < |t| ==> t[i] != ConnectionOpened(true)
    ensures Run(Initial(url), LossPrefix() + t).state == Lost
    ensures OpensNothingFrom(Run(Initial(url), LossPrefix() + t).workQueue, 0)
  {
    LossPrefixLoses(url);
    RunAppend(Initial(url), LossPrefix(), t);
    RunAfterLossOpensNothing(Run(Initial(url), LossPrefix()), t);
  }
}
