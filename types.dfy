/** Values shared by the model of the AMQP client adapter: the communication and
    delivery states, and the promise cells through which the transport's driver
    thread reports back to a waiting caller. */
module Types {

  datatype Option<T> = None | Some(value: T)

  /** The message bus's communication state. */
  datatype ComState = Unknown | Connecting | Connected | ConnectFailed | Lost

  /** Outcome of one operation, returned to the caller and never stored. */
  datatype DeliveryState = Accepted | Rejected

  /** How a call of the adapter ends: it returns a value, or a std::future_error
      propagates out of it. */
  datatype Outcome<T> = Done(value: T) | FutureError

  /** A std::promise as the adapter uses it: a fresh promise is Pending until
      its first value is set. A void promise is a Signal<()>. */
  datatype Signal<T> = Pending | Fulfilled(value: T)

  /** What a wait of at most TIMEOUT on a sender or receiver promise that is
      still pending sees. The waiting thread does not decide this, so the
      caller supplies it: the value arrives in time, the promise object is
      replaced while waited on (its future then holds a broken-promise error
      and is ready), or the timeout expires. */
  datatype Wait<T> = Arrived(value: T) | Abandoned | Expired

  /** set_value: the first value wins. Setting a promise twice raises
      std::future_error in the source; here the second set leaves the cell as it is. */
  function Fulfil<T>(cell: Signal<T>, v: T): Signal<T>
  {
    if cell.Pending? then Fulfilled(v) else cell
  }

  /** wait_for on the promise's future: a promise that already holds a value is
      ready at once; otherwise the caller-supplied outcome decides. */
  function Observe<T>(cell: Signal<T>, w: Wait<T>): Wait<T>
  {
    if cell.Fulfilled? then Arrived(cell.value) else w
  }

  /** A wait that did not time out (std::future_status other than timeout)
      makes the operation Accepted. */
  function DeliveryOf<T>(w: Wait<T>): DeliveryState
  {
    if w.Expired? then Rejected else Accepted
  }
}
