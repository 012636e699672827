/** Call signals and the per-recipient mailbox the signal routes write to and
    drain. The mailbox lives in the unseen store; it is modelled as a map from
    the recipient key to the queue of pending signals, appended to on enqueue
    and emptied on drain. */
module Signals {
  import opened Json

  /** A signal as the store keeps it. Only `fromId` is set by the server; the
      other fields are whatever the sender's request body held. */
  datatype Signal = Signal(fromId: string, toId: Value, kind: Value, payload: Value, createdAt: int)

  type Mailbox = map<Value, seq<Signal>>

  /** The queue waiting for `key`; a recipient never written to has none. */
  function Pending(m: Mailbox, key: Value): seq<Signal> {
    if key in m then m[key] else []
  }

  /** `enqueueSignal`: the signal joins the end of its recipient's queue. */
  function Enqueue(m: Mailbox, s: Signal): (r: Mailbox)
    ensures Pending(r, s.toId) == Pending(m, s.toId) + [s]
    ensures forall k :: k != s.toId ==> Pending(r, k) == Pending(m, k)
  {
    m[s.toId := Pending(m, s.toId) + [s]]
  }

  /** `consumeSignals`: the whole queue for `key`, in arrival order; the
      queue is left empty and every other queue untouched. */
  function Drain(m: Mailbox, key: Value): (r: (seq<Signal>, Mailbox))
    ensures r.0 == Pending(m, key)
    ensures Pending(r.1, key) == []
    ensures forall k :: k != key ==> Pending(r.1, k) == Pending(m, k)
  {
    (Pending(m, key), m[key := []])
  }
}
