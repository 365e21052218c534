/** The part of a promise library's deferred that the client relies on: a
    cell that is pending until it is settled, and settles at most once. */
module Promises {

  datatype Settlement<+V, +R> = Pending | Fulfilled(value: V) | Rejected(reason: R)

  /** Settling an already settled cell is ignored: the first outcome wins. */
  function Settle<V, R>(current: Settlement<V, R>, outcome: Settlement<V, R>): (r: Settlement<V, R>)
    requires !outcome.Pending?
    ensures !r.Pending?
    ensures current.Pending? ==> r == outcome
    ensures !current.Pending? ==> r == current
  {
    if current.Pending? then outcome else current
  }

  /** Repeating a settlement, or following it with another, gives the first. */
  lemma SettleOnce<V, R>(current: Settlement<V, R>, first: Settlement<V, R>, second: Settlement<V, R>)
    requires !first.Pending? && !second.Pending?
    ensures Settle(Settle(current, first), second) == Settle(current, first)
  {
  }

  /** The deferred: its promise is the read-only view of `state`. */
  class Deferred<V, R> {
    var state: Settlement<V, R>

    constructor ()
      ensures state == Pending
    {
      state := Pending;
    }

    method Resolve(value: V)
      modifies this
      ensures state == Settle(old(state), Fulfilled(value))
    {
      if state.Pending? {
        state := Fulfilled(value);
      }
    }

    method Reject(reason: R)
      modifies this
      ensures state == Settle(old(state), Rejected(reason))
    {
      if state.Pending? {
        state := Rejected(reason);
      }
    }
  }
}
