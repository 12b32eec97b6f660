/**
 * `createCancelablePromise` (src/utils/utils.ts): a promise whose first
 * settlement wins, plus a `cancel` handle that rejects it with the
 * CANCELED_REASON sentinel.
 */
module CancelablePromises {
  import opened Consts

  datatype Settlement<T> = Pending | Resolved(value: T) | Rejected(reason: Reason)

  /** A call that tries to settle the promise. */
  datatype SettleCall<T> = ResolveCall(value: T) | RejectCall(reason: Reason) | CancelCall

  /** The effect of one settle call: a settled promise ignores it, a pending one takes it. */
  function Settle<T>(o: Settlement<T>, c: SettleCall<T>): (r: Settlement<T>)
    ensures !o.Pending? ==> r == o
    ensures o.Pending? ==> !r.Pending?
    ensures o.Pending? && c.ResolveCall? ==> r == Resolved(c.value)
    ensures o.Pending? && c.RejectCall? ==> r == Rejected(c.reason)
    ensures o.Pending? && c.CancelCall? ==> r == Rejected(CANCELED_REASON)
  {
    if !o.Pending? then o
    else match c
      case ResolveCall(v) => Resolved(v)
      case RejectCall(e) => Rejected(e)
      case CancelCall => Rejected(CANCELED_REASON)
  }

  /** The outcome after a sequence of settle calls. */
  function SettleAll<T>(o: Settlement<T>, calls: seq<SettleCall<T>>): Settlement<T>
    decreases |calls|
  {
    if calls == [] then o else SettleAll(Settle(o, calls[0]), calls[1..])
  }

  /** Once settled, no further resolve, reject or cancel changes the outcome. */
  lemma {:induction false} SettledIsFinal<T>(o: Settlement<T>, calls: seq<SettleCall<T>>)
    requires !o.Pending?
    ensures SettleAll(o, calls) == o
    decreases |calls|
  {
    if calls != [] {
      SettledIsFinal(Settle(o, calls[0]), calls[1..]);
    }
  }

  /** From pending, the outcome is decided by the first call alone. */
  lemma {:induction false} FirstSettlementWins<T>(calls: seq<SettleCall<T>>)
    requires calls != []
    ensures SettleAll(Pending, calls) == Settle(Pending, calls[0])
  {
    SettledIsFinal(Settle(Pending, calls[0]), calls[1..]);
  }

  /** A cancel on a pending promise rejects it with the sentinel, whatever comes after. */
  lemma CancelPendingRejects<T>(rest: seq<SettleCall<T>>)
    ensures SettleAll(Pending, [CancelCall] + rest) == Rejected(CANCELED_REASON)
  {
    FirstSettlementWins([CancelCall] + rest);
  }

  /** The promise together with its `cancel` handle. */
  class CancelablePromise<T> {
    var outcome: Settlement<T>

    /**
     * `createCancelablePromise(executor)`: the executor runs synchronously
     * during creation; `executorCalls` are the resolve / reject calls it makes
     * before returning (it is not given the cancel handle).
     */
    constructor (executorCalls: seq<SettleCall<T>>)
      requires forall i :: 0 <= i < |executorCalls| ==> !executorCalls[i].CancelCall?
      ensures outcome == SettleAll(Pending, executorCalls)
    {
      outcome := SettleAll(Pending, executorCalls);
    }

    method Resolve(v: T)
      modifies this
      ensures outcome == Settle(old(outcome), ResolveCall(v))
      ensures old(outcome).Pending? ==> outcome == Resolved(v)
    {
      outcome := Settle(outcome, ResolveCall(v));
    }

    method Reject(reason: Reason)
      modifies this
      ensures outcome == Settle(old(outcome), RejectCall(reason))
      ensures old(outcome).Pending? ==> outcome == Rejected(reason)
    {
      outcome := Settle(outcome, RejectCall(reason));
    }

    /** The `cancel` handle: `reject(CANCELED_REASON)`. */
    method Cancel()
      modifies this
      ensures old(outcome).Pending? ==> outcome == Rejected(CANCELED_REASON)
      ensures !old(outcome).Pending? ==> outcome == old(outcome)
    {
      outcome := Settle(outcome, CancelCall);
    }
  }
}
