/**
 * Sentinel rejection reasons (src/consts/consts.ts).
 *
 * A promise in the extension can be rejected with a plain string (the two
 * sentinels, or the bridge's "Spotify isn't running") or with an Error object
 * carrying a message. The status controller compares a reason against the
 * sentinel with `!==`; on strings that is value equality, which is what `==`
 * on this datatype gives.
 */
module Consts {

  datatype Reason =
    | Text(text: string)          // a rejection with a bare string
    | Failure(message: string)    // a rejection with an Error object

  const CANCELED_REASON: Reason := Text("canceled")
  const NOT_RUNNING_REASON: Reason := Text("not_running")

  lemma {:induction false} SentinelsDistinct()
    ensures CANCELED_REASON != NOT_RUNNING_REASON
    ensures forall m :: Failure(m) != CANCELED_REASON && Failure(m) != NOT_RUNNING_REASON
  {
    assert CANCELED_REASON.text[0] != NOT_RUNNING_REASON.text[0];
  }
}
