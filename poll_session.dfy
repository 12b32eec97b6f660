/**
 * The polling session both playback clients build in `pollStatus`
 * (src/spotify/web-api-spotify-client.ts:91-151,
 * src/spotify/osx-spotify-client.ts:69-92): a cancelable promise that never
 * resolves, and a `canceled` flag that the rejection handler sets, which every
 * later tick checks before doing anything.
 */
module PollSessions {
  import opened Wrappers
  import opened Consts
  import opened State
  import opened CancelablePromises
  import opened SpotifyClients

  /** One run of `_poll`: the status handed to the callback, and whether `_poll` is scheduled again. */
  datatype Tick = Tick(delivered: Option<StatePatch>, reschedule: bool)

  class PollSession {
    /** The client whose `pollStatus` started this session. */
    const poll: ClientKind
    const promise: CancelablePromise<()>
    var canceled: bool

    /** The flag is set exactly when the promise has been rejected; a poll promise never resolves. */
    ghost predicate Valid()
      reads this, promise
    {
      canceled == promise.outcome.Rejected? && !promise.outcome.Resolved?
    }

    constructor (poll: ClientKind)
      ensures Valid() && fresh(promise) && this.poll == poll
      ensures promise.outcome == Pending && !canceled
    {
      this.poll := poll;
      promise := new CancelablePromise([]);
      canceled := false;
    }

    /** The executor's `reject(reason)`, followed by the rejection handler. */
    method Reject(reason: Reason)
      requires Valid()
      modifies this, promise
      ensures Valid()
      ensures promise.outcome == Settle(old(promise.outcome), RejectCall(reason))
    {
      promise.Reject(reason);
      canceled := promise.outcome.Rejected?;
    }

    /** The session's `cancel` handle, followed by the rejection handler. */
    method Cancel()
      requires Valid()
      modifies this, promise
      ensures Valid()
      ensures promise.outcome == Settle(old(promise.outcome), CancelCall)
      ensures old(promise.outcome).Pending? ==> canceled && promise.outcome == Rejected(CANCELED_REASON)
    {
      promise.Cancel();
      canceled := promise.outcome.Rejected?;
    }
  }
}
