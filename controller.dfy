/**
 * `SpotifyStatusController` (src/spotify-status-controller.ts): owns the one
 * active poll session, counts consecutive failed sessions, pushes a degraded
 * snapshot after five of them, and re-arms the poll after every failure that
 * is not a cancellation. Timer firings are explicit steps: an armed
 * `setTimeout` is an entry of `timers` until `FireTimer` runs it.
 */
module StatusController {
  import opened Wrappers
  import opened Consts
  import opened State
  import opened Utils
  import opened Reducer
  import opened Store
  import opened Selector
  import opened CancelablePromises
  import opened PollSessions
  import opened SpotifyClients
  import A = Actions

  /** How many sequential errors hide the player state. */
  const MAX_RETRY_COUNT: nat := 5

  /** The update pushed after MAX_RETRY_COUNT failures: not running, zeroed player and track. */
  const DEGRADED_PATCH: StatePatch := EMPTY_PATCH.(
    playerState := Some(PlayerState(Paused, 0, Some(0), false, false)),
    track := Some(TrackInfo("", "", "")),
    isRunning := Some(false))

  /** The new counter, what is dispatched, and whether a new query is scheduled. */
  datatype RetryStep = RetryStep(count: nat, dispatch: seq<A.Action>, reschedule: bool)

  /** The success callback: the status is dispatched and the counter reset. */
  function OnDelivered(status: StatePatch): (r: RetryStep)
    ensures r.count == 0 && r.dispatch == [A.UpdateState(status)] && !r.reschedule
  {
    RetryStep(0, [A.UpdateState(status)], false)
  }

  /** `clearState(reason, pollStatus)`. */
  function OnRejection(count: nat, reason: Reason): (r: RetryStep)
    ensures count < MAX_RETRY_COUNT ==> r.count < MAX_RETRY_COUNT
    ensures reason == CANCELED_REASON ==> r == RetryStep(count, [], false)
    ensures reason != CANCELED_REASON ==> r.reschedule
    ensures reason != CANCELED_REASON ==> (r.dispatch != [] <==> count + 1 >= MAX_RETRY_COUNT)
    ensures r.dispatch != [] ==> r.count == 0 && r.dispatch == [A.UpdateState(DEGRADED_PATCH)]
  {
    if reason == CANCELED_REASON then RetryStep(count, [], false)
    else if count + 1 >= MAX_RETRY_COUNT then RetryStep(0, [A.UpdateState(DEGRADED_PATCH)], true)
    else RetryStep(count + 1, [], true)
  }

  /** What a poll session reports to the controller. */
  datatype PollEvent = Delivered(status: StatePatch) | Failed(reason: Reason)

  function Step(count: nat, e: PollEvent): RetryStep
  {
    match e
    case Delivered(status) => OnDelivered(status)
    case Failed(reason) => OnRejection(count, reason)
  }

  /** The counter, every dispatch and the number of re-armed queries after a run of events. */
  datatype RunResult = RunResult(count: nat, dispatched: seq<A.Action>, retries: nat)

  function Run(count: nat, events: seq<PollEvent>): RunResult
    decreases |events|
  {
    if events == [] then RunResult(count, [], 0)
    else
      var st := Step(count, events[0]);
      var rest := Run(st.count, events[1..]);
      RunResult(rest.count, st.dispatch + rest.dispatched, (if st.reschedule then 1 else 0) + rest.retries)
  }

  /** n degraded snapshots in a row. */
  function Degradations(n: nat): seq<A.Action>
  {
    if n == 0 then [] else [A.UpdateState(DEGRADED_PATCH)] + Degradations(n - 1)
  }

  predicate AllFailures(events: seq<PollEvent>)
  {
    forall i :: 0 <= i < |events| ==> events[i].Failed? && events[i].reason != CANCELED_REASON
  }

  /**
   * n consecutive failures from counter c: the counter ends at (c + n) mod 5,
   * one degraded snapshot is dispatched for every fifth failure, and every
   * failure re-arms the poll.
   */
  lemma {:induction false} ConsecutiveFailures(count: nat, events: seq<PollEvent>)
    requires count < MAX_RETRY_COUNT && AllFailures(events)
    ensures Run(count, events)
      == RunResult((count + |events|) % MAX_RETRY_COUNT, Degradations((count + |events|) / MAX_RETRY_COUNT), |events|)
    decreases |events|
  {
    if events != [] {
      var st := Step(count, events[0]);
      assert AllFailures(events[1..]) by {
        forall i | 0 <= i < |events[1..]| ensures events[1..][i] == events[i + 1] { }
      }
      ConsecutiveFailures(st.count, events[1..]);
      var n := |events| - 1;
      if count + 1 >= MAX_RETRY_COUNT {
        assert count == 4 && st.count == 0;
        assert (count + |events|) / MAX_RETRY_COUNT == n / MAX_RETRY_COUNT + 1;
        assert (count + |events|) % MAX_RETRY_COUNT == n % MAX_RETRY_COUNT;
      } else {
        assert st.count == count + 1 && st.dispatch == [];
      }
    }
  }

  /** Four failures never degrade; the fifth does, once, and the counter is back at 0. */
  lemma FiveFailuresDegradeOnce(events: seq<PollEvent>)
    requires |events| == 5 && AllFailures(events)
    ensures Run(0, events[..4]) == RunResult(4, [], 4)
    ensures Run(0, events) == RunResult(0, [A.UpdateState(DEGRADED_PATCH)], 5)
  {
    assert AllFailures(events[..4]);
    ConsecutiveFailures(0, events[..4]);
    ConsecutiveFailures(0, events);
  }

  /** Cancellations leave the counter alone, dispatch nothing and re-arm nothing. */
  lemma {:induction false} CancellationsIgnored(count: nat, events: seq<PollEvent>)
    requires forall i :: 0 <= i < |events| ==> events[i] == Failed(CANCELED_REASON)
    ensures Run(count, events) == RunResult(count, [], 0)
    decreases |events|
  {
    if events != [] {
      CancellationsIgnored(count, events[1..]);
    }
  }

  /** Run over a concatenation: the second part starts from the first part's counter. */
  lemma {:induction false} RunAppend(count: nat, xs: seq<PollEvent>, ys: seq<PollEvent>)
    ensures var a := Run(count, xs); var b := Run(a.count, ys);
      Run(count, xs + ys) == RunResult(b.count, a.dispatched + b.dispatched, a.retries + b.retries)
    decreases |xs|
  {
    if xs == [] {
      assert xs + ys == ys;
    } else {
      assert (xs + ys)[0] == xs[0] && (xs + ys)[1..] == xs[1..] + ys;
      RunAppend(Step(count, xs[0]).count, xs[1..], ys);
    }
  }

  /** A delivered status before the fifth failure resets the counter and nothing degrades. */
  lemma SuccessBeforeFifthFailure(count: nat, failures: seq<PollEvent>, status: StatePatch)
    requires AllFailures(failures) && count + |failures| < MAX_RETRY_COUNT
    ensures Run(count, failures + [Delivered(status)]) == RunResult(0, [A.UpdateState(status)], |failures|)
  {
    ConsecutiveFailures(count, failures);
    RunAppend(count, failures, [Delivered(status)]);
  }

  /** The degraded snapshot: not running, paused at 0, muted, empty track; nothing else touched. */
  lemma DegradedSnapshot(s: SpotifyState)
    ensures var r := RootReducer(s, A.UpdateState(DEGRADED_PATCH));
      && !r.isRunning && IsMuted(r)
      && r.playerState == PlayerState(Paused, 0, Some(0), false, false)
      && r.track == TrackInfo("", "", "")
      && OnlyChanges(s, r, {IsRunningField, PlayerStateField, TrackField})
  {
  }

  /** A `setTimeout(() => this.queryStatus(pollStatus), interval)` that has not fired yet. */
  datatype Timer = Timer(poll: ClientKind, delayMs: int)

  class SpotifyStatusController {
    const store: SpotifyStore
    const maxRetryCount: nat
    var retryCount: nat
    /** The active session; its `Cancel` is the stored `_cancelCb`. */
    var cancelCb: PollSession?
    var timers: seq<Timer>

    ghost function Session(): set<object>
      reads this
    {
      if cancelCb == null then {} else {cancelCb, cancelCb.promise}
    }

    ghost predicate Valid()
      reads this, Session()
    {
      && maxRetryCount == MAX_RETRY_COUNT
      && retryCount < maxRetryCount
      && (cancelCb != null ==> cancelCb.Valid())
    }

    constructor (store: SpotifyStore)
      ensures Valid() && this.store == store
      ensures retryCount == 0 && cancelCb == null && timers == []
    {
      this.store := store;
      maxRetryCount := MAX_RETRY_COUNT;
      retryCount := 0;
      cancelCb := null;
      timers := [];
    }

    /** `_cancelPreviousPoll`: cancel the stored session, if any. */
    method CancelPreviousPoll()
      requires Valid()
      modifies Session()
      ensures Valid()
      ensures cancelCb != null ==> cancelCb.canceled
      ensures cancelCb != null ==> cancelCb.promise.outcome == Settle(old(cancelCb.promise.outcome), CancelCall)
    {
      if cancelCb != null {
        cancelCb.Cancel();
      }
    }

    /** `queryStatus(pollStatus)`: cancel the previous session, then start and store a new one. */
    method QueryStatus(poll: ClientKind) returns (session: PollSession)
      requires Valid()
      modifies this, Session()
      ensures Valid() && cancelCb == session
      ensures fresh(session) && fresh(session.promise) && session.poll == poll
      ensures session.promise.outcome == Pending && !session.canceled
      ensures old(cancelCb) != null ==> old(cancelCb).canceled
      ensures old(cancelCb) != null ==>
        old(cancelCb).promise.outcome == Settle(old(cancelCb.promise.outcome), CancelCall)
      ensures retryCount == old(retryCount) && timers == old(timers)
    {
      CancelPreviousPoll();
      session := new PollSession(poll);
      cancelCb := session;
    }

    /** The status callback given to `pollStatus`. */
    method OnStatus(status: StatePatch)
      requires Valid()
      modifies this`retryCount, store
      ensures Valid() && retryCount == OnDelivered(status).count
      ensures store.dispatched == old(store.dispatched) + OnDelivered(status).dispatch
      ensures store.state == RootReducer(old(store.state), A.UpdateState(status))
    {
      store.Dispatch(A.UpdateState(status));
      retryCount := 0;
    }

    /** `clearState(reason, pollStatus)`: the rejection handler of a session started by `poll`. */
    method ClearState(reason: Reason, poll: ClientKind, intervalMs: int)
      requires Valid()
      modifies this`retryCount, this`timers, store
      ensures Valid()
      ensures retryCount == OnRejection(old(retryCount), reason).count
      ensures store.dispatched == old(store.dispatched) + OnRejection(old(retryCount), reason).dispatch
      ensures store.state == ReduceAll(old(store.state), OnRejection(old(retryCount), reason).dispatch)
      ensures timers == old(timers) + (if OnRejection(old(retryCount), reason).reschedule
                                       then [Timer(poll, intervalMs)] else [])
    {
      if reason != CANCELED_REASON {
        retryCount := retryCount + 1;
        if retryCount >= maxRetryCount {
          var degraded := A.UpdateState(DEGRADED_PATCH);
          store.Dispatch(degraded);
          assert [degraded][1..] == [];
          retryCount := 0;
        }
        timers := timers + [Timer(poll, intervalMs)];
      }
    }

    /** An armed timer fires: `queryStatus(pollStatus)` for the client that armed it. */
    method FireTimer(i: nat) returns (session: PollSession)
      requires Valid() && i < |timers|
      modifies this, Session()
      ensures Valid() && cancelCb == session
      ensures fresh(session) && session.poll == old(timers[i].poll) && session.promise.outcome == Pending
      ensures old(cancelCb) != null ==> old(cancelCb).canceled
      ensures timers == old(timers[..i] + timers[i + 1..])
      ensures retryCount == old(retryCount)
    {
      var t := timers[i];
      timers := timers[..i] + timers[i + 1..];
      session := QueryStatus(t.poll);
    }

    /** `dispose()`: cancel the active session. Timers already armed stay armed. */
    method Dispose()
      requires Valid()
      modifies Session()
      ensures Valid()
      ensures cancelCb != null ==> cancelCb.canceled
      ensures cancelCb != null ==> cancelCb.promise.outcome == Settle(old(cancelCb.promise.outcome), CancelCall)
      ensures retryCount == old(retryCount) && timers == old(timers)
    {
      CancelPreviousPoll();
    }
  }

  /** A session superseded by a new query rejects with the sentinel, which the controller ignores. */
  method SupersededSessionIsIgnored(c: SpotifyStatusController, intervalMs: int)
    returns (first: PollSession, second: PollSession)
    requires c.Valid()
    modifies c, c.Session(), c.store
    ensures c.Valid() && c.cancelCb == second && second.promise.outcome == Pending
    ensures first.promise.outcome == Rejected(CANCELED_REASON)
    ensures c.retryCount == old(c.retryCount) && c.timers == old(c.timers)
    ensures c.store.dispatched == old(c.store.dispatched) && c.store.state == old(c.store.state)
  {
    first := c.QueryStatus(WebApiClient);
    second := c.QueryStatus(WebApiClient);
    c.ClearState(first.promise.outcome.reason, first.poll, intervalMs);
    assert c.store.state == ReduceAll(old(c.store.state), []);
  }

  /** Five failed sessions in a row from a fresh controller: exactly one degraded snapshot. */
  method FiveFailuresScenario(store: SpotifyStore, intervalMs: int) returns (c: SpotifyStatusController)
    modifies store
    ensures c.Valid() && c.store == store && c.retryCount == 0
    ensures c.timers == seq(5, i => Timer(OsxClient, intervalMs))
    ensures store.dispatched == old(store.dispatched) + [A.UpdateState(DEGRADED_PATCH)]
  {
    c := new SpotifyStatusController(store);
    c.ClearState(NOT_RUNNING_REASON, OsxClient, intervalMs);
    c.ClearState(NOT_RUNNING_REASON, OsxClient, intervalMs);
    c.ClearState(Failure("network"), OsxClient, intervalMs);
    c.ClearState(NOT_RUNNING_REASON, OsxClient, intervalMs);
    assert c.retryCount == 4 && store.dispatched == old(store.dispatched);
    c.ClearState(Failure("network"), OsxClient, intervalMs);
  }
}
