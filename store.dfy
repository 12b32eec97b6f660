/**
 * The redux store as the core sees it: `getState()` and a synchronous
 * `dispatch(action)` that replaces the state by the reducer's result.
 */
module Store {
  import opened State
  import opened Reducer
  import A = Actions

  class SpotifyStore {
    var state: SpotifyState
    /** Every action dispatched so far, in order. */
    var dispatched: seq<A.Action>

    constructor (initial: SpotifyState)
      ensures state == initial && dispatched == []
    {
      state := initial;
      dispatched := [];
    }

    method Dispatch(a: A.Action)
      modifies this
      ensures state == RootReducer(old(state), a)
      ensures dispatched == old(dispatched) + [a]
    {
      state := RootReducer(state, a);
      dispatched := dispatched + [a];
    }
  }
}
