/**
 * Obtaining the remote-API handle (src/auth/api/api.ts). `getSpotifyWebApi`
 * reads the store and, when logged in and focused but without a cached
 * handle, creates one and dispatches SAVE_API; `withApi` runs a function on
 * the handle or warns. The editor's focus flag and the handle the remote
 * library would create are parameters.
 */
module Api {
  import opened Wrappers
  import opened State
  import opened Reducer
  import opened Store
  import A = Actions

  const LOGIN_WARNING: string := "You should be logged in order to use this feature."

  /** What `getSpotifyWebApi` returns and what it dispatches meanwhile. */
  datatype ApiLookup = ApiLookup(returned: Option<ApiHandle>, dispatched: seq<A.Action>)

  /** The handle `getSpotifyWebApi` returns in state `s`: the cached one, when logged in and focused. */
  function HandleOf(s: SpotifyState, focused: bool): Option<ApiHandle>
  {
    if s.loginState.Some? && focused then s.api else None
  }

  function LookupApi(s: SpotifyState, focused: bool, created: ApiHandle): (r: ApiLookup)
    ensures r.returned == HandleOf(s, focused)
    ensures r.returned.Some? ==> r.dispatched == []
    ensures s.loginState.None? ==> r == ApiLookup(None, [])
    ensures !focused ==> r == ApiLookup(None, [])
    ensures s.loginState.Some? && focused ==> r.returned == s.api
    ensures r.dispatched != [] <==> s.loginState.Some? && focused && s.api.None?
    ensures r.dispatched != [] ==> r.dispatched == [A.SaveApi(created)]
  {
    if s.loginState.None? then ApiLookup(None, [])
    else if !focused then ApiLookup(None, [])
    else if s.api.None? then ApiLookup(s.api, [A.SaveApi(created)])
    else ApiLookup(s.api, [])
  }

  /** `getSpotifyWebApi(store, ...)`: the lookup, with its dispatch applied to the store. */
  method GetSpotifyWebApi(store: SpotifyStore, focused: bool, created: ApiHandle) returns (api: Option<ApiHandle>)
    modifies store
    ensures api == LookupApi(old(store.state), focused, created).returned
    ensures store.dispatched == old(store.dispatched) + LookupApi(old(store.state), focused, created).dispatched
    ensures store.state == ReduceAll(old(store.state), LookupApi(old(store.state), focused, created).dispatched)
  {
    var s := store.state;
    if s.loginState.None? {
      return None;
    }
    if !focused {
      return None;
    }
    if s.api.None? {
      store.Dispatch(A.SaveApi(created));
    }
    api := s.api;
  }

  /**
   * The first lookup that finds no cached handle still returns undefined; the
   * handle it saved is what the next lookup returns, without a new dispatch.
   */
  lemma {:induction false} HandleServedOnNextCall(s: SpotifyState, created: ApiHandle, other: ApiHandle)
    requires s.loginState.Some? && s.api.None?
    ensures LookupApi(s, true, created).returned == None
    ensures var s' := ReduceAll(s, LookupApi(s, true, created).dispatched);
      LookupApi(s', true, other) == ApiLookup(Some(created), [])
  {
    var save := [A.SaveApi(created)];
    assert save[1..] == [];
    assert ReduceAll(s, save) == RootReducer(s, A.SaveApi(created));
    ReduceSelections(s, DUMMY_PLAYLIST, Track(TrackItem("", Album(""), [], 0)), created);
  }

  /** The token-refresh callback given to the handle: a new access token, the captured refresh token. */
  function RefreshCallback(login: LoginState, newToken: string): (a: A.Action)
    ensures a.SignInSuccessAction?
    ensures a.credentials == A.SignInSuccessPayload(newToken, login.refreshToken)
  {
    A.SignInSuccess(newToken, login.refreshToken)
  }

  /** A refresh keeps the cached handle and the refresh token, replacing the access token. */
  lemma RefreshKeepsHandle(s: SpotifyState, login: LoginState, newToken: string)
    ensures var r := RootReducer(s, RefreshCallback(login, newToken));
      r.loginState == Some(LoginState(newToken, login.refreshToken)) && r.api == s.api
  {
  }

  /** `withApi(getter, func)`: the function's result and the warnings shown. */
  datatype Guarded<T> = Guarded(result: Option<T>, warnings: seq<string>)

  function WithApi<T>(api: Option<ApiHandle>, func: ApiHandle -> T): (g: Guarded<T>)
    ensures api.Some? ==> g == Guarded(Some(func(api.value)), [])
    ensures api.None? ==> g == Guarded(None, [LOGIN_WARNING])
  {
    if api.Some? then Guarded(Some(func(api.value)), [])
    else Guarded(None, [LOGIN_WARNING])
  }
}
