/**
 * `rootReducer` (src/reducers/root-reducer.ts): the total, pure transition
 * function of the state store, written with the shallow merge `UpdateState`.
 */
module Reducer {
  import opened Wrappers
  import opened State
  import opened Utils
  import A = Actions

  /** The kinds the reducer has a case for; every other action falls to the identity case. */
  predicate HandledByReducer(a: A.Action)
  {
    a.UpdateStateAction? || a.SignInSuccessAction? || a.SignOutAction? || a.LoadPlaylistsSuccessAction?
    || a.SelectPlaylistAction? || a.SelectTrackAction? || a.LoadTracksSuccessAction? || a.SaveApiAction?
  }

  /** `updateState(state.loginState, {accessToken, refreshToken})`: both credential fields replaced. */
  function UpdateLogin(login: Option<LoginState>, c: A.SignInSuccessPayload): (r: LoginState)
    ensures r.accessToken == c.accessToken && r.refreshToken == c.refreshToken
  {
    LoginState(c.accessToken, c.refreshToken)
  }

  function RootReducer(s: SpotifyState, a: A.Action): (r: SpotifyState)
    ensures !HandledByReducer(a) ==> r == s
  {
    match a
    case UpdateStateAction(u) => UpdateState(s, u)
    case SignInSuccessAction(c) =>
      UpdateState(s, EMPTY_PATCH.(loginState := Some(Some(UpdateLogin(s.loginState, c)))))
    case SignOutAction => DEFAULT_STATE
    case LoadPlaylistsSuccessAction(ps) =>
      UpdateState(s, EMPTY_PATCH.(playlists := Some(if |ps| > 0 then ps else [DUMMY_PLAYLIST])))
    case SelectPlaylistAction(p) => UpdateState(s, EMPTY_PATCH.(selectedPlaylist := Some(Some(p))))
    case SelectTrackAction(t) => UpdateState(s, EMPTY_PATCH.(selectedTrack := Some(Some(t))))
    case LoadTracksSuccessAction(l) =>
      UpdateState(s, EMPTY_PATCH.(tracks := Some(s.tracks[l.playlist.id := l.tracks])))
    case SaveApiAction(h) => UpdateState(s, EMPTY_PATCH.(api := Some(Some(h))))
    case _ => s
  }

  /** An action outside the catalog leaves the state as it is. */
  lemma ReduceForeignIdentity(s: SpotifyState, tag: A.ForeignTag)
    ensures RootReducer(s, A.ForeignAction(tag)) == s
  {
  }

  /** UPDATE_STATE is a shallow merge: present fields replaced outright, absent ones kept. */
  lemma ReduceUpdateState(s: SpotifyState, u: StatePatch)
    ensures RootReducer(s, A.UpdateState(u)) == UpdateState(s, u)
    ensures var r := RootReducer(s, A.UpdateState(u));
      && (forall f: Field :: Present(u, f) ==> TakesFrom(r, u, f))
      && (forall f: Field :: !Present(u, f) ==> SameOn(r, s, f))
      && (u.playerState.Some? ==> r.playerState == u.playerState.value)
      && (u.track.Some? ==> r.track == u.track.value)
      && (u.isRunning.Some? ==> r.isRunning == u.isRunning.value)
      && (u.context.Some? ==> r.context == u.context.value)
  {
  }

  /** SIGN_IN_SUCCESS sets both tokens and nothing else. */
  lemma ReduceSignInSuccess(s: SpotifyState, accessToken: string, refreshToken: string)
    ensures var r := RootReducer(s, A.SignInSuccess(accessToken, refreshToken));
      && r.loginState == Some(LoginState(accessToken, refreshToken))
      && OnlyChanges(s, r, {LoginStateField})
  {
  }

  /** SIGN_OUT yields the default state from any state, so it is idempotent. */
  lemma ReduceSignOut(s: SpotifyState)
    ensures RootReducer(s, A.SignOut()) == DEFAULT_STATE
    ensures RootReducer(RootReducer(s, A.SignOut()), A.SignOut()) == RootReducer(s, A.SignOut())
  {
  }

  /** LOAD_PLAYLISTS_SUCCESS stores the list, or the placeholder alone for an empty list. */
  lemma ReduceLoadPlaylistsSuccess(s: SpotifyState, ps: seq<Playlist>)
    ensures var r := RootReducer(s, A.LoadPlaylistsSuccess(ps));
      && (ps == [] ==> r.playlists == [DUMMY_PLAYLIST])
      && (ps != [] ==> r.playlists == ps)
      && |r.playlists| > 0
      && OnlyChanges(s, r, {PlaylistsField})
  {
  }

  /** LOAD_TRACKS_SUCCESS maps the playlist's id to the tracks and keeps every other key. */
  lemma ReduceLoadTracksSuccess(s: SpotifyState, p: Playlist, ts: seq<Track>)
    ensures var r := RootReducer(s, A.LoadTracksSuccess(A.LoadTracksSuccessPayload(p, ts)));
      && p.id in r.tracks && r.tracks[p.id] == ts
      && r.tracks.Keys == s.tracks.Keys + {p.id}
      && (forall k :: k in s.tracks && k != p.id ==> r.tracks[k] == s.tracks[k])
      && OnlyChanges(s, r, {TracksField})
  {
  }

  /** SELECT_PLAYLIST, SELECT_TRACK and SAVE_API each change only their own field. */
  lemma ReduceSelections(s: SpotifyState, p: Playlist, t: Track, h: ApiHandle)
    ensures var r := RootReducer(s, A.SelectPlaylist(p));
      r.selectedPlaylist == Some(p) && OnlyChanges(s, r, {SelectedPlaylistField})
    ensures var r := RootReducer(s, A.SelectTrack(t));
      r.selectedTrack == Some(t) && OnlyChanges(s, r, {SelectedTrackField})
    ensures var r := RootReducer(s, A.SaveApi(h));
      r.api == Some(h) && OnlyChanges(s, r, {ApiField})
  {
  }

  /** The state after dispatching a sequence of actions in order. */
  function ReduceAll(s: SpotifyState, actions: seq<A.Action>): SpotifyState
    decreases |actions|
  {
    if actions == [] then s else ReduceAll(RootReducer(s, actions[0]), actions[1..])
  }

  /** Dispatching xs then ys is dispatching xs + ys. */
  lemma {:induction false} ReduceAllAppend(s: SpotifyState, xs: seq<A.Action>, ys: seq<A.Action>)
    ensures ReduceAll(s, xs + ys) == ReduceAll(ReduceAll(s, xs), ys)
    decreases |xs|
  {
    if xs == [] {
      assert xs + ys == ys;
    } else {
      assert (xs + ys)[0] == xs[0] && (xs + ys)[1..] == xs[1..] + ys;
      ReduceAllAppend(RootReducer(s, xs[0]), xs[1..], ys);
    }
  }

  /** Whatever happened before a sign-out is forgotten: only what follows it matters. */
  lemma {:induction false} SignOutForgetsHistory(s: SpotifyState, xs: seq<A.Action>, ys: seq<A.Action>)
    ensures ReduceAll(s, xs + [A.SignOut()] + ys) == ReduceAll(DEFAULT_STATE, ys)
  {
    ReduceAllAppend(s, xs + [A.SignOut()], ys);
    ReduceAllAppend(s, xs, [A.SignOut()]);
  }
}
