/**
 * The handlers of `SpotifySaga` (src/saga/saga.ts). Each handler is a
 * function from what it reads (the store's state, the action's payload, the
 * handle `getApi` yields, the outcome of the remote call it makes) to the
 * ordered trace of effects it performs. `signIn$`, which acquires the auth
 * server and must release it on every path, is a method over an object with
 * a dispose counter.
 */
module Saga {
  import opened Wrappers
  import opened Consts
  import opened State
  import opened Utils
  import opened Reducer
  import opened Api
  import A = Actions

  /** Calls made on the remote Spotify API. */
  datatype RemoteCall =
    | GetPlaylists
    | GetTracks(playlist: Playlist)
    | PlayContext(offset: int, albumUri: string)

  /** What a handler does, in order. */
  datatype SagaEffect =
    | Put(action: A.Action)          // `yield put(...)`
    | Warn(warning: string)          // a warning message box
    | Info(info: string)             // an information message box
    | Remote(call: RemoteCall)       // a call on the remote API
    | OpenUri(uri: string)           // `vscode.open`
    | QueryClientStatus              // `client.queryStatus()`
    | Raise(reason: Reason)          // a rejection that escapes the handler

  /** The actions a trace dispatches, in order. */
  function Puts(effects: seq<SagaEffect>): seq<A.Action>
    decreases |effects|
  {
    if effects == [] then []
    else (if effects[0].Put? then [effects[0].action] else []) + Puts(effects[1..])
  }

  function WarnAll(warnings: seq<string>): (effects: seq<SagaEffect>)
    ensures |effects| == |warnings| && forall i :: 0 <= i < |warnings| ==> effects[i] == Warn(warnings[i])
  {
    seq(|warnings|, i requires 0 <= i < |warnings| => Warn(warnings[i]))
  }

  /** Puts distributes over concatenation of traces. */
  lemma {:induction false} PutsConcat(xs: seq<SagaEffect>, ys: seq<SagaEffect>)
    ensures Puts(xs + ys) == Puts(xs) + Puts(ys)
    decreases |xs|
  {
    if xs == [] {
      assert xs + ys == ys;
    } else {
      assert (xs + ys)[0] == xs[0] && (xs + ys)[1..] == xs[1..] + ys;
      PutsConcat(xs[1..], ys);
    }
  }

  lemma PutsOfOne(e: SagaEffect)
    ensures Puts([e]) == if e.Put? then [e.action] else []
  {
    assert [e][1..] == [];
  }

  lemma PutsOfTwo(e1: SagaEffect, e2: SagaEffect)
    ensures Puts([e1, e2]) == (if e1.Put? then [e1.action] else []) + (if e2.Put? then [e2.action] else [])
  {
    assert [e1, e2] == [e1] + [e2];
    PutsConcat([e1], [e2]);
    PutsOfOne(e1);
    PutsOfOne(e2);
  }

  /** Actions dispatched in order, as trace effects. */
  function PutAll(actions: seq<A.Action>): (effects: seq<SagaEffect>)
    ensures Puts(effects) == actions
    ensures |effects| == |actions| && forall i :: 0 <= i < |actions| ==> effects[i] == Put(actions[i])
    decreases |actions|
  {
    if actions == [] then []
    else
      PutsConcat([Put(actions[0])], PutAll(actions[1..]));
      PutsOfOne(Put(actions[0]));
      [Put(actions[0])] + PutAll(actions[1..])
  }

  /**
   * `yield call(() => withApi(getApi, func))` for a remote call, with `getApi`
   * bound to `getSpotifyWebApi` over the store's state `s`: first the SAVE_API
   * that lookup may dispatch, then the warning when it returned no handle,
   * otherwise the call and then `onValue` on success or the escaping rejection.
   */
  function CallRemote<T>(s: SpotifyState, focused: bool, created: ApiHandle, call: RemoteCall,
                         outcome: Result<T, Reason>, onValue: T -> seq<SagaEffect>): (r: seq<SagaEffect>)
    ensures HandleOf(s, focused).None? ==>
      r == PutAll(LookupApi(s, focused, created).dispatched) + [Warn(LOGIN_WARNING)]
    ensures HandleOf(s, focused).Some? && outcome.Ok? ==> r == [Remote(call)] + onValue(outcome.value)
    ensures HandleOf(s, focused).Some? && outcome.Err? ==> r == [Remote(call), Raise(outcome.error)]
    ensures Puts(r) == LookupApi(s, focused, created).dispatched
      + (if HandleOf(s, focused).Some? && outcome.Ok? then Puts(onValue(outcome.value)) else [])
  {
    var l := LookupApi(s, focused, created);
    var g: Guarded<Result<T, Reason>> := WithApi(l.returned, (h: ApiHandle) => outcome);
    var handled :=
      match g.result
      case None => WarnAll(g.warnings)
      case Some(Ok(v)) => [Remote(call)] + onValue(v)
      case Some(Err(e)) => [Remote(call), Raise(e)];
    PutsConcat(PutAll(l.dispatched), handled);
    PutsOfOne(Warn(LOGIN_WARNING));
    PutsOfOne(Remote(call));
    PutsConcat([Remote(call)], if outcome.Ok? then onValue(outcome.value) else []);
    PutsOfTwo(Remote(call), Raise(if outcome.Err? then outcome.error else CANCELED_REASON));
    assert g.result.None? ==> handled == [Warn(LOGIN_WARNING)];
    PutAll(l.dispatched) + handled
  }

  // loadPlaylists$

  function LoadPlaylists(s: SpotifyState, focused: bool, created: ApiHandle, fetched: Result<seq<Playlist>, Reason>)
    : (effects: seq<SagaEffect>)
    ensures HandleOf(s, focused).None? ==>
      effects == PutAll(LookupApi(s, focused, created).dispatched) + [Warn(LOGIN_WARNING)]
    ensures HandleOf(s, focused).Some? ==> |effects| > 0 && effects[0] == Remote(GetPlaylists)
    ensures Puts(effects) == LookupApi(s, focused, created).dispatched
      + (if HandleOf(s, focused).Some? && fetched.Ok? then [A.LoadPlaylistsSuccess(fetched.value)] else [])
    ensures HandleOf(s, focused).Some? && fetched.Err? ==> effects == [Remote(GetPlaylists), Raise(fetched.error)]
  {
    var onValue := (ps: seq<Playlist>) => [Put(A.LoadPlaylistsSuccess(ps))];
    match fetched
    case Ok(ps) =>
      PutsOfOne(Put(A.LoadPlaylistsSuccess(ps)));
      CallRemote(s, focused, created, GetPlaylists, fetched, onValue)
    case Err(_) => CallRemote(s, focused, created, GetPlaylists, fetched, onValue)
  }

  /**
   * Logged in and focused, but with no cached handle: the first load saves a
   * new handle and still warns, because `getSpotifyWebApi` returns the handle
   * it read before saving; the next load finds that handle and fetches.
   */
  lemma FirstLoadSavesHandleThenWarns(s: SpotifyState, created: ApiHandle, other: ApiHandle,
                                      fetched: Result<seq<Playlist>, Reason>)
    requires s.loginState.Some? && s.api.None?
    ensures LoadPlaylists(s, true, created, fetched) == [Put(A.SaveApi(created)), Warn(LOGIN_WARNING)]
    ensures var s' := ReduceAll(s, Puts(LoadPlaylists(s, true, created, fetched)));
      && HandleOf(s', true) == Some(created)
      && LoadPlaylists(s', true, other, fetched)[0] == Remote(GetPlaylists)
  {
    HandleServedOnNextCall(s, created, other);
  }

  /** After a successful load the store's playlist list is never empty. */
  lemma LoadedPlaylistsNeverEmpty(s: SpotifyState, created: ApiHandle, ps: seq<Playlist>)
    requires HandleOf(s, true).Some?
    ensures var r := ReduceAll(s, Puts(LoadPlaylists(s, true, created, Ok(ps))));
      |r.playlists| > 0 && (ps != [] ==> r.playlists == ps) && (ps == [] ==> r.playlists == [DUMMY_PLAYLIST])
  {
    var puts := Puts(LoadPlaylists(s, true, created, Ok(ps)));
    assert puts == [A.LoadPlaylistsSuccess(ps)];
    assert puts[1..] == [];
    ReduceLoadPlaylistsSuccess(s, ps);
  }

  // selectCurrentTrack$

  /** The match test of `selectCurrentTrack$`: name, album name and joined artists. */
  predicate Matches(t: Track, current: TrackInfo)
  {
    && t.track.name == current.name
    && t.track.album.name == current.album
    && ArtistsToArtist(t.track.artists) == current.artist
  }

  /** `tracks.find(...)` from index i: the first matching index. */
  function FindTrackFrom(ts: seq<Track>, current: TrackInfo, i: nat): (r: Option<nat>)
    requires i <= |ts|
    ensures r.Some? ==> i <= r.value < |ts| && Matches(ts[r.value], current)
    ensures r.Some? ==> forall j :: i <= j < r.value ==> !Matches(ts[j], current)
    ensures r.None? ==> forall j :: i <= j < |ts| ==> !Matches(ts[j], current)
    decreases |ts| - i
  {
    if i == |ts| then None
    else if Matches(ts[i], current) then Some(i)
    else FindTrackFrom(ts, current, i + 1)
  }

  /** Whether the playlist's cached tracks hold a match for the current track. */
  predicate HasMatch(s: SpotifyState, p: Playlist)
  {
    p.id in s.tracks && FindTrackFrom(s.tracks[p.id], s.track, 0).Some?
  }

  /** The first matching cached track of the playlist. */
  function MatchIn(s: SpotifyState, p: Playlist): (t: Track)
    requires HasMatch(s, p)
    ensures t in s.tracks[p.id] && Matches(t, s.track)
  {
    s.tracks[p.id][FindTrackFrom(s.tracks[p.id], s.track, 0).value]
  }

  /** `playlists.find(...)` from index i: the first playlist holding a match. */
  function FindPlaylistFrom(s: SpotifyState, i: nat): (r: Option<nat>)
    requires i <= |s.playlists|
    ensures r.Some? ==> i <= r.value < |s.playlists| && HasMatch(s, s.playlists[r.value])
    ensures r.Some? ==> forall j :: i <= j < r.value ==> !HasMatch(s, s.playlists[j])
    ensures r.None? ==> forall j :: i <= j < |s.playlists| ==> !HasMatch(s, s.playlists[j])
    decreases |s.playlists| - i
  {
    if i == |s.playlists| then None
    else if HasMatch(s, s.playlists[i]) then Some(i)
    else FindPlaylistFrom(s, i + 1)
  }

  function SelectCurrentTrack(s: SpotifyState): (effects: seq<SagaEffect>)
    ensures effects == [] <==> forall k :: 0 <= k < |s.playlists| ==> !HasMatch(s, s.playlists[k])
    ensures effects != [] ==>
      exists k :: 0 <= k < |s.playlists| && HasMatch(s, s.playlists[k])
        && (forall j :: 0 <= j < k ==> !HasMatch(s, s.playlists[j]))
        && effects == [Put(A.SelectPlaylist(s.playlists[k])), Put(A.SelectTrack(MatchIn(s, s.playlists[k])))]
  {
    match FindPlaylistFrom(s, 0)
    case None => []
    case Some(k) => [Put(A.SelectPlaylist(s.playlists[k])), Put(A.SelectTrack(MatchIn(s, s.playlists[k])))]
  }

  /**
   * Once its puts are reduced, the selection is a cached track of the selected
   * playlist that matches the playing track, and the playing track is kept.
   */
  lemma SelectionMatchesPlayingTrack(s: SpotifyState)
    requires SelectCurrentTrack(s) != []
    ensures var r := ReduceAll(s, Puts(SelectCurrentTrack(s)));
      && r.selectedPlaylist.Some? && r.selectedPlaylist.value in s.playlists
      && r.selectedTrack.Some? && Matches(r.selectedTrack.value, s.track)
      && r.selectedPlaylist.value.id in s.tracks
      && r.selectedTrack.value in s.tracks[r.selectedPlaylist.value.id]
      && r.track == s.track && r.playlists == s.playlists && r.tracks == s.tracks
  {
    var k := FindPlaylistFrom(s, 0).value;
    var p := s.playlists[k];
    var t := MatchIn(s, p);
    PutsOfTwo(Put(A.SelectPlaylist(p)), Put(A.SelectTrack(t)));
    assert Puts(SelectCurrentTrack(s)) == [A.SelectPlaylist(p), A.SelectTrack(t)];
    ReduceSelectBoth(s, p, t);
  }

  /** SELECT_PLAYLIST then SELECT_TRACK sets the two selections and nothing else. */
  lemma ReduceSelectBoth(s: SpotifyState, p: Playlist, t: Track)
    ensures var r := ReduceAll(s, [A.SelectPlaylist(p), A.SelectTrack(t)]);
      r == s.(selectedPlaylist := Some(p), selectedTrack := Some(t))
  {
    var acts := [A.SelectPlaylist(p), A.SelectTrack(t)];
    var s1 := RootReducer(s, A.SelectPlaylist(p));
    var s2 := RootReducer(s1, A.SelectTrack(t));
    assert acts[1..] == [A.SelectTrack(t)] && acts[1..][1..] == [];
    assert ReduceAll(s1, acts[1..]) == ReduceAll(s2, []);
  }

  // loadTracksIfNotLoaded$, loadTracks$, loadTracksForSelectedPlaylist$

  function LoadTracksIfNotLoaded(s: SpotifyState, target: Option<Playlist>): (effects: seq<SagaEffect>)
    ensures effects != [] <==> target.Some? && target.value.id !in s.tracks
    ensures effects != [] ==> effects == [Put(A.LoadTracks(target.value))]
  {
    match target
    case None => []
    case Some(p) => if p.id !in s.tracks then [Put(A.LoadTracks(p))] else []
  }

  function LoadTracks(target: Option<Playlist>, s: SpotifyState, focused: bool, created: ApiHandle,
                      fetched: Result<seq<Track>, Reason>): (effects: seq<SagaEffect>)
    ensures target.None? || target.value.id == DUMMY_PLAYLIST.id ==> effects == []
    ensures target.Some? && target.value.id != DUMMY_PLAYLIST.id && HandleOf(s, focused).None? ==>
      effects == PutAll(LookupApi(s, focused, created).dispatched) + [Warn(LOGIN_WARNING)]
    ensures target.Some? && target.value.id != DUMMY_PLAYLIST.id && HandleOf(s, focused).Some? ==>
      |effects| > 0 && effects[0] == Remote(GetTracks(target.value))
    ensures target.Some? && target.value.id != DUMMY_PLAYLIST.id ==>
      Puts(effects) == LookupApi(s, focused, created).dispatched
        + (if HandleOf(s, focused).Some? && fetched.Ok?
           then [A.LoadTracksSuccess(A.LoadTracksSuccessPayload(target.value, fetched.value))] else [])
    ensures target.Some? && target.value.id != DUMMY_PLAYLIST.id && HandleOf(s, focused).Some? && fetched.Ok? ==>
      effects == [Remote(GetTracks(target.value)),
                  Put(A.LoadTracksSuccess(A.LoadTracksSuccessPayload(target.value, fetched.value)))]
    ensures target.Some? && target.value.id != DUMMY_PLAYLIST.id && HandleOf(s, focused).Some? && fetched.Err? ==>
      effects == [Remote(GetTracks(target.value)), Raise(fetched.error)]
  {
    match target
    case None => []
    case Some(p) =>
      if p.id == DUMMY_PLAYLIST.id then []
      else
        var onValue := (ts: seq<Track>) => [Put(A.LoadTracksSuccess(A.LoadTracksSuccessPayload(p, ts)))];
        match fetched
        case Ok(ts) =>
          PutsOfOne(Put(A.LoadTracksSuccess(A.LoadTracksSuccessPayload(p, ts))));
          CallRemote(s, focused, created, GetTracks(p), fetched, onValue)
        case Err(_) => CallRemote(s, focused, created, GetTracks(p), fetched, onValue)
  }

  function LoadTracksForSelectedPlaylist(s: SpotifyState): (effects: seq<SagaEffect>)
    ensures |effects| == 1 && effects[0].Put? && effects[0].action.LoadTracksAction?
    ensures s.selectedPlaylist.Some? ==> effects[0].action.target == s.selectedPlaylist
    ensures s.selectedPlaylist.None? ==> effects[0].action.target == Some(DUMMY_PLAYLIST)
  {
    [Put(A.LoadTracks(s.selectedPlaylist.GetOr(DUMMY_PLAYLIST)))]
  }

  /** With nothing selected, the request goes to the placeholder, which fetches nothing. */
  lemma NoSelectionLoadsNothing(s: SpotifyState, focused: bool, created: ApiHandle, fetched: Result<seq<Track>, Reason>)
    requires s.selectedPlaylist.None?
    ensures LoadTracks(LoadTracksForSelectedPlaylist(s)[0].action.target, s, focused, created, fetched) == []
  {
  }

  /**
   * A request for an unloaded playlist leads to one fetch; once its tracks are
   * stored under the playlist's id, a repeated request does nothing.
   */
  lemma LoadedPlaylistNotRequestedAgain(s: SpotifyState, p: Playlist, created: ApiHandle, ts: seq<Track>)
    requires p.id !in s.tracks && p.id != DUMMY_PLAYLIST.id && HandleOf(s, true).Some?
    ensures LoadTracksIfNotLoaded(s, Some(p)) == [Put(A.LoadTracks(p))]
    ensures var r := ReduceAll(s, Puts(LoadTracks(Some(p), s, true, created, Ok(ts))));
      r.tracks == s.tracks[p.id := ts] && LoadTracksIfNotLoaded(r, Some(p)) == []
  {
    var puts := Puts(LoadTracks(Some(p), s, true, created, Ok(ts)));
    assert puts == [A.LoadTracksSuccess(A.LoadTracksSuccessPayload(p, ts))];
    assert puts[1..] == [];
    ReduceLoadTracksSuccess(s, p, ts);
  }

  // playTrack$

  function PlayTrack(payload: A.PlayTrackPayload, s: SpotifyState, focused: bool, created: ApiHandle,
                     played: Result<(), Reason>): (effects: seq<SagaEffect>)
    ensures HandleOf(s, focused).None? ==>
      effects == PutAll(LookupApi(s, focused, created).dispatched) + [Warn(LOGIN_WARNING), QueryClientStatus]
    ensures HandleOf(s, focused).Some? ==>
      |effects| > 0 && effects[0] == Remote(PlayContext(payload.offset, payload.playlist.uri))
    ensures QueryClientStatus in effects <==> !(HandleOf(s, focused).Some? && played.Err?)
    ensures QueryClientStatus in effects ==> effects[|effects| - 1] == QueryClientStatus
    ensures HandleOf(s, focused).Some? && played.Err? ==> |effects| > 0 && effects[|effects| - 1] == Raise(played.error)
    ensures Puts(effects) == LookupApi(s, focused, created).dispatched
  {
    var call := PlayContext(payload.offset, payload.playlist.uri);
    var effects := CallRemote(s, focused, created, call, played, (_: ()) => [QueryClientStatus]);
    var d := LookupApi(s, focused, created).dispatched;
    if HandleOf(s, focused).None? then
      var r := PutAll(d) + [Warn(LOGIN_WARNING), QueryClientStatus];
      PutsOfTwo(Warn(LOGIN_WARNING), QueryClientStatus);
      PutsConcat(PutAll(d), [Warn(LOGIN_WARNING), QueryClientStatus]);
      assert effects + [QueryClientStatus] == r;
      assert r[|r| - 1] == QueryClientStatus;
      r
    else if played.Ok? then
      assert d == [];
      PutsOfTwo(Remote(call), QueryClientStatus);
      assert effects == [Remote(call), QueryClientStatus];
      effects
    else
      assert d == [];
      PutsOfTwo(Remote(call), Raise(played.error));
      assert effects == [Remote(call), Raise(played.error)];
      effects
  }

  // signIn$

  /** `JSON.stringify` of a rejection reason: a string is quoted, an `Error` has no own enumerable fields. */
  function JsonText(e: Reason): (json: string)
    ensures e.Text? ==> json == "\"" + e.text + "\""
    ensures e.Failure? ==> json == "{}"
  {
    match e
    case Text(t) => "\"" + t + "\""
    case Failure(_) => "{}"
  }

  const TOKEN_FAILURE_PREFIX: string := "Failed to retrieve access token: "

  /** The disposable local auth server: `dispose` closes it. */
  class AuthServer {
    const serverUrl: string
    var disposeCount: nat

    constructor (serverUrl: string)
      ensures this.serverUrl == serverUrl && disposeCount == 0
    {
      this.serverUrl := serverUrl;
      disposeCount := 0;
    }

    method Dispose()
      modifies this
      ensures disposeCount == old(disposeCount) + 1
    {
      disposeCount := disposeCount + 1;
    }
  }

  /**
   * `signIn$`: open the login page, start the server, await its token pair,
   * dispatch the success or show the failure, and dispose the server on
   * either path. `tokens` is how the server's promise settles.
   */
  method SignIn(authServerUrl: string, tokens: Result<A.SignInSuccessPayload, Reason>)
    returns (effects: seq<SagaEffect>, server: AuthServer)
    ensures fresh(server) && server.serverUrl == authServerUrl && server.disposeCount == 1
    ensures |effects| == 2 && effects[0] == OpenUri(authServerUrl + "/login")
    ensures tokens.Ok? ==> effects[1] == Put(A.SignInSuccess(tokens.value.accessToken, tokens.value.refreshToken))
    ensures tokens.Err? ==> effects[1] == Info(TOKEN_FAILURE_PREFIX + JsonText(tokens.error))
    ensures Puts(effects) != [] <==> tokens.Ok?
  {
    effects := [OpenUri(authServerUrl + "/login")];
    server := new AuthServer(authServerUrl);
    match tokens {
      case Ok(pair) =>
        effects := effects + [Put(A.SignInSuccess(pair.accessToken, pair.refreshToken))];
      case Err(e) =>
        effects := effects + [Info(TOKEN_FAILURE_PREFIX + JsonText(e))];
    }
    server.Dispose();
    PutsOfTwo(effects[0], effects[1]);
    assert effects == [effects[0], effects[1]];
  }
}
