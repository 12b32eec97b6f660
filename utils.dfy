/**
 * The pure helpers of src/utils/utils.ts: joining artist names and the
 * shallow-merge `updateState` (Object.assign({}, obj, update)) on the state tree.
 */
module Utils {
  import opened Wrappers
  import opened State

  /** The names of the artists, in order. */
  function Names(artists: seq<Artist>): (names: seq<string>)
    ensures |names| == |artists|
    ensures forall i :: 0 <= i < |artists| ==> names[i] == artists[i].name
  {
    if artists == [] then [] else [artists[0].name] + Names(artists[1..])
  }

  /** `Array.prototype.join`: the items with `sep` between consecutive ones. */
  function Join(items: seq<string>, sep: string): string
  {
    if |items| == 0 then ""
    else if |items| == 1 then items[0]
    else items[0] + sep + Join(items[1..], sep)
  }

  /** `artistsToArtist`: the artist names joined with ", ". */
  function ArtistsToArtist(artists: seq<Artist>): (r: string)
    ensures artists == [] ==> r == ""
    ensures |artists| == 1 ==> r == artists[0].name
    ensures |artists| > 1 ==> r == artists[0].name + ", " + ArtistsToArtist(artists[1..])
  {
    assert |artists| > 1 ==> Names(artists)[1..] == Names(artists[1..]);
    Join(Names(artists), ", ")
  }

  /** Joining two non-empty lists is joining each and putting one separator between. */
  lemma {:induction false} JoinAppend(xs: seq<string>, ys: seq<string>, sep: string)
    requires xs != [] && ys != []
    ensures Join(xs + ys, sep) == Join(xs, sep) + sep + Join(ys, sep)
  {
    if |xs| == 1 {
      assert (xs + ys)[1..] == ys;
    } else {
      assert (xs + ys)[1..] == xs[1..] + ys;
      JoinAppend(xs[1..], ys, sep);
    }
  }

  /** The artist string of a concatenated artist list splits at one ", ". */
  lemma {:induction false} ArtistsToArtistAppend(xs: seq<Artist>, ys: seq<Artist>)
    requires xs != [] && ys != []
    ensures ArtistsToArtist(xs + ys) == ArtistsToArtist(xs) + ", " + ArtistsToArtist(ys)
  {
    NamesAppend(xs, ys);
    JoinAppend(Names(xs), Names(ys), ", ");
  }

  lemma NamesAppend(xs: seq<Artist>, ys: seq<Artist>)
    ensures Names(xs + ys) == Names(xs) + Names(ys)
  {
    var l, r := Names(xs + ys), Names(xs) + Names(ys);
    assert |l| == |r|;
    forall i | 0 <= i < |l| ensures l[i] == r[i] {
      if i < |xs| { assert (xs + ys)[i] == xs[i]; } else { assert (xs + ys)[i] == ys[i - |xs|]; }
    }
  }

  /** The top-level fields of the state tree, to state which ones an update touches. */
  datatype Field =
    | LoginStateField | ApiField | IsRunningField | PlayerStateField | TrackField
    | PlaylistsField | SelectedPlaylistField | TracksField | SelectedTrackField | ContextField

  /** `a` and `b` hold the same value in field `f`. */
  predicate SameOn(a: SpotifyState, b: SpotifyState, f: Field)
  {
    match f
    case LoginStateField => a.loginState == b.loginState
    case ApiField => a.api == b.api
    case IsRunningField => a.isRunning == b.isRunning
    case PlayerStateField => a.playerState == b.playerState
    case TrackField => a.track == b.track
    case PlaylistsField => a.playlists == b.playlists
    case SelectedPlaylistField => a.selectedPlaylist == b.selectedPlaylist
    case TracksField => a.tracks == b.tracks
    case SelectedTrackField => a.selectedTrack == b.selectedTrack
    case ContextField => a.context == b.context
  }

  /** `r` differs from `s` at most in the fields listed. */
  predicate OnlyChanges(s: SpotifyState, r: SpotifyState, fields: set<Field>)
  {
    forall f: Field :: f !in fields ==> SameOn(s, r, f)
  }

  /** The update carries field `f` (with a value, possibly undefined). */
  predicate Present(u: StatePatch, f: Field)
  {
    match f
    case LoginStateField => u.loginState.Some?
    case ApiField => u.api.Some?
    case IsRunningField => u.isRunning.Some?
    case PlayerStateField => u.playerState.Some?
    case TrackField => u.track.Some?
    case PlaylistsField => u.playlists.Some?
    case SelectedPlaylistField => u.selectedPlaylist.Some?
    case TracksField => u.tracks.Some?
    case SelectedTrackField => u.selectedTrack.Some?
    case ContextField => u.context.Some?
  }

  /** Field `f` of `r` holds the value the update carries for it. */
  predicate TakesFrom(r: SpotifyState, u: StatePatch, f: Field)
    requires Present(u, f)
  {
    match f
    case LoginStateField => r.loginState == u.loginState.value
    case ApiField => r.api == u.api.value
    case IsRunningField => r.isRunning == u.isRunning.value
    case PlayerStateField => r.playerState == u.playerState.value
    case TrackField => r.track == u.track.value
    case PlaylistsField => r.playlists == u.playlists.value
    case SelectedPlaylistField => r.selectedPlaylist == u.selectedPlaylist.value
    case TracksField => r.tracks == u.tracks.value
    case SelectedTrackField => r.selectedTrack == u.selectedTrack.value
    case ContextField => r.context == u.context.value
  }

  /** `updateState(obj, upd)`: a fresh tree with upd's fields over obj's. */
  function UpdateState(s: SpotifyState, u: StatePatch): (r: SpotifyState)
    ensures forall f: Field :: Present(u, f) ==> TakesFrom(r, u, f)
    ensures forall f: Field :: !Present(u, f) ==> SameOn(r, s, f)
    ensures u == EMPTY_PATCH ==> r == s
  {
    SpotifyState(
      u.loginState.GetOr(s.loginState),
      u.api.GetOr(s.api),
      u.isRunning.GetOr(s.isRunning),
      u.playerState.GetOr(s.playerState),
      u.track.GetOr(s.track),
      u.playlists.GetOr(s.playlists),
      u.selectedPlaylist.GetOr(s.selectedPlaylist),
      u.tracks.GetOr(s.tracks),
      u.selectedTrack.GetOr(s.selectedTrack),
      u.context.GetOr(s.context))
  }

  /** A field the update carries no longer depends on the old state. */
  lemma UpdateStateOverrides(s: SpotifyState, t: SpotifyState, u: StatePatch, f: Field)
    requires Present(u, f)
    ensures SameOn(UpdateState(s, u), UpdateState(t, u), f)
  {
  }

  /** Object.assign({}, u, v) on two updates: v's fields over u's. */
  function MergePatch(u: StatePatch, v: StatePatch): StatePatch
  {
    StatePatch(
      if v.loginState.Some? then v.loginState else u.loginState,
      if v.api.Some? then v.api else u.api,
      if v.isRunning.Some? then v.isRunning else u.isRunning,
      if v.playerState.Some? then v.playerState else u.playerState,
      if v.track.Some? then v.track else u.track,
      if v.playlists.Some? then v.playlists else u.playlists,
      if v.selectedPlaylist.Some? then v.selectedPlaylist else u.selectedPlaylist,
      if v.tracks.Some? then v.tracks else u.tracks,
      if v.selectedTrack.Some? then v.selectedTrack else u.selectedTrack,
      if v.context.Some? then v.context else u.context)
  }

  /** The merged update carries exactly the fields either update carries. */
  lemma MergePatchPresent(u: StatePatch, v: StatePatch, f: Field)
    ensures Present(MergePatch(u, v), f) <==> Present(u, f) || Present(v, f)
  {
  }

  /** Two successive updates are one update with the merged patch. */
  lemma UpdateStateCompose(s: SpotifyState, u: StatePatch, v: StatePatch)
    ensures UpdateState(UpdateState(s, u), v) == UpdateState(s, MergePatch(u, v))
  {
  }

  /** Applying the same update twice equals applying it once. */
  lemma UpdateStateIdempotent(s: SpotifyState, u: StatePatch)
    ensures UpdateState(UpdateState(s, u), u) == UpdateState(s, u)
  {
  }
}
