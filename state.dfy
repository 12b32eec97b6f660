/**
 * The application state tree and the entities it holds.
 *
 * The defining file of the state shape (src/state/state.ts) is not part of this
 * model; the shape below is the one the reducer, the saga and the clients read
 * and write. DEFAULT_STATE and DUMMY_PLAYLIST come from that file and are kept
 * abstract: nothing proved here depends on their contents.
 */
module State {
  import opened Wrappers

  /** An authenticated remote-API client, only ever compared and passed on. */
  datatype ApiHandle = ApiHandle(id: nat)

  datatype LoginState = LoginState(accessToken: string, refreshToken: string)

  datatype Playback = Playing | Paused

  datatype PlayerState = PlayerState(
    state: Playback,
    position: int,
    volume: Option<int>,   // the remote API may report no volume
    isRepeating: bool,
    isShuffling: bool)

  /** The now-playing track as shown in the status bar. */
  datatype TrackInfo = TrackInfo(name: string, artist: string, album: string)

  datatype Playlist = Playlist(id: string, uri: string, name: string)

  datatype Artist = Artist(name: string)
  datatype Album = Album(name: string)

  /** A track as the remote API describes it. */
  datatype TrackItem = TrackItem(name: string, album: Album, artists: seq<Artist>, trackNumber: int)

  /** One entry of a playlist's track list: the API wraps the track in a `track` field. */
  datatype Track = Track(track: TrackItem)

  datatype Context = Context(uri: string, trackNumber: int)

  datatype SpotifyState = SpotifyState(
    loginState: Option<LoginState>,
    api: Option<ApiHandle>,
    isRunning: bool,
    playerState: PlayerState,
    track: TrackInfo,
    playlists: seq<Playlist>,
    selectedPlaylist: Option<Playlist>,
    tracks: map<string, seq<Track>>,   // playlist id -> its tracks, filled lazily
    selectedTrack: Option<Track>,
    context: Option<Context>)

  /**
   * A `Partial<ISpotifyStatusState>`: each field is either absent (None) or
   * present with a value. Fields that may themselves be undefined in the state
   * carry Some(None) when the update explicitly sets them to undefined.
   */
  datatype StatePatch = StatePatch(
    loginState: Option<Option<LoginState>>,
    api: Option<Option<ApiHandle>>,
    isRunning: Option<bool>,
    playerState: Option<PlayerState>,
    track: Option<TrackInfo>,
    playlists: Option<seq<Playlist>>,
    selectedPlaylist: Option<Option<Playlist>>,
    tracks: Option<map<string, seq<Track>>>,
    selectedTrack: Option<Option<Track>>,
    context: Option<Option<Context>>)

  const EMPTY_PATCH: StatePatch :=
    StatePatch(None, None, None, None, None, None, None, None, None, None)

  /** The initial and signed-out state (abstract). */
  const DEFAULT_STATE: SpotifyState

  /** The placeholder row shown when the user has no playlists (abstract). */
  const DUMMY_PLAYLIST: Playlist
}
