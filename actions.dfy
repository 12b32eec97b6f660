/**
 * The action catalog of src/actions/actions.ts: the fifteen action kinds with
 * their exact tag strings, the payload shapes, and the creators of the
 * `SpotifyAction` class, which build one action object each.
 */
module Actions {
  import opened Wrappers
  import opened State

  /** The `SpotifyActionType` enum. */
  datatype SpotifyActionType =
    | UpdateStateType | SignInType | SignInSuccessType | SignOutType
    | LoadPlaylistsType | LoadPlaylistsSuccessType | SelectPlaylistType
    | LoadTracksType | LoadTracksIfNotLoadedType | LoadTracksForSelectedPlaylistType
    | LoadTracksSuccessType | SelectTrackType | SelectCurrentTrackType
    | SaveApiType | PlayTrackType

  /** The string each kind is dispatched under (the enum's values). */
  function Tag(t: SpotifyActionType): string
  {
    match t
    case UpdateStateType => "Update State"
    case SignInType => "Sign In"
    case SignInSuccessType => "Sign In Success"
    case SignOutType => "Sign Out"
    case LoadPlaylistsType => "Load Playlists"
    case LoadPlaylistsSuccessType => "Load Playlists Success"
    case SelectPlaylistType => "Select Playlists"
    case LoadTracksType => "Load Tracks"
    case LoadTracksIfNotLoadedType => "Load Tracks If Not Loaded"
    case LoadTracksForSelectedPlaylistType => "Load Tracks For Selected Playlist"
    case LoadTracksSuccessType => "Load Tracks Success"
    case SelectTrackType => "Select Track"
    case SelectCurrentTrackType => "Select Current Track"
    case SaveApiType => "Save Api"
    case PlayTrackType => "Play Track"
  }

  /** The kind a tag string names, if any: what a `switch (action.type)` recognises. */
  function ParseTag(s: string): Option<SpotifyActionType>
  {
    if s == "Update State" then Some(UpdateStateType)
    else if s == "Sign In" then Some(SignInType)
    else if s == "Sign In Success" then Some(SignInSuccessType)
    else if s == "Sign Out" then Some(SignOutType)
    else if s == "Load Playlists" then Some(LoadPlaylistsType)
    else if s == "Load Playlists Success" then Some(LoadPlaylistsSuccessType)
    else if s == "Select Playlists" then Some(SelectPlaylistType)
    else if s == "Load Tracks" then Some(LoadTracksType)
    else if s == "Load Tracks If Not Loaded" then Some(LoadTracksIfNotLoadedType)
    else if s == "Load Tracks For Selected Playlist" then Some(LoadTracksForSelectedPlaylistType)
    else if s == "Load Tracks Success" then Some(LoadTracksSuccessType)
    else if s == "Select Track" then Some(SelectTrackType)
    else if s == "Select Current Track" then Some(SelectCurrentTrackType)
    else if s == "Save Api" then Some(SaveApiType)
    else if s == "Play Track" then Some(PlayTrackType)
    else None
  }

  /** Reading a kind's tag back gives that kind. */
  lemma TagRoundTrip(t: SpotifyActionType)
    ensures ParseTag(Tag(t)) == Some(t)
  {
  }

  /** The fifteen tags are pairwise distinct. */
  lemma {:induction false} TagsDistinct(t1: SpotifyActionType, t2: SpotifyActionType)
    ensures Tag(t1) == Tag(t2) <==> t1 == t2
  {
    TagRoundTrip(t1);
    TagRoundTrip(t2);
  }

  datatype SignInSuccessPayload = SignInSuccessPayload(accessToken: string, refreshToken: string)
  datatype LoadTracksSuccessPayload = LoadTracksSuccessPayload(playlist: Playlist, tracks: seq<Track>)
  datatype PlayTrackPayload = PlayTrackPayload(offset: int, playlist: Playlist)

  /** A `type` string that is none of the fifteen tags of the catalog. */
  type ForeignTag = t: string | ParseTag(t) == None witness ""

  /**
   * An action object: its kind and the payload fixed for that kind. A
   * `LoadTracks...` payload is a playlist that an untyped dispatcher may leave
   * undefined, which the saga checks for. `ForeignAction` is an action of
   * another part of the program (redux's own initialisation, the persistence
   * layer's rehydration) whose tag is none of the fifteen.
   */
  datatype Action =
    | UpdateStateAction(update: StatePatch)
    | SignInAction
    | SignInSuccessAction(credentials: SignInSuccessPayload)
    | SignOutAction
    | LoadPlaylistsAction
    | LoadPlaylistsSuccessAction(playlists: seq<Playlist>)
    | SelectPlaylistAction(playlist: Playlist)
    | LoadTracksAction(target: Option<Playlist>)
    | LoadTracksIfNotLoadedAction(target: Option<Playlist>)
    | LoadTracksForSelectedPlaylistAction
    | LoadTracksSuccessAction(loaded: LoadTracksSuccessPayload)
    | SelectTrackAction(track: Track)
    | SelectCurrentTrackAction
    | SaveApiAction(api: ApiHandle)
    | PlayTrackAction(play: PlayTrackPayload)
    | ForeignAction(tag: ForeignTag)
  {
    /** The kind, for the fifteen of this catalog. */
    function Kind(): Option<SpotifyActionType>
    {
      match this
      case UpdateStateAction(_) => Some(UpdateStateType)
      case SignInAction => Some(SignInType)
      case SignInSuccessAction(_) => Some(SignInSuccessType)
      case SignOutAction => Some(SignOutType)
      case LoadPlaylistsAction => Some(LoadPlaylistsType)
      case LoadPlaylistsSuccessAction(_) => Some(LoadPlaylistsSuccessType)
      case SelectPlaylistAction(_) => Some(SelectPlaylistType)
      case LoadTracksAction(_) => Some(LoadTracksType)
      case LoadTracksIfNotLoadedAction(_) => Some(LoadTracksIfNotLoadedType)
      case LoadTracksForSelectedPlaylistAction => Some(LoadTracksForSelectedPlaylistType)
      case LoadTracksSuccessAction(_) => Some(LoadTracksSuccessType)
      case SelectTrackAction(_) => Some(SelectTrackType)
      case SelectCurrentTrackAction => Some(SelectCurrentTrackType)
      case SaveApiAction(_) => Some(SaveApiType)
      case PlayTrackAction(_) => Some(PlayTrackType)
      case ForeignAction(_) => None
    }

    /** The object's `type` field. */
    function TypeTag(): string
    {
      match Kind()
      case Some(t) => Tag(t)
      case None => this.tag
    }

    /** Whether the object has a `payload` field at all. */
    predicate HasPayload()
    {
      !(SignInAction? || SignOutAction? || LoadPlaylistsAction? || LoadTracksForSelectedPlaylistAction?
        || SelectCurrentTrackAction? || ForeignAction?)
    }
  }

  // The creators of the `SpotifyAction` class.

  function UpdateState(update: StatePatch): (a: Action)
    ensures a.TypeTag() == "Update State" && a.UpdateStateAction? && a.update == update
  {
    UpdateStateAction(update)
  }

  function LoadPlaylists(): (a: Action)
    ensures a.TypeTag() == "Load Playlists" && !a.HasPayload()
  {
    LoadPlaylistsAction
  }

  function LoadPlaylistsSuccess(playlists: seq<Playlist>): (a: Action)
    ensures a.TypeTag() == "Load Playlists Success" && a.LoadPlaylistsSuccessAction? && a.playlists == playlists
  {
    LoadPlaylistsSuccessAction(playlists)
  }

  function SelectPlaylist(playlist: Playlist): (a: Action)
    ensures a.TypeTag() == "Select Playlists" && a.SelectPlaylistAction? && a.playlist == playlist
  {
    SelectPlaylistAction(playlist)
  }

  function SelectTrack(track: Track): (a: Action)
    ensures a.TypeTag() == "Select Track" && a.SelectTrackAction? && a.track == track
  {
    SelectTrackAction(track)
  }

  function SelectCurrentTrack(): (a: Action)
    ensures a.TypeTag() == "Select Current Track" && !a.HasPayload()
  {
    SelectCurrentTrackAction
  }

  function LoadTracksIfNotLoaded(playlist: Playlist): (a: Action)
    ensures a.TypeTag() == "Load Tracks If Not Loaded" && a.LoadTracksIfNotLoadedAction? && a.target == Some(playlist)
  {
    LoadTracksIfNotLoadedAction(Some(playlist))
  }

  function LoadTracks(playlist: Playlist): (a: Action)
    ensures a.TypeTag() == "Load Tracks" && a.LoadTracksAction? && a.target == Some(playlist)
  {
    LoadTracksAction(Some(playlist))
  }

  function LoadTracksSuccess(payload: LoadTracksSuccessPayload): (a: Action)
    ensures a.TypeTag() == "Load Tracks Success" && a.LoadTracksSuccessAction? && a.loaded == payload
  {
    LoadTracksSuccessAction(payload)
  }

  function LoadTracksForSelectedPlaylist(): (a: Action)
    ensures a.TypeTag() == "Load Tracks For Selected Playlist" && !a.HasPayload()
  {
    LoadTracksForSelectedPlaylistAction
  }

  function PlayTrack(offset: int, playlist: Playlist): (a: Action)
    ensures a.TypeTag() == "Play Track" && a.PlayTrackAction?
    ensures a.play.offset == offset && a.play.playlist == playlist
  {
    PlayTrackAction(PlayTrackPayload(offset, playlist))
  }

  function SignIn(): (a: Action)
    ensures a.TypeTag() == "Sign In" && !a.HasPayload()
  {
    SignInAction
  }

  function SignInSuccess(accessToken: string, refreshToken: string): (a: Action)
    ensures a.TypeTag() == "Sign In Success" && a.SignInSuccessAction?
    ensures a.credentials.accessToken == accessToken && a.credentials.refreshToken == refreshToken
  {
    SignInSuccessAction(SignInSuccessPayload(accessToken, refreshToken))
  }

  function SignOut(): (a: Action)
    ensures a.TypeTag() == "Sign Out" && !a.HasPayload()
  {
    SignOutAction
  }

  function SaveApi(api: ApiHandle): (a: Action)
    ensures a.TypeTag() == "Save Api" && a.SaveApiAction? && a.api == api
  {
    SaveApiAction(api)
  }

  /** The two track-loading requests carry the same playlist under different tags. */
  lemma LoadTracksVariantsDiffer(p: Playlist)
    ensures LoadTracksIfNotLoaded(p).target == LoadTracks(p).target == Some(p)
    ensures LoadTracksIfNotLoaded(p).TypeTag() != LoadTracks(p).TypeTag()
  {
    TagsDistinct(LoadTracksIfNotLoadedType, LoadTracksType);
  }

  /**
   * An action's `type` string identifies its kind: a catalog action's tag
   * parses back to its kind, and a foreign action's tag to none.
   */
  lemma TypeTagDeterminesKind(a: Action)
    ensures ParseTag(a.TypeTag()) == a.Kind()
  {
    if a.Kind().Some? {
      TagRoundTrip(a.Kind().value);
    }
  }
}
