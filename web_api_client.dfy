/**
 * `WebApiSpotifyClient` (src/spotify/web-api-spotify-client.ts): playback
 * control over the remote Spotify API, the volume memory `prevVolume` used by
 * mute/unmute, and the poll tick that maps the remote player object to a
 * status update. `getApi` is `getSpotifyWebApi` over the store: the state the
 * store holds, the editor's focus flag, the handle the remote library would
 * create and the outcome of each remote call are parameters; what a control
 * method does is an ordered trace of effects, starting with the SAVE_API that
 * `getApi` may dispatch.
 */
module WebApiClient {
  import opened Wrappers
  import opened Consts
  import opened State
  import opened Utils
  import opened Selector
  import opened Api
  import opened WithError
  import opened CancelablePromises
  import opened PollSessions
  import opened Reducer
  import opened Store
  import A = Actions

  /** Requests sent to the remote player. */
  datatype Command =
    | NextTrack
    | PreviousTrack
    | Resume
    | PausePlayback
    | SetVolume(percent: int)
    | SetRepeat(mode: string)
    | SetShuffle(on: bool)

  datatype ClientEffect =
    | Remote(command: Command)
    | ScheduleQueryStatus               // `this.queryStatus()`: a status query after RAPID_QUERY_DELAY_MS
    | Warn(warning: string)
    | UnhandledRejection(reason: Reason) // a rejection of a promise nobody awaits
    | Dispatch(action: A.Action)        // `store.dispatch(...)` inside `getApi`

  /** The delay of the status query that follows a control request. */
  const RAPID_QUERY_DELAY_MS: nat := 1000
  const VOLUME_STEP: int := 20
  const MAX_VOLUME: int := 100

  /** What `getApi` dispatches in state `s` before it returns, as trace effects. */
  function GetApiEffects(s: SpotifyState, focused: bool, created: ApiHandle): (effects: seq<ClientEffect>)
    ensures var d := LookupApi(s, focused, created).dispatched;
      |effects| == |d| && forall i :: 0 <= i < |d| ==> effects[i] == Dispatch(d[i])
  {
    var d := LookupApi(s, focused, created).dispatched;
    seq(|d|, i requires 0 <= i < |d| => Dispatch(d[i]))
  }

  /**
   * `withApi(getApi, async api => { await <command>; this.queryStatus(); })`,
   * either returned from a method decorated with `@withErrorAsync()`
   * (`awaited`), so a rejection becomes its warning, or left floating.
   */
  function RemoteCall(s: SpotifyState, focused: bool, created: ApiHandle, command: Command,
                      remote: Result<(), Reason>, awaited: bool): (effects: seq<ClientEffect>)
    ensures HandleOf(s, focused).None? ==> effects == GetApiEffects(s, focused, created) + [Warn(LOGIN_WARNING)]
    ensures HandleOf(s, focused).Some? && remote.Ok? ==> effects == [Remote(command), ScheduleQueryStatus]
    ensures HandleOf(s, focused).Some? && remote.Err? && awaited ==>
      effects == [Remote(command), Warn(FAILURE_PREFIX + MessageText(remote.error))]
    ensures HandleOf(s, focused).Some? && remote.Err? && !awaited ==>
      effects == [Remote(command), UnhandledRejection(remote.error)]
  {
    var l := LookupApi(s, focused, created);
    var g: Guarded<Result<(), Reason>> := WithApi(l.returned, (h: ApiHandle) => remote);
    match g.result
    case None => GetApiEffects(s, focused, created) + [Warn(g.warnings[0])]
    case Some(Ok(_)) => [Remote(command), ScheduleQueryStatus]
    case Some(Err(e)) =>
      if awaited then
        var w: Wrapped<()> := WithErrorAsync((u: ()) => remote, ());
        [Remote(command), Warn(w.warnings[0])]
      else [Remote(command), UnhandledRejection(e)]
  }

  // Volume arithmetic

  /** `playerState.volume || 0`. */
  function CurrentVolume(volume: Option<int>): int
  {
    volume.GetOr(0)
  }

  /** `Math.min(volume + 20, 100)`. */
  function VolumeUpLevel(volume: Option<int>): (v: int)
    ensures v <= MAX_VOLUME
    ensures v == MAX_VOLUME || v == CurrentVolume(volume) + VOLUME_STEP
    ensures 0 <= CurrentVolume(volume) <= MAX_VOLUME ==> CurrentVolume(volume) <= v
  {
    var raised := CurrentVolume(volume) + VOLUME_STEP;
    if raised < MAX_VOLUME then raised else MAX_VOLUME
  }

  /** `Math.max(volume - 20, 0)`. */
  function VolumeDownLevel(volume: Option<int>): (v: int)
    ensures 0 <= v
    ensures v == 0 || v == CurrentVolume(volume) - VOLUME_STEP
    ensures 0 <= CurrentVolume(volume) <= MAX_VOLUME ==> v <= CurrentVolume(volume)
  {
    var lowered := CurrentVolume(volume) - VOLUME_STEP;
    if lowered > 0 then lowered else 0
  }

  /** The level after n volume-up presses, each seeing the level the previous one set. */
  function UpPresses(v: int, n: nat): int
    decreases n
  {
    if n == 0 then v else UpPresses(VolumeUpLevel(Some(v)), n - 1)
  }

  function DownPresses(v: int, n: nat): int
    decreases n
  {
    if n == 0 then v else DownPresses(VolumeDownLevel(Some(v)), n - 1)
  }

  /** Repeated volume-up from a level in [0, 100] climbs by 20 per press and stops at 100. */
  lemma {:induction false} VolumeUpSaturates(v: int, n: nat)
    requires 0 <= v <= MAX_VOLUME
    ensures UpPresses(v, n) == if v + VOLUME_STEP * n < MAX_VOLUME then v + VOLUME_STEP * n else MAX_VOLUME
    ensures 0 <= UpPresses(v, n) <= MAX_VOLUME
    decreases n
  {
    if n > 0 {
      VolumeUpSaturates(VolumeUpLevel(Some(v)), n - 1);
    }
  }

  /** Repeated volume-down from a level in [0, 100] falls by 20 per press and stops at 0. */
  lemma {:induction false} VolumeDownSaturates(v: int, n: nat)
    requires 0 <= v <= MAX_VOLUME
    ensures DownPresses(v, n) == if v - VOLUME_STEP * n > 0 then v - VOLUME_STEP * n else 0
    ensures 0 <= DownPresses(v, n) <= MAX_VOLUME
    decreases n
  {
    if n > 0 {
      VolumeDownSaturates(VolumeDownLevel(Some(v)), n - 1);
    }
  }

  // Mute and unmute, as functions of the volume they read

  /** `muteVolume`'s request: volume 0, unless the current volume already is 0. */
  function MuteEffects(volume: Option<int>, s: SpotifyState, focused: bool, created: ApiHandle,
                       remote: Result<(), Reason>): (effects: seq<ClientEffect>)
    ensures effects == [] <==> volume == Some(0)
    ensures volume != Some(0) ==> effects == RemoteCall(s, focused, created, SetVolume(0), remote, false)
    ensures volume != Some(0) && HandleOf(s, focused).Some? ==> effects[0] == Remote(SetVolume(0))
  {
    if volume != Some(0) then RemoteCall(s, focused, created, SetVolume(0), remote, false) else []
  }

  /** JavaScript truthiness of the stored volume: defined and not 0. */
  predicate Truthy(v: Option<int>)
  {
    v.Some? && v.value != 0
  }

  /** `unmuteVolume`'s request: the remembered volume, if it is truthy. */
  function UnmuteEffects(prev: Option<int>, s: SpotifyState, focused: bool, created: ApiHandle,
                         remote: Result<(), Reason>): (effects: seq<ClientEffect>)
    ensures effects == [] <==> !Truthy(prev)
    ensures Truthy(prev) ==> effects == RemoteCall(s, focused, created, SetVolume(prev.value), remote, false)
    ensures Truthy(prev) && HandleOf(s, focused).Some? ==> effects[0] == Remote(SetVolume(prev.value))
  {
    if Truthy(prev) then RemoteCall(s, focused, created, SetVolume(prev.value), remote, false) else []
  }

  /** Muting at a non-zero level, then unmuting, sends that level back. */
  lemma MuteThenUnmuteRestores(v: int, s: SpotifyState, created: ApiHandle)
    requires v != 0 && HandleOf(s, true).Some?
    ensures MuteEffects(Some(v), s, true, created, Ok(())) == [Remote(SetVolume(0)), ScheduleQueryStatus]
    ensures UnmuteEffects(Some(v), s, true, created, Ok(())) == [Remote(SetVolume(v)), ScheduleQueryStatus]
  {
  }

  /** Muting when the volume is already 0 remembers 0, so a later unmute sends nothing. */
  lemma MuteWhileSilentForgetsLevel(s: SpotifyState, focused: bool, created: ApiHandle, remote: Result<(), Reason>)
    ensures MuteEffects(Some(0), s, focused, created, remote) == []
    ensures UnmuteEffects(Some(0), s, focused, created, remote) == []
  {
  }

  // The remote player object and the status built from it

  datatype Device = Device(isActive: bool, volumePercent: Option<int>)
  datatype PlayerItem = PlayerItem(name: string, album: Album, artists: seq<Artist>, trackNumber: int)
  datatype PlayerContext = PlayerContext(uri: string)
  datatype RemotePlayer = RemotePlayer(
    device: Device,
    repeatState: string,
    shuffleState: bool,
    progressMs: int,
    isPlaying: bool,
    item: PlayerItem,
    context: Option<PlayerContext>)

  /** The status the poll hands to the controller. */
  function StatusFromPlayer(p: RemotePlayer): (u: StatePatch)
    ensures u.isRunning == Some(p.device.isActive)
    ensures u.playerState.Some? && u.playerState.value.isRepeating == (p.repeatState != "off")
    ensures u.playerState.Some? && (u.playerState.value.state == Playing <==> p.isPlaying)
    ensures u.playerState.Some? && u.playerState.value.isShuffling == p.shuffleState
    ensures u.playerState.Some? && u.playerState.value.volume == p.device.volumePercent
    ensures u.playerState.Some? && u.playerState.value.position == p.progressMs
    ensures u.track == Some(TrackInfo(p.item.name, ArtistsToArtist(p.item.artists), p.item.album.name))
    ensures u.context.Some? && (u.context.value.Some? <==> p.context.Some?)
    ensures p.context.Some? ==> u.context == Some(Some(Context(p.context.value.uri, p.item.trackNumber)))
    ensures forall f: Field :: Present(u, f) <==> f in {IsRunningField, PlayerStateField, TrackField, ContextField}
  {
    EMPTY_PATCH.(
      isRunning := Some(p.device.isActive),
      playerState := Some(PlayerState(
        if p.isPlaying then Playing else Paused,
        p.progressMs,
        p.device.volumePercent,
        p.repeatState != "off",
        p.shuffleState)),
      track := Some(TrackInfo(p.item.name, ArtistsToArtist(p.item.artists), p.item.album.name)),
      context := Some(if p.context.Some? then Some(Context(p.context.value.uri, p.item.trackNumber)) else None))
  }

  // Toggles, as functions of the player state they read

  function RepeatMode(isRepeating: bool): (mode: string)
    ensures (mode != "off") == !isRepeating
  {
    if !isRepeating then "context" else "off"
  }

  /** The repeat mode the toggle sends, read back by the next status, is the opposite flag. */
  lemma ToggleRepeatFlips(p: RemotePlayer, isRepeating: bool)
    requires p.repeatState == RepeatMode(isRepeating)
    ensures StatusFromPlayer(p).playerState.value.isRepeating == !isRepeating
  {
  }

  /** The shuffle flag the toggle sends, read back by the next status, is the opposite flag. */
  lemma ToggleShuffleFlips(p: RemotePlayer, isShuffling: bool)
    requires p.shuffleState == !isShuffling
    ensures StatusFromPlayer(p).playerState.value.isShuffling == !isShuffling
  {
  }

  // The poll tick

  /** What `api.player.get()` settles to. */
  datatype Fetch = FetchFailed(reason: Reason) | NoPlayer | GotPlayer(player: RemotePlayer)

  class WebApiSpotifyClient {
    /** The volume remembered by the last mute; undefined before the first. */
    var prevVolume: Option<int>

    constructor ()
      ensures prevVolume == None
    {
      prevVolume := None;
    }

    /** `next()`, `previous()`, `play()`, `pause()`: awaited requests under the warning wrapper. */
    function Next(s: SpotifyState, focused: bool, created: ApiHandle, remote: Result<(), Reason>)
      : (effects: seq<ClientEffect>)
      ensures HandleOf(s, focused).None? ==> effects == GetApiEffects(s, focused, created) + [Warn(LOGIN_WARNING)]
      ensures HandleOf(s, focused).Some? ==> |effects| == 2 && effects[0] == Remote(NextTrack)
      ensures HandleOf(s, focused).Some? && remote.Ok? ==> effects[1] == ScheduleQueryStatus
      ensures HandleOf(s, focused).Some? && remote.Err? ==> effects[1] == Warn(FAILURE_PREFIX + MessageText(remote.error))
    {
      RemoteCall(s, focused, created, NextTrack, remote, true)
    }

    function Previous(s: SpotifyState, focused: bool, created: ApiHandle, remote: Result<(), Reason>)
      : (effects: seq<ClientEffect>)
      ensures HandleOf(s, focused).None? ==> effects == GetApiEffects(s, focused, created) + [Warn(LOGIN_WARNING)]
      ensures HandleOf(s, focused).Some? ==> |effects| == 2 && effects[0] == Remote(PreviousTrack)
      ensures HandleOf(s, focused).Some? && remote.Ok? ==> effects[1] == ScheduleQueryStatus
      ensures HandleOf(s, focused).Some? && remote.Err? ==> effects[1] == Warn(FAILURE_PREFIX + MessageText(remote.error))
    {
      RemoteCall(s, focused, created, PreviousTrack, remote, true)
    }

    function Play(s: SpotifyState, focused: bool, created: ApiHandle, remote: Result<(), Reason>)
      : (effects: seq<ClientEffect>)
      ensures HandleOf(s, focused).None? ==> effects == GetApiEffects(s, focused, created) + [Warn(LOGIN_WARNING)]
      ensures HandleOf(s, focused).Some? ==> |effects| == 2 && effects[0] == Remote(Resume)
      ensures HandleOf(s, focused).Some? && remote.Ok? ==> effects[1] == ScheduleQueryStatus
      ensures HandleOf(s, focused).Some? && remote.Err? ==> effects[1] == Warn(FAILURE_PREFIX + MessageText(remote.error))
    {
      RemoteCall(s, focused, created, Resume, remote, true)
    }

    function Pause(s: SpotifyState, focused: bool, created: ApiHandle, remote: Result<(), Reason>)
      : (effects: seq<ClientEffect>)
      ensures HandleOf(s, focused).None? ==> effects == GetApiEffects(s, focused, created) + [Warn(LOGIN_WARNING)]
      ensures HandleOf(s, focused).Some? ==> |effects| == 2 && effects[0] == Remote(PausePlayback)
      ensures HandleOf(s, focused).Some? && remote.Ok? ==> effects[1] == ScheduleQueryStatus
      ensures HandleOf(s, focused).Some? && remote.Err? ==> effects[1] == Warn(FAILURE_PREFIX + MessageText(remote.error))
    {
      RemoteCall(s, focused, created, PausePlayback, remote, true)
    }

    /** `playPause()`: pause exactly when the stored state is playing. */
    function PlayPause(s: SpotifyState, focused: bool, created: ApiHandle, remote: Result<(), Reason>)
      : (effects: seq<ClientEffect>)
      ensures HandleOf(s, focused).None? ==> effects == GetApiEffects(s, focused, created) + [Warn(LOGIN_WARNING)]
      ensures HandleOf(s, focused).Some? ==> |effects| == 2
      ensures HandleOf(s, focused).Some? ==> (effects[0] == Remote(PausePlayback) <==> s.playerState.state == Playing)
      ensures HandleOf(s, focused).Some? ==> (effects[0] == Remote(Resume) <==> s.playerState.state != Playing)
      ensures HandleOf(s, focused).Some? && remote.Ok? ==> effects[1] == ScheduleQueryStatus
      ensures HandleOf(s, focused).Some? && remote.Err? ==> effects[1] == Warn(FAILURE_PREFIX + MessageText(remote.error))
      ensures s.playerState.state == Playing ==> effects == Pause(s, focused, created, remote)
      ensures s.playerState.state != Playing ==> effects == Play(s, focused, created, remote)
    {
      if s.playerState.state == Playing then Pause(s, focused, created, remote) else Play(s, focused, created, remote)
    }

    /** `volumeUp()`: a floating request for min(volume + 20, 100). */
    function VolumeUp(s: SpotifyState, focused: bool, created: ApiHandle, remote: Result<(), Reason>)
      : (effects: seq<ClientEffect>)
      ensures HandleOf(s, focused).None? ==> effects == GetApiEffects(s, focused, created) + [Warn(LOGIN_WARNING)]
      ensures HandleOf(s, focused).Some? ==>
        |effects| == 2 && effects[0] == Remote(SetVolume(VolumeUpLevel(s.playerState.volume)))
      ensures HandleOf(s, focused).Some? && remote.Err? ==> effects[1] == UnhandledRejection(remote.error)
      ensures HandleOf(s, focused).Some? && remote.Ok? ==> effects[1] == ScheduleQueryStatus
    {
      RemoteCall(s, focused, created, SetVolume(VolumeUpLevel(s.playerState.volume)), remote, false)
    }

    /** `volumeDown()`: a floating request for max(volume - 20, 0). */
    function VolumeDown(s: SpotifyState, focused: bool, created: ApiHandle, remote: Result<(), Reason>)
      : (effects: seq<ClientEffect>)
      ensures HandleOf(s, focused).None? ==> effects == GetApiEffects(s, focused, created) + [Warn(LOGIN_WARNING)]
      ensures HandleOf(s, focused).Some? ==>
        |effects| == 2 && effects[0] == Remote(SetVolume(VolumeDownLevel(s.playerState.volume)))
      ensures HandleOf(s, focused).Some? && remote.Err? ==> effects[1] == UnhandledRejection(remote.error)
      ensures HandleOf(s, focused).Some? && remote.Ok? ==> effects[1] == ScheduleQueryStatus
    {
      RemoteCall(s, focused, created, SetVolume(VolumeDownLevel(s.playerState.volume)), remote, false)
    }

    /** `toggleRepeating()`: 'context' when not repeating, 'off' when repeating. */
    function ToggleRepeating(s: SpotifyState, focused: bool, created: ApiHandle, remote: Result<(), Reason>)
      : (effects: seq<ClientEffect>)
      ensures HandleOf(s, focused).None? ==> effects == GetApiEffects(s, focused, created) + [Warn(LOGIN_WARNING)]
      ensures HandleOf(s, focused).Some? ==> |effects| == 2
      ensures HandleOf(s, focused).Some? && !s.playerState.isRepeating ==> effects[0] == Remote(SetRepeat("context"))
      ensures HandleOf(s, focused).Some? && s.playerState.isRepeating ==> effects[0] == Remote(SetRepeat("off"))
      ensures HandleOf(s, focused).Some? && remote.Ok? ==> effects[1] == ScheduleQueryStatus
      ensures HandleOf(s, focused).Some? && remote.Err? ==> effects[1] == UnhandledRejection(remote.error)
    {
      RemoteCall(s, focused, created, SetRepeat(RepeatMode(s.playerState.isRepeating)), remote, false)
    }

    /** `toggleShuffling()`: the negated shuffle flag. */
    function ToggleShuffling(s: SpotifyState, focused: bool, created: ApiHandle, remote: Result<(), Reason>)
      : (effects: seq<ClientEffect>)
      ensures HandleOf(s, focused).None? ==> effects == GetApiEffects(s, focused, created) + [Warn(LOGIN_WARNING)]
      ensures HandleOf(s, focused).Some? ==>
        |effects| == 2 && effects[0] == Remote(SetShuffle(!s.playerState.isShuffling))
      ensures HandleOf(s, focused).Some? && remote.Ok? ==> effects[1] == ScheduleQueryStatus
      ensures HandleOf(s, focused).Some? && remote.Err? ==> effects[1] == UnhandledRejection(remote.error)
    {
      RemoteCall(s, focused, created, SetShuffle(!s.playerState.isShuffling), remote, false)
    }

    /** `muteVolume()`: remember the current volume, then request 0 unless it already is 0. */
    method MuteVolume(s: SpotifyState, focused: bool, created: ApiHandle, remote: Result<(), Reason>)
      returns (effects: seq<ClientEffect>)
      modifies this
      ensures prevVolume == s.playerState.volume
      ensures effects == MuteEffects(s.playerState.volume, s, focused, created, remote)
    {
      prevVolume := s.playerState.volume;
      effects := MuteEffects(prevVolume, s, focused, created, remote);
    }

    /** `unmuteVolume()`: request the remembered volume if it is truthy. */
    method UnmuteVolume(s: SpotifyState, focused: bool, created: ApiHandle, remote: Result<(), Reason>)
      returns (effects: seq<ClientEffect>)
      ensures effects == UnmuteEffects(prevVolume, s, focused, created, remote)
    {
      effects := UnmuteEffects(prevVolume, s, focused, created, remote);
    }

    /** `muteUnmuteVolume()`: unmute exactly when the store says muted. */
    method MuteUnmuteVolume(s: SpotifyState, focused: bool, created: ApiHandle, remote: Result<(), Reason>)
      returns (effects: seq<ClientEffect>)
      modifies this
      ensures IsMuted(s) ==>
        prevVolume == old(prevVolume) && effects == UnmuteEffects(prevVolume, s, focused, created, remote)
      ensures !IsMuted(s) ==>
        prevVolume == s.playerState.volume && effects == MuteEffects(prevVolume, s, focused, created, remote)
    {
      if s.playerState.volume == Some(0) {
        effects := UnmuteVolume(s, focused, created, remote);
      } else {
        effects := MuteVolume(s, focused, created, remote);
      }
    }

    /**
     * One run of `_poll` within the session: unless the session is already
     * canceled, `getApi` runs against the store (and may dispatch SAVE_API);
     * `fetched` is how the player request then settles, `canceledMeanwhile`
     * whether the controller canceled the session while that request was in
     * flight. With no handle nothing is fetched and the tick only re-arms.
     */
    method PollTick(session: PollSession, store: SpotifyStore, focused: bool, created: ApiHandle,
                    fetched: Fetch, canceledMeanwhile: bool) returns (t: Tick)
      requires session.Valid()
      modifies session, session.promise, store
      ensures session.Valid()
      ensures old(session.canceled) ==>
        && t == Tick(None, false) && session.promise.outcome == old(session.promise.outcome)
        && store.state == old(store.state) && store.dispatched == old(store.dispatched)
      ensures !old(session.canceled) ==>
        && store.dispatched == old(store.dispatched) + LookupApi(old(store.state), focused, created).dispatched
        && store.state == ReduceAll(old(store.state), LookupApi(old(store.state), focused, created).dispatched)
      ensures !old(session.canceled) && HandleOf(old(store.state), focused).None? ==>
        t == Tick(None, true) && session.promise.outcome == Pending
      ensures !old(session.canceled) && HandleOf(old(store.state), focused).Some? ==>
        && (t.reschedule <==> fetched.GotPlayer?)
        && (t.delivered.Some? <==> fetched.GotPlayer? && !canceledMeanwhile)
        && (t.delivered.Some? ==> t.delivered.value == StatusFromPlayer(fetched.player))
        && (canceledMeanwhile ==> session.promise.outcome == Rejected(CANCELED_REASON))
        && (!canceledMeanwhile && fetched.NoPlayer? ==> session.promise.outcome == Rejected(NOT_RUNNING_REASON))
        && (!canceledMeanwhile && fetched.FetchFailed? ==> session.promise.outcome == Rejected(fetched.reason))
        && (!canceledMeanwhile && fetched.GotPlayer? ==> session.promise.outcome == Pending)
    {
      if session.canceled {
        return Tick(None, false);
      }
      var api := GetSpotifyWebApi(store, focused, created);
      if api.None? {
        return Tick(None, true);
      }
      if canceledMeanwhile {
        session.Cancel();
      }
      match fetched {
        case FetchFailed(e) =>
          session.Reject(e);
          t := Tick(None, false);
        case NoPlayer =>
          session.Reject(NOT_RUNNING_REASON);
          t := Tick(None, false);
        case GotPlayer(p) =>
          if !session.canceled {
            t := Tick(Some(StatusFromPlayer(p)), true);
          } else {
            t := Tick(None, true);
          }
      }
    }
  }

  /** Mute at a level, then mute-unmute once the store reports 0: the level is sent back. */
  method MuteUnmuteRoundTrip(client: WebApiSpotifyClient, s: SpotifyState, created: ApiHandle)
    returns (muted: seq<ClientEffect>, restored: seq<ClientEffect>)
    requires Truthy(s.playerState.volume) && HandleOf(s, true).Some?
    modifies client
    ensures muted == [Remote(SetVolume(0)), ScheduleQueryStatus]
    ensures restored == [Remote(SetVolume(s.playerState.volume.value)), ScheduleQueryStatus]
    ensures client.prevVolume == s.playerState.volume
  {
    muted := client.MuteUnmuteVolume(s, true, created, Ok(()));
    var silent := s.(playerState := s.playerState.(volume := Some(0)));
    restored := client.MuteUnmuteVolume(silent, true, created, Ok(()));
  }
}
