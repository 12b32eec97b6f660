/**
 * `OsxSpotifyClient` (src/spotify/osx-spotify-client.ts): every control is
 * one AppleScript bridge command whose completion callback queries the
 * status; the poll tick is gated on the editor window's focus; the status is
 * composed from five bridge queries. The bridge's answers and the focus flag
 * are parameters.
 */
module OsxClient {
  import opened Wrappers
  import opened Consts
  import opened State
  import opened Utils
  import opened Selector
  import opened CancelablePromises
  import opened PollSessions

  /** The commands of the AppleScript bridge the controls use. */
  datatype BridgeCommand =
    | NextCommand | PreviousCommand | PlayCommand | PauseCommand | PlayPauseCommand
    | MuteVolumeCommand | UnmuteVolumeCommand | VolumeUpCommand | VolumeDownCommand
    | ToggleRepeatingCommand | ToggleShufflingCommand

  function CommandName(c: BridgeCommand): string
  {
    match c
    case NextCommand => "next"
    case PreviousCommand => "previous"
    case PlayCommand => "play"
    case PauseCommand => "pause"
    case PlayPauseCommand => "playPause"
    case MuteVolumeCommand => "muteVolume"
    case UnmuteVolumeCommand => "unmuteVolume"
    case VolumeUpCommand => "volumeUp"
    case VolumeDownCommand => "volumeDown"
    case ToggleRepeatingCommand => "toggleRepeating"
    case ToggleShufflingCommand => "toggleShuffling"
  }

  /** The client's control methods. */
  datatype ControlMethod =
    | Next | Previous | Play | Pause | PlayPause
    | MuteVolume | UnmuteVolume | MuteUnmuteVolume | VolumeUp | VolumeDown
    | ToggleRepeating | ToggleShuffling

  function MethodName(m: ControlMethod): string
  {
    match m
    case Next => "next"
    case Previous => "previous"
    case Play => "play"
    case Pause => "pause"
    case PlayPause => "playPause"
    case MuteVolume => "muteVolume"
    case UnmuteVolume => "unmuteVolume"
    case MuteUnmuteVolume => "muteUnmuteVolume"
    case VolumeUp => "volumeUp"
    case VolumeDown => "volumeDown"
    case ToggleRepeating => "toggleRepeating"
    case ToggleShuffling => "toggleShuffling"
  }

  /** A bridge command together with its completion callback, which is always `queryStatus`. */
  datatype BridgeCall = BridgeCall(command: BridgeCommand, thenQueryStatus: bool)

  /**
   * The control methods: each calls the same-named bridge command, except
   * `muteUnmuteVolume`, which unmutes exactly when the store says muted.
   */
  function Control(m: ControlMethod, s: SpotifyState): (call: BridgeCall)
    ensures call.thenQueryStatus
    ensures m != MuteUnmuteVolume ==> CommandName(call.command) == MethodName(m)
    ensures m == MuteUnmuteVolume ==> (call.command == UnmuteVolumeCommand <==> IsMuted(s))
    ensures m == MuteUnmuteVolume ==> (call.command == MuteVolumeCommand <==> !IsMuted(s))
  {
    var command := match m
      case Next => NextCommand
      case Previous => PreviousCommand
      case Play => PlayCommand
      case Pause => PauseCommand
      case PlayPause => PlayPauseCommand
      case MuteVolume => MuteVolumeCommand
      case UnmuteVolume => UnmuteVolumeCommand
      case MuteUnmuteVolume => if IsMuted(s) then UnmuteVolumeCommand else MuteVolumeCommand
      case VolumeUp => VolumeUpCommand
      case VolumeDown => VolumeDownCommand
      case ToggleRepeating => ToggleRepeatingCommand
      case ToggleShuffling => ToggleShufflingCommand;
    BridgeCall(command, true)
  }

  /** Distinct bridge commands have distinct names, so "same-named" picks exactly one. */
  lemma {:induction false} CommandNamesDistinct(c1: BridgeCommand, c2: BridgeCommand)
    ensures CommandName(c1) == CommandName(c2) <==> c1 == c2
  {
    if c1 != c2 {
      var n1, n2 := CommandName(c1), CommandName(c2);
      assert n1 != n2 by {
        if |n1| == |n2| {
          assert n1[0] != n2[0] || n1[|n1| - 1] != n2[|n2| - 1] || n1[6] != n2[6];
        }
      }
    }
  }

  // getStatus

  /** What the bridge's `getState` reports. */
  datatype BridgeState = BridgeState(state: Playback, position: int, volume: int)
  /** What the bridge's `getTrack` reports (the fields the status uses). */
  datatype BridgeTrack = BridgeTrack(name: string, artist: string, album: string)

  /** The rejection of `getStatus` when the bridge says Spotify is not running. */
  const NOT_RUNNING_TEXT: string := "Spotify isn't running"

  /** The first rejection among the four parallel queries, if any. */
  function FirstFailure(state: Result<BridgeState, Reason>, track: Result<BridgeTrack, Reason>,
                        repeating: Result<bool, Reason>, shuffling: Result<bool, Reason>): Option<Reason>
  {
    if state.Err? then Some(state.error)
    else if track.Err? then Some(track.error)
    else if repeating.Err? then Some(repeating.error)
    else if shuffling.Err? then Some(shuffling.error)
    else None
  }

  /**
   * `getStatus()`: `isRunning` first; if it reports true, the four other
   * queries together; the status is the bridge state extended with the two
   * flags, the bridge track, and `isRunning` true.
   */
  function GetStatus(running: Result<bool, Reason>, state: Result<BridgeState, Reason>,
                     track: Result<BridgeTrack, Reason>, repeating: Result<bool, Reason>,
                     shuffling: Result<bool, Reason>): (r: Result<StatePatch, Reason>)
    ensures running.Err? ==> r == Err(running.error)
    ensures running == Ok(false) ==> r == Err(Text(NOT_RUNNING_TEXT))
    ensures running == Ok(true) && state.Ok? && track.Ok? && repeating.Ok? && shuffling.Ok? ==>
      && r.Ok? && r.value.isRunning == Some(true)
      && r.value.playerState == Some(PlayerState(state.value.state, state.value.position, Some(state.value.volume),
                                                 repeating.value, shuffling.value))
      && r.value.track == Some(TrackInfo(track.value.name, track.value.artist, track.value.album))
      && (forall f: Field :: Present(r.value, f) <==> f in {IsRunningField, PlayerStateField, TrackField})
    ensures running == Ok(true) && !(state.Ok? && track.Ok? && repeating.Ok? && shuffling.Ok?) ==>
      && r.Err?
      && ((state.Err? && r.error == state.error) || (track.Err? && r.error == track.error)
          || (repeating.Err? && r.error == repeating.error) || (shuffling.Err? && r.error == shuffling.error))
  {
    match running
    case Err(e) => Err(e)
    case Ok(isRunning) =>
      if !isRunning then Err(Text(NOT_RUNNING_TEXT))
      else match FirstFailure(state, track, repeating, shuffling)
        case Some(e) => Err(e)
        case None =>
          Ok(EMPTY_PATCH.(
            playerState := Some(PlayerState(state.value.state, state.value.position, Some(state.value.volume),
                                            repeating.value, shuffling.value)),
            track := Some(TrackInfo(track.value.name, track.value.artist, track.value.album)),
            isRunning := Some(true)))
  }

  /**
   * The bridge's "not running" is neither sentinel: the controller neither
   * ignores it as a cancellation nor treats it differently from any other failure.
   */
  lemma BridgeNotRunningIsPlainFailure()
    ensures Text(NOT_RUNNING_TEXT) != CANCELED_REASON
    ensures Text(NOT_RUNNING_TEXT) != NOT_RUNNING_REASON
  {
  }

  // pollStatus

  /**
   * One run of `_poll` within the session: `focused` is the editor's focus
   * flag, `status` how `getStatus()` settles, `canceledMeanwhile` whether the
   * controller canceled the session while it was in flight.
   */
  method PollTick(session: PollSession, focused: bool, status: Result<StatePatch, Reason>, canceledMeanwhile: bool)
    returns (t: Tick)
    requires session.Valid()
    modifies session, session.promise
    ensures session.Valid()
    ensures old(session.canceled) ==> t == Tick(None, false) && session.promise.outcome == old(session.promise.outcome)
    ensures !old(session.canceled) && !focused ==> t == Tick(None, true) && session.promise.outcome == Pending
    ensures !old(session.canceled) && focused ==>
      && (t.reschedule <==> status.Ok?)
      && (status.Ok? ==> t.delivered == Some(status.value))
      && (status.Err? ==> t.delivered == None)
      && (canceledMeanwhile ==> session.promise.outcome == Rejected(CANCELED_REASON))
      && (!canceledMeanwhile && status.Err? ==> session.promise.outcome == Rejected(status.error))
      && (!canceledMeanwhile && status.Ok? ==> session.promise.outcome == Pending)
  {
    if session.canceled {
      return Tick(None, false);
    }
    if !focused {
      return Tick(None, true);
    }
    if canceledMeanwhile {
      session.Cancel();
    }
    match status {
      case Ok(st) =>
        t := Tick(Some(st), true);
      case Err(e) =>
        session.Reject(e);
        t := Tick(None, false);
    }
  }
}
