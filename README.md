# vscode-spotify state layer, in Dafny

This project models the core of the VS Code Spotify extension: its redux state
tree, the root reducer and the action catalog, the saga handlers that react to
actions, the status controller that polls the player and retries, the two
playback clients (Web API and the macOS AppleScript bridge), the backend
choice, the configuration getters, the API-handle helpers and the
catch-and-warn decorator. Timers, the editor's focus flag, `os.platform()`, the
workspace configuration and every remote or bridge answer are parameters.
A handler that talks to the outside world returns the ordered trace of what it
does: dispatches, warnings, remote calls and status queries. The dispatches
include the SAVE_API that `getApi` (src/auth/api/api.ts:10-35) issues when it
builds a handle. That call still returns the handle cached before it, so the
first `getApi` call after sign-in returns undefined: a command or a load making
that call shows the login warning, while a Web API poll tick only skips its
fetch.

Files, one module each:

- `wrappers.dfy`: Option and Result.
- `consts.dfy`: the two sentinel rejection reasons.
- `state.dfy`: the state tree and its partial updates. `DEFAULT_STATE` and
  `DUMMY_PLAYLIST` are abstract constants, because src/state/state.ts is not
  part of this model.
- `utils.dfy`, `actions.dfy`, `reducer.dfy`: pure code, written as functions
  and lemmas.
- `cancelable.dfy`, `poll_session.dfy`: the cancelable promise and the
  polling session. Both are classes, because their state changes in place.
- `store.dfy`: the redux store, as a class.
- `controller.dfy`: `SpotifyStatusController`, as a class whose fields are
  the retry counter, the active session and the armed retry timers.
- `saga.dfy`: the saga handlers, as pure trace functions. `signIn$` is a
  method with a disposable server object.
- `web_api_client.dfy`, `osx_client.dfy`: the playback clients.
- `client_select.dfy`, `config.dfy`, `api.dfy`, `with_error.dfy`,
  `selector.dfy`: the small rules around the core.

## Where the code and its documentation differ

The model follows the code:

- `playTrack$` (src/saga/saga.ts:139-149) queries the status only after the
  remote play call has succeeded, or when there is no handle. If the call
  rejects, the rejection escapes the handler and no query follows. The
  documented behaviour is an unconditional query.
- The empty-list placeholder is substituted by the reducer
  (src/reducers/root-reducer.ts:25-29), not by the saga.
- The placeholder guard lives in `loadTracks$`, not in
  `loadTracksIfNotLoaded$` (src/saga/saga.ts:107-123).
- A failed sign-in shows an information message, not a warning
  (src/saga/saga.ts:162).
- `dispose()` cancels the active session but does not clear a retry timer that
  is already armed (src/spotify-status-controller.ts:44-46, 66).
- The macOS tick delivers a fetched status even when the session was canceled
  while the bridge was answering. The Web API tick checks `canceled` first.
- The bridge client rejects with the plain string "Spotify isn't running",
  not with the `not_running` sentinel (src/spotify/osx-spotify-client.ts:97).
- The warning text of `withErrorAsync` is `'Failed to perform operation ' +
  e.message`. For a string rejection this reads "... undefined", because the
  `|| e` fallback never applies.

## Model

| member | source | states |
|---|---|---|
| Consts.SentinelsDistinct | src/consts/consts.ts:4-5 | the canceled and not-running sentinels differ from each other and from every Error rejection |
| Utils.ArtistsToArtist | src/utils/utils.ts:3-5 | no artists give "", one artist gives its name, more give the first name, ", ", then the rest joined |
| Utils.ArtistsToArtistAppend | src/utils/utils.ts:3-5 | the artist string of a concatenation is the two artist strings joined by one ", " |
| Utils.UpdateState | src/utils/utils.ts:7-9 | every field the update carries takes the update's value; every field it does not carry keeps the old value; an empty update is the identity |
| Utils.UpdateStateOverrides | src/utils/utils.ts:7-9 | a field the update carries no longer depends on the old state |
| Utils.MergePatchPresent | src/utils/utils.ts:7-9 | the merge of two updates carries exactly the fields either one carries |
| Utils.UpdateStateCompose | src/utils/utils.ts:7-9 | two successive updates equal one update with the merged patch |
| Utils.UpdateStateIdempotent | src/utils/utils.ts:7-9 | applying the same update twice equals applying it once |
| Actions.TagRoundTrip | src/actions/actions.ts:28-44 | reading a kind's tag string back yields that kind |
| Actions.TagsDistinct | src/actions/actions.ts:28-44 | two kinds have the same tag exactly when they are the same kind, so the fifteen tags are pairwise distinct |
| Actions.UpdateState | src/actions/actions.ts:49-54 | tag "Update State", payload is the update |
| Actions.LoadPlaylists | src/actions/actions.ts:56-60 | tag "Load Playlists", no payload |
| Actions.LoadPlaylistsSuccess | src/actions/actions.ts:62-67 | tag "Load Playlists Success", payload is the list unchanged |
| Actions.SelectPlaylist | src/actions/actions.ts:69-74 | tag "Select Playlists", payload is the playlist |
| Actions.SelectTrack | src/actions/actions.ts:76-81 | tag "Select Track", payload is the track |
| Actions.SelectCurrentTrack | src/actions/actions.ts:83-87 | tag "Select Current Track", no payload |
| Actions.LoadTracksIfNotLoaded | src/actions/actions.ts:89-94 | tag "Load Tracks If Not Loaded", payload is the playlist |
| Actions.LoadTracks | src/actions/actions.ts:96-101 | tag "Load Tracks", payload is the playlist |
| Actions.LoadTracksSuccess | src/actions/actions.ts:103-108 | tag "Load Tracks Success", payload passed through |
| Actions.LoadTracksForSelectedPlaylist | src/actions/actions.ts:110-114 | tag "Load Tracks For Selected Playlist", no payload |
| Actions.PlayTrack | src/actions/actions.ts:116-124 | tag "Play Track", payload holds the given offset and playlist |
| Actions.SignIn | src/actions/actions.ts:126-130 | tag "Sign In", no payload |
| Actions.SignInSuccess | src/actions/actions.ts:132-138 | tag "Sign In Success", payload holds the two tokens |
| Actions.SignOut | src/actions/actions.ts:140-144 | tag "Sign Out", no payload |
| Actions.SaveApi | src/actions/actions.ts:146-151 | tag "Save Api", payload is the handle |
| Actions.LoadTracksVariantsDiffer | src/actions/actions.ts:89-101 | the two track-loading actions carry the same playlist under different tags |
| Actions.TypeTagDeterminesKind | src/actions/actions.ts:28-44 | an action's `type` string identifies its kind: a catalog action's tag parses back to its kind, a foreign action's tag to none |
| Reducer.UpdateLogin | src/reducers/root-reducer.ts:14-20 | the new login state holds exactly the payload's access and refresh tokens |
| Reducer.RootReducer | src/reducers/root-reducer.ts:8-57 | an action the reducer has no case for returns the state unchanged |
| Reducer.ReduceForeignIdentity | src/reducers/root-reducer.ts:55-56 | an action whose tag is outside the catalog leaves the state as it is |
| Reducer.ReduceUpdateState | src/reducers/root-reducer.ts:10-12 | UPDATE_STATE is exactly the shallow merge: each of the ten carried fields takes the update's value outright (the whole player state, for one) and every other field is kept |
| Reducer.ReduceSignInSuccess | src/reducers/root-reducer.ts:14-20 | SIGN_IN_SUCCESS sets both tokens and changes no other top-level field |
| Reducer.ReduceSignOut | src/reducers/root-reducer.ts:22-23 | SIGN_OUT yields DEFAULT_STATE from any state and is idempotent |
| Reducer.ReduceLoadPlaylistsSuccess | src/reducers/root-reducer.ts:25-29 | an empty list stores the placeholder alone; a non-empty list is stored as is; the list is never empty; nothing else changes |
| Reducer.ReduceLoadTracksSuccess | src/reducers/root-reducer.ts:43-47 | the playlist's id maps to the tracks, every other key keeps its tracks, no other field changes |
| Reducer.ReduceSelections | src/reducers/root-reducer.ts:31-53 | SELECT_PLAYLIST, SELECT_TRACK and SAVE_API each set their own field and change no other |
| Reducer.ReduceAllAppend | src/reducers/root-reducer.ts:8-57 | dispatching xs and then ys is dispatching xs + ys |
| Reducer.SignOutForgetsHistory | src/reducers/root-reducer.ts:22-23 | after a sign-out only the actions that follow it determine the state |
| CancelablePromises.Settle | src/utils/utils.ts:16-28 | a settled promise ignores every later call; on a pending one, resolve(v) gives Resolved(v), reject(e) gives Rejected(e) and cancel gives Rejected with the canceled sentinel |
| CancelablePromises.SettledIsFinal | src/utils/utils.ts:21-26 | once settled, no sequence of resolve, reject or cancel changes the outcome |
| CancelablePromises.FirstSettlementWins | src/utils/utils.ts:21-26 | from pending, the first call alone decides the outcome |
| CancelablePromises.CancelPendingRejects | src/utils/utils.ts:22-24 | cancel on a pending promise rejects it with the canceled sentinel, whatever follows |
| CancelablePromises.CancelablePromise.constructor | src/utils/utils.ts:16-28 | the executor's resolve and reject calls are applied during creation, before the handle exists |
| CancelablePromises.CancelablePromise.Resolve | src/utils/utils.ts:25 | a pending promise becomes resolved with the given value; a settled one is unchanged |
| CancelablePromises.CancelablePromise.Reject | src/utils/utils.ts:25 | a pending promise becomes rejected with the given reason; a settled one is unchanged |
| CancelablePromises.CancelablePromise.Cancel | src/utils/utils.ts:22-24 | cancel rejects a pending promise with the sentinel and leaves a settled one unchanged |
| PollSessions.PollSession.constructor | src/spotify/web-api-spotify-client.ts:91-94 | a new session is pending and not canceled |
| PollSessions.PollSession.Reject | src/spotify/web-api-spotify-client.ts:145-148 | the rejection settles a pending session; the `canceled` flag is set exactly when the promise is rejected, and the promise never resolves |
| PollSessions.PollSession.Cancel | src/spotify/web-api-spotify-client.ts:145-148 | canceling a pending session rejects it with the sentinel and sets `canceled` |
| Store.SpotifyStore.constructor | src/store/store.ts:31-35 | the store starts at the given state with nothing dispatched |
| Store.SpotifyStore.Dispatch | src/store/store.ts:22-35 | the new state is the root reducer applied to the old state and the action; the action is logged |
| Selector.IsMutedMeansZeroVolume | src/store/selector.ts:6-8 | muted exactly when the last volume is 0; an unknown volume is not muted |
| Selector.IsMutedReadsOnlyVolume | src/store/selector.ts:7 | two states with the same volume agree on `isMuted` |
| SpotifyClients.IsWebApiSpotifyClient | src/spotify/spotify-client.ts:15-18 | forced means Web API on every platform; unforced means Web API exactly when the platform is neither darwin nor linux |
| SpotifyClients.GetSpotifyClient | src/spotify/spotify-client.ts:30-45 | Web API exactly when the predicate holds, OSX exactly for unforced darwin, Linux exactly for unforced linux; the last fallback is unreachable |
| Config.ShowKey | src/config/spotify-config.ts:12-14 | the key is "show", then the id's first character upper-cased, then the rest of the id |
| Config.IsButtonToBeShown | src/config/spotify-config.ts:12-14 | the stored flag under the show key, false when unset; an empty id fails |
| Config.GetButtonPriority | src/config/spotify-config.ts:16-19 | `priorityBase` plus `<id>Priority`: the sum of both stored numbers when both are set, each 0 when unset |
| Config.GetStatusCheckInterval | src/config/spotify-config.ts:21-28 | for the Web API client, the maximum of the configured value and 5000; otherwise the configured value; 5000 when unset |
| Config.WebApiIntervalFloor | src/config/spotify-config.ts:21-28 | whenever the factory picks the Web API client, the poll interval is at least 5000 ms |
| Config.GetLyricsServerUrl | src/config/spotify-config.ts:30-32 | the stored `lyricsServerUrl`; "" when unset |
| Config.GetAuthServerUrl | src/config/spotify-config.ts:34-36 | the stored `authServerUrl`; "" when unset |
| Config.GetSpotifyApiUrl | src/config/spotify-config.ts:38-40 | the stored `spotifyApiUrl`; "" when unset |
| Config.OpenPanelLyrics | src/config/spotify-config.ts:42-44 | the stored `openPanelLyrics`; 1 when unset |
| Config.GetTrackInfoFormat | src/config/spotify-config.ts:46-48 | the stored `trackInfoFormat`; "" when unset |
| Config.GetForceWebApiImplementation | src/config/spotify-config.ts:50-52 | the stored `forceWebApiImplementation`; false when unset |
| Config.GetEnableLogs | src/config/spotify-config.ts:54-56 | the stored `enableLogs`; false when unset |
| Config.GetTrackInfoClickBehaviour | src/config/spotify-config.ts:58-60 | the stored `trackInfoClickBehaviour`; "focus_song" when unset |
| WithError.WarningText | src/actions/with-error-async.ts:13 | the warning is always the prefix followed by `e.message`; the `|| e` fallback is dead |
| WithError.WithErrorAsync | src/actions/with-error-async.ts:5-18 | the original receives the arguments unchanged; a result passes through with no warning; a failure yields undefined and exactly one warning |
| Api.LookupApi | src/auth/api/api.ts:10-35 | logged out or unfocused: undefined and no dispatch; otherwise the handle cached before the call is returned, and exactly one SAVE_API of a new handle is dispatched when none is cached; a returned handle never comes with a dispatch |
| Api.GetSpotifyWebApi | src/auth/api/api.ts:10-35 | returns what the lookup returns and dispatches its actions into the store |
| Api.HandleServedOnNextCall | src/auth/api/api.ts:25-34 | the first call without a cached handle returns undefined; the next call returns the saved handle without dispatching |
| Api.RefreshCallback | src/auth/api/api.ts:30 | the refresh dispatches SIGN_IN_SUCCESS with the new access token and the captured refresh token |
| Api.RefreshKeepsHandle | src/auth/api/api.ts:30 | after a refresh the cached handle is kept and the login holds the new access token |
| Api.WithApi | src/auth/api/api.ts:37-46 | with a handle, the function's result and no warning; without one, undefined and the login warning, and the function is not called |
| StatusController.OnDelivered | src/spotify-status-controller.ts:36-39 | a delivered status is dispatched as UPDATE_STATE and the counter resets to 0 |
| StatusController.OnRejection | src/spotify-status-controller.ts:48-68 | a cancellation changes nothing; any other rejection reschedules, and degrades exactly when the counter reaches 5; the counter stays below 5 |
| StatusController.ConsecutiveFailures | src/spotify-status-controller.ts:53-66 | n consecutive failures from counter c leave (c + n) mod 5, dispatch one degraded snapshot per fifth failure and re-arm n times |
| StatusController.FiveFailuresDegradeOnce | src/spotify-status-controller.ts:55-65 | four failures from 0 dispatch nothing; the fifth dispatches the snapshot once and resets to 0 |
| StatusController.CancellationsIgnored | src/spotify-status-controller.ts:53 | canceled rejections leave the counter, the dispatches and the timers alone |
| StatusController.SuccessBeforeFifthFailure | src/spotify-status-controller.ts:34-68 | a status delivered before the fifth failure resets the counter and nothing degrades |
| StatusController.DegradedSnapshot | src/spotify-status-controller.ts:56-63 | after the snapshot the player is not running, paused at 0, muted, with an empty track; nothing else changes |
| StatusController.SpotifyStatusController.constructor | src/spotify-status-controller.ts:27-28 | the counter starts at 0, the threshold is 5, and no session is active |
| StatusController.SpotifyStatusController.CancelPreviousPoll | src/spotify-status-controller.ts:70-74 | cancels the stored session if there is one, and does nothing otherwise |
| StatusController.SpotifyStatusController.QueryStatus | src/spotify-status-controller.ts:34-42 | the previous session is canceled first, then a fresh pending session is stored; the counter and timers are unchanged |
| StatusController.SpotifyStatusController.OnStatus | src/spotify-status-controller.ts:36-39 | the status is dispatched into the store and the counter resets |
| StatusController.SpotifyStatusController.ClearState | src/spotify-status-controller.ts:48-68 | counter, dispatches and timers change as the rejection step prescribes; the counter stays below 5 |
| StatusController.SpotifyStatusController.FireTimer | src/spotify-status-controller.ts:66 | an armed retry fires `queryStatus` for the client that armed it and is removed |
| StatusController.SpotifyStatusController.Dispose | src/spotify-status-controller.ts:44-46 | cancels the active session, so a pending one is rejected with the canceled sentinel; the counter and the armed timers are untouched |
| StatusController.SupersededSessionIsIgnored | src/spotify-status-controller.ts:34-53 | a second query cancels the first session, whose canceled rejection then leaves the counter, the timers and the store unchanged |
| StatusController.FiveFailuresScenario | src/spotify-status-controller.ts:48-68 | five failed sessions from a fresh controller dispatch exactly one degraded snapshot, reset the counter and arm five retries |
| Saga.CallRemote | src/saga/saga.ts:125-132 | first the SAVE_API that `getApi` may dispatch; then, without a handle, only the login warning; with one, the remote call, then the continuation on success or the escaping rejection |
| Saga.LoadPlaylists | src/saga/saga.ts:68-77 | the dispatched actions are `getApi`'s SAVE_API, if any, then LOAD_PLAYLISTS_SUCCESS with the fetched list exactly when there is a handle and the fetch resolves |
| Saga.FirstLoadSavesHandleThenWarns | src/auth/api/api.ts:25-34 | logged in and focused with no cached handle, the first load dispatches SAVE_API and still shows the login warning; the next load finds the saved handle and fetches |
| Saga.LoadedPlaylistsNeverEmpty | src/saga/saga.ts:68-77 | with a handle, after a successful load the store's playlist list is non-empty, holding the list or the placeholder |
| Saga.FindTrackFrom | src/saga/saga.ts:88-90 | the first index whose track matches on name, album and joined artists, or none if no track matches |
| Saga.FindPlaylistFrom | src/saga/saga.ts:85-98 | the first playlist whose cached tracks hold a match, or none |
| Saga.MatchIn | src/saga/saga.ts:86-95 | the found track is one of the playlist's cached tracks and matches the playing track |
| Saga.SelectCurrentTrack | src/saga/saga.ts:79-105 | nothing is dispatched exactly when no cached track matches; otherwise SELECT_PLAYLIST of the first matching playlist, then SELECT_TRACK of its first match |
| Saga.SelectionMatchesPlayingTrack | src/saga/saga.ts:100-103 | after these dispatches the selected track matches the playing track and belongs to the selected playlist's cached tracks |
| Saga.LoadTracksIfNotLoaded | src/saga/saga.ts:107-117 | one LOAD_TRACKS is dispatched exactly when a playlist is given and its id is not cached |
| Saga.LoadTracks | src/saga/saga.ts:119-133 | no playlist or the placeholder: no lookup, no fetch and no dispatch; otherwise `getApi`'s SAVE_API, if any, then the login warning without a handle; with one, the fetch followed by LOAD_TRACKS_SUCCESS of the fetched tracks, or by the escaping rejection |
| Saga.LoadTracksForSelectedPlaylist | src/saga/saga.ts:135-137 | one LOAD_TRACKS for the selected playlist, or for the placeholder when nothing is selected |
| Saga.NoSelectionLoadsNothing | src/saga/saga.ts:119-137 | with nothing selected the request reaches the placeholder guard and nothing is looked up or fetched |
| Saga.LoadedPlaylistNotRequestedAgain | src/saga/saga.ts:107-133 | an unloaded playlist is requested once; after its load succeeds the tracks are cached under its id and a repeated load-if-not-loaded request does nothing |
| Saga.PlayTrack | src/saga/saga.ts:139-149 | the play call carries the payload's offset and playlist uri; the status is queried last, and only when the call did not reject; the only dispatch is `getApi`'s SAVE_API |
| Saga.JsonText | src/saga/saga.ts:162 | a string reason is rendered quoted; an Error renders as {} |
| Saga.AuthServer.constructor | src/auth/server/local.ts:11-43 | a new server has not been disposed |
| Saga.AuthServer.Dispose | src/auth/server/local.ts:39-41 | each dispose is counted |
| Saga.SignIn | src/saga/saga.ts:151-166 | opens url + "/login"; a token pair dispatches SIGN_IN_SUCCESS, a failure shows the message and dispatches nothing; the server is disposed exactly once on either path |
| WebApiClient.RemoteCall | src/spotify/web-api-spotify-client.ts:38-47 | no handle: `getApi`'s SAVE_API, if any, then the login warning; success: the request and a status query; an awaited failure becomes the wrapper's warning; a floating failure is an unhandled rejection |
| WebApiClient.VolumeUpLevel | src/spotify/web-api-spotify-client.ts:192-198 | the sent level is at most 100, it is the current volume + 20 or 100, and it never lowers a level in [0,100]; a missing volume counts as 0 |
| WebApiClient.VolumeDownLevel | src/spotify/web-api-spotify-client.ts:205-211 | the sent level is at least 0, it is the current volume - 20 or 0, and it never raises a level in [0,100] |
| WebApiClient.VolumeUpSaturates | src/spotify/web-api-spotify-client.ts:191-202 | n presses from a level v in [0,100] give min(v + 20n, 100), which stays in [0,100] |
| WebApiClient.VolumeDownSaturates | src/spotify/web-api-spotify-client.ts:204-215 | n presses from a level v in [0,100] give max(v - 20n, 0), which stays in [0,100] |
| WebApiClient.MuteEffects | src/spotify/web-api-spotify-client.ts:153-166 | a request for volume 0 is made exactly when the current volume is not 0, and it is then the wrapped remote call |
| WebApiClient.UnmuteEffects | src/spotify/web-api-spotify-client.ts:168-179 | the remembered volume is requested exactly when it is truthy, and it is then the wrapped remote call |
| WebApiClient.MuteThenUnmuteRestores | src/spotify/web-api-spotify-client.ts:153-179 | muting at a non-zero level and then unmuting sends that level back |
| WebApiClient.MuteWhileSilentForgetsLevel | src/spotify/web-api-spotify-client.ts:153-179 | muting at volume 0 remembers 0, so a later unmute sends nothing |
| WebApiClient.StatusFromPlayer | src/spotify/web-api-spotify-client.ts:114-133 | repeating iff repeat_state is not 'off', playing iff is_playing, context present iff the player has one; the status carries exactly isRunning, playerState, track and context |
| WebApiClient.RepeatMode | src/spotify/web-api-spotify-client.ts:224 | the mode is 'off' exactly when currently repeating |
| WebApiClient.ToggleRepeatFlips | src/spotify/web-api-spotify-client.ts:217-228 | the mode the toggle sends, read back by the next status, is the negated repeat flag |
| WebApiClient.ToggleShuffleFlips | src/spotify/web-api-spotify-client.ts:230-241 | the flag the toggle sends, read back by the next status, is the negated shuffle flag |
| WebApiClient.WebApiSpotifyClient.constructor | src/spotify/web-api-spotify-client.ts:19-28 | no volume is remembered before the first mute |
| WebApiClient.WebApiSpotifyClient.Next | src/spotify/web-api-spotify-client.ts:38-47 | an awaited next request; its failure becomes the wrapper's warning; without a handle, `getApi`'s SAVE_API, if any, then the login warning |
| WebApiClient.WebApiSpotifyClient.Previous | src/spotify/web-api-spotify-client.ts:49-58 | an awaited previous request; its failure becomes the wrapper's warning; without a handle, `getApi`'s SAVE_API, if any, then the login warning |
| WebApiClient.WebApiSpotifyClient.Play | src/spotify/web-api-spotify-client.ts:60-69 | an awaited play request; its failure becomes the wrapper's warning; without a handle, `getApi`'s SAVE_API, if any, then the login warning |
| WebApiClient.WebApiSpotifyClient.Pause | src/spotify/web-api-spotify-client.ts:71-80 | an awaited pause request; its failure becomes the wrapper's warning; without a handle, `getApi`'s SAVE_API, if any, then the login warning |
| WebApiClient.WebApiSpotifyClient.PlayPause | src/spotify/web-api-spotify-client.ts:82-89 | exactly the `pause()` trace when the stored state is playing and the `play()` trace otherwise: the request, then a status query on success or the wrapper's warning on failure; without a handle, `getApi`'s SAVE_API, if any, then the login warning |
| WebApiClient.WebApiSpotifyClient.VolumeUp | src/spotify/web-api-spotify-client.ts:191-202 | requests the raised level, then a status query on success; a failure is not caught by the wrapper and becomes an unhandled rejection; without a handle, `getApi`'s SAVE_API, if any, then the login warning |
| WebApiClient.WebApiSpotifyClient.VolumeDown | src/spotify/web-api-spotify-client.ts:204-215 | requests the lowered level, then a status query on success; a failure is not caught by the wrapper and becomes an unhandled rejection; without a handle, `getApi`'s SAVE_API, if any, then the login warning |
| WebApiClient.WebApiSpotifyClient.ToggleRepeating | src/spotify/web-api-spotify-client.ts:217-228 | sends 'context' when not repeating and 'off' when repeating, then a status query on success; a failure is an unhandled rejection; without a handle, `getApi`'s SAVE_API, if any, then the login warning |
| WebApiClient.WebApiSpotifyClient.ToggleShuffling | src/spotify/web-api-spotify-client.ts:230-241 | sends the negated shuffle flag, then a status query on success; a failure is an unhandled rejection; without a handle, `getApi`'s SAVE_API, if any, then the login warning |
| WebApiClient.WebApiSpotifyClient.MuteVolume | src/spotify/web-api-spotify-client.ts:153-166 | always overwrites the remembered volume with the current one, then makes the mute request |
| WebApiClient.WebApiSpotifyClient.UnmuteVolume | src/spotify/web-api-spotify-client.ts:168-179 | requests the remembered volume when it is truthy, and nothing otherwise |
| WebApiClient.WebApiSpotifyClient.MuteUnmuteVolume | src/spotify/web-api-spotify-client.ts:181-189 | unmutes exactly when `isMuted` holds, which agrees with the client's own `volume === 0` test; mutes otherwise |
| WebApiClient.WebApiSpotifyClient.PollTick | src/spotify/web-api-spotify-client.ts:95-141 | a canceled session does nothing and leaves the store alone; otherwise `getApi` runs against the store (its SAVE_API is dispatched); no handle only re-arms; a missing player rejects with not_running; a failed fetch rejects with its reason; a player is delivered unless canceled meanwhile and re-arms |
| WebApiClient.MuteUnmuteRoundTrip | src/spotify/web-api-spotify-client.ts:153-189 | mute-unmute at a truthy level requests 0 and remembers the level; mute-unmute once the store reports 0 sends that level back |
| OsxClient.Control | src/spotify/osx-spotify-client.ts:29-68 | each control calls the same-named bridge command with `queryStatus` as its callback; mute-unmute unmutes exactly when `isMuted` holds |
| OsxClient.CommandNamesDistinct | src/spotify/osx-spotify-client.ts:29-68 | distinct bridge commands have distinct names, so "the same-named command" is unique |
| OsxClient.GetStatus | src/spotify/osx-spotify-client.ts:94-117 | not running: rejects with "Spotify isn't running"; all four queries answer: isRunning true, the bridge state with the repeat and shuffle flags, the bridge track; a failed query rejects with one of the failures |
| OsxClient.BridgeNotRunningIsPlainFailure | src/spotify/osx-spotify-client.ts:95-98 | the bridge's not-running rejection is neither sentinel, so the controller counts it as a failure |
| OsxClient.PollTick | src/spotify/osx-spotify-client.ts:72-84 | a canceled session does nothing; unfocused re-arms without querying; a status is delivered and re-arms; a bridge error rejects the session |

## Left out

- Concurrency. The `takeLatest`/`takeEvery` scheduling, promise interleaving and `setTimeout` are not modelled. Handlers are functions, and timer firings are explicit steps (`FireTimer`, a tick's `reschedule` flag). The latest-wins discarding of superseded saga results is therefore not modelled.
- The rejection handler of a poll session sets `canceled` in a later microtask. The model sets it in the same step as the rejection.
- An error that escapes a saga handler is the trace's last `Raise` effect. What redux-saga then does to the root saga is not modelled.
- Logging (src/info/logger.ts) and message boxes (src/info/info.ts) are not modelled. Warnings and information messages are trace effects.
- The store's persistence layer and its 'tracks' rehydrate transform (src/store/store.ts:41-55) are not modelled, because they are storage I/O.
- The Linux client is not part of this model. Neither is src/state/state.ts: `DEFAULT_STATE` and `DUMMY_PLAYLIST` are abstract constants, and the login state has only its two token fields.
- The remote API, the AppleScript bridge, the editor focus flag, the platform and the workspace configuration are not modelled. Their answers are parameters, and the handle `getApi` creates is an opaque value.
- The express listener and its 10-minute timeout (src/auth/server/local.ts) are not modelled. `SignIn` receives how the server's promise settles.
- Saga.JsonText: does not escape quotes or control characters inside a string reason, and renders every Error as {}.
- Saga.SelectCurrentTrack: the `state.playerState && state.track` guard is always true in the model, because both fields are always present in the state tree.
- Saga.LoadPlaylists and Saga.LoadTracks: a resolved fetch is always a list, and a list is truthy. The falsy-result case therefore only arises without a handle.
- OsxClient.GetStatus: `Promise.all` rejects with whichever query fails first in time. The contract only says the rejection is one of the failures; the body picks the first in list order.
- OsxClient.GetStatus: the bridge's state and track objects carry more fields than the status uses (track id, duration, artwork and so on). Only the fields the model's state tree has are kept.
- Config: a configured value of the wrong type falls back to the default. The source would return the value as stored.
- Config.ToUpper: upper-cases ASCII letters only. JavaScript's `toUpperCase` also maps non-ASCII letters.
- WebApiClient.WebApiSpotifyClient.constructor: the `queryStatus()` the constructor schedules is not modelled; the constructor only sets up the volume memory.
- WebApiClient: the one-second delay of `queryStatus()` is not modelled. A status query a control method schedules appears as the `ScheduleQueryStatus` effect.
- WebApiClient.StatusFromPlayer: a player object without an `item` (the source would throw a TypeError inside the tick, which rejects the session) is not modelled.
- The `ForeignAction` of the action datatype stands for actions of redux and redux-persist. Its tag type admits only strings outside the catalog, so an untyped dispatch of a catalog tag without its payload is not modelled.
- WithError.WithErrorAsync: a rejection with `undefined` or `null` is not modelled. `e.message` then throws a TypeError inside the catch, so the decorated method rejects and no warning is shown; `Reason` has no such value.
