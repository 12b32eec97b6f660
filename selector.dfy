/** `isMuted` (src/store/selector.ts): the player was muted at the last status. */
module Selector {
  import opened Wrappers
  import opened State

  predicate IsMuted(s: SpotifyState)
  {
    s.playerState.volume == Some(0)
  }

  /** Muted exactly when the last volume is 0; an unknown volume is not muted. */
  lemma IsMutedMeansZeroVolume(s: SpotifyState)
    ensures IsMuted(s) <==> s.playerState.volume.Some? && s.playerState.volume.value == 0
  {
  }

  /** `isMuted` reads no field of the state other than `playerState.volume`. */
  lemma IsMutedReadsOnlyVolume(s: SpotifyState, t: SpotifyState)
    requires s.playerState.volume == t.playerState.volume
    ensures IsMuted(s) == IsMuted(t)
  {
  }
}
