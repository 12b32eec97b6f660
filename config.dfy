/**
 * The typed getters of `SpotifyConfig` (src/config/spotify-config.ts) over the
 * `spotify` section of the workspace configuration, given as a key -> value
 * map. `get(key, default)` yields the stored value when the key is set and
 * the default otherwise.
 */
module Config {
  import opened Wrappers
  import opened SpotifyClients

  datatype ConfigValue = NumberValue(n: int) | BoolValue(b: bool) | StringValue(s: string)

  type Configuration = map<string, ConfigValue>

  function GetNumber(cfg: Configuration, key: string, default: int): int
  {
    if key in cfg && cfg[key].NumberValue? then cfg[key].n else default
  }

  function GetBool(cfg: Configuration, key: string, default: bool): bool
  {
    if key in cfg && cfg[key].BoolValue? then cfg[key].b else default
  }

  function GetString(cfg: Configuration, key: string, default: string): string
  {
    if key in cfg && cfg[key].StringValue? then cfg[key].s else default
  }

  /** The smallest polling interval the Web API client accepts, in milliseconds. */
  const MIN_WEB_API_INTERVAL_MS: int := 5000

  function ToUpper(c: char): (u: char)
    ensures 'a' <= c <= 'z' ==> 'A' <= u <= 'Z'
    ensures !('a' <= c <= 'z') ==> u == c
  {
    if 'a' <= c <= 'z' then (c as int - 32) as char else c
  }

  /** The key "show" + the id with its first character upper-cased. */
  function ShowKey(buttonId: string): (key: string)
    requires buttonId != []
    ensures |key| == |buttonId| + 4 && key[..4] == "show"
    ensures key[4] == ToUpper(buttonId[0]) && key[5..] == buttonId[1..]
  {
    "show" + [ToUpper(buttonId[0])] + buttonId[1..]
  }

  /**
   * `isButtonToBeShown(buttonId)`: the `show<Id>` flag, false when unset.
   * None stands for the TypeError the source raises on an empty id.
   */
  function IsButtonToBeShown(cfg: Configuration, buttonId: string): (r: Option<bool>)
    ensures buttonId == [] <==> r.None?
    ensures buttonId != [] && ShowKey(buttonId) !in cfg ==> r == Some(false)
    ensures buttonId != [] && ShowKey(buttonId) in cfg && cfg[ShowKey(buttonId)].BoolValue?
            ==> r == Some(cfg[ShowKey(buttonId)].b)
  {
    if buttonId == [] then None else Some(GetBool(cfg, ShowKey(buttonId), false))
  }

  /** `getButtonPriority(buttonId)`: `priorityBase` + `<id>Priority`, each 0 when unset. */
  function GetButtonPriority(cfg: Configuration, buttonId: string): (p: int)
    ensures "priorityBase" !in cfg && buttonId + "Priority" !in cfg ==> p == 0
    ensures "priorityBase" !in cfg ==> p == GetNumber(cfg, buttonId + "Priority", 0)
    ensures buttonId + "Priority" !in cfg ==> p == GetNumber(cfg, "priorityBase", 0)
    ensures "priorityBase" in cfg && cfg["priorityBase"].NumberValue?
            && buttonId + "Priority" in cfg && cfg[buttonId + "Priority"].NumberValue?
            ==> p == cfg["priorityBase"].n + cfg[buttonId + "Priority"].n
  {
    GetNumber(cfg, "priorityBase", 0) + GetNumber(cfg, buttonId + "Priority", 0)
  }

  function GetForceWebApiImplementation(cfg: Configuration): (b: bool)
    ensures "forceWebApiImplementation" !in cfg ==> !b
    ensures "forceWebApiImplementation" in cfg && cfg["forceWebApiImplementation"].BoolValue? ==> b == cfg["forceWebApiImplementation"].b
  {
    GetBool(cfg, "forceWebApiImplementation", false)
  }

  /**
   * `getStatusCheckInterval()`: the configured interval (5000 when unset),
   * raised to at least 5000 ms when the Web API client is in use.
   */
  function GetStatusCheckInterval(cfg: Configuration, platform: string): (ms: int)
    ensures IsWebApiSpotifyClient(GetForceWebApiImplementation(cfg), platform) ==>
      && ms >= MIN_WEB_API_INTERVAL_MS
      && ms >= GetNumber(cfg, "statusCheckInterval", 5000)
      && (ms == GetNumber(cfg, "statusCheckInterval", 5000) || ms == MIN_WEB_API_INTERVAL_MS)
    ensures !IsWebApiSpotifyClient(GetForceWebApiImplementation(cfg), platform) ==>
      ms == GetNumber(cfg, "statusCheckInterval", 5000)
    ensures "statusCheckInterval" !in cfg ==> ms == 5000
  {
    var interval := GetNumber(cfg, "statusCheckInterval", 5000);
    if IsWebApiSpotifyClient(GetForceWebApiImplementation(cfg), platform) then
      (if interval > MIN_WEB_API_INTERVAL_MS then interval else MIN_WEB_API_INTERVAL_MS)
    else interval
  }

  function GetLyricsServerUrl(cfg: Configuration): (url: string)
    ensures "lyricsServerUrl" !in cfg ==> url == ""
    ensures "lyricsServerUrl" in cfg && cfg["lyricsServerUrl"].StringValue? ==> url == cfg["lyricsServerUrl"].s
  {
    GetString(cfg, "lyricsServerUrl", "")
  }

  function GetAuthServerUrl(cfg: Configuration): (url: string)
    ensures "authServerUrl" !in cfg ==> url == ""
    ensures "authServerUrl" in cfg && cfg["authServerUrl"].StringValue? ==> url == cfg["authServerUrl"].s
  {
    GetString(cfg, "authServerUrl", "")
  }

  function GetSpotifyApiUrl(cfg: Configuration): (url: string)
    ensures "spotifyApiUrl" !in cfg ==> url == ""
    ensures "spotifyApiUrl" in cfg && cfg["spotifyApiUrl"].StringValue? ==> url == cfg["spotifyApiUrl"].s
  {
    GetString(cfg, "spotifyApiUrl", "")
  }

  function OpenPanelLyrics(cfg: Configuration): (n: int)
    ensures "openPanelLyrics" !in cfg ==> n == 1
    ensures "openPanelLyrics" in cfg && cfg["openPanelLyrics"].NumberValue? ==> n == cfg["openPanelLyrics"].n
  {
    GetNumber(cfg, "openPanelLyrics", 1)
  }

  function GetTrackInfoFormat(cfg: Configuration): (f: string)
    ensures "trackInfoFormat" !in cfg ==> f == ""
    ensures "trackInfoFormat" in cfg && cfg["trackInfoFormat"].StringValue? ==> f == cfg["trackInfoFormat"].s
  {
    GetString(cfg, "trackInfoFormat", "")
  }

  function GetEnableLogs(cfg: Configuration): (b: bool)
    ensures "enableLogs" !in cfg ==> !b
    ensures "enableLogs" in cfg && cfg["enableLogs"].BoolValue? ==> b == cfg["enableLogs"].b
  {
    GetBool(cfg, "enableLogs", false)
  }

  /** One of 'none', 'focus_song', 'play_pause' as configured; 'focus_song' when unset. */
  function GetTrackInfoClickBehaviour(cfg: Configuration): (b: string)
    ensures "trackInfoClickBehaviour" !in cfg ==> b == "focus_song"
    ensures "trackInfoClickBehaviour" in cfg && cfg["trackInfoClickBehaviour"].StringValue? ==> b == cfg["trackInfoClickBehaviour"].s
  {
    GetString(cfg, "trackInfoClickBehaviour", "focus_song")
  }

  /** With the Web API backend the poll never runs faster than every 5 seconds. */
  lemma WebApiIntervalFloor(cfg: Configuration, platform: string)
    requires GetSpotifyClient(GetForceWebApiImplementation(cfg), platform) == WebApiClient
    ensures GetStatusCheckInterval(cfg, platform) >= MIN_WEB_API_INTERVAL_MS
  {
  }
}
