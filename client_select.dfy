/**
 * Choosing the playback backend (src/spotify/spotify-client.ts): the Web API
 * client when forced by configuration or on a platform without a native
 * bridge, otherwise the platform's bridge client. `os.platform()` is a
 * parameter.
 */
module SpotifyClients {

  datatype ClientKind = WebApiClient | OsxClient | LinuxClient

  /** `isWebApiSpotifyClient(forceWebApi)` on the given platform. */
  function IsWebApiSpotifyClient(forceWebApi: bool, platform: string): (r: bool)
    ensures forceWebApi ==> r
    ensures !forceWebApi ==> (r <==> platform != "darwin" && platform != "linux")
  {
    forceWebApi || (platform != "darwin" && platform != "linux")
  }

  /**
   * `SpotifyClientFactory.getSpotifyClient()`; the flag is the configuration's
   * `forceWebApiImplementation`. The last branch of the source is unreachable:
   * every platform that gets there was already classified as Web API.
   */
  function GetSpotifyClient(forceWebApi: bool, platform: string): (c: ClientKind)
    ensures c == WebApiClient <==> IsWebApiSpotifyClient(forceWebApi, platform)
    ensures c == OsxClient <==> !forceWebApi && platform == "darwin"
    ensures c == LinuxClient <==> !forceWebApi && platform == "linux"
  {
    if IsWebApiSpotifyClient(forceWebApi, platform) then WebApiClient
    else if platform == "darwin" then OsxClient
    else if platform == "linux" then LinuxClient
    else assert false; WebApiClient
  }
}
