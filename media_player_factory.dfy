/**
 * media::MediaPlayerNevaFactory on webOS: a MIME type is classified as a
 * camera stream, another webOS service stream (no player), or a plain URL
 * for the UMS player; creation follows the classification, with the camera
 * player available only in builds with GStreamer media.
 *
 * net::MatchesMimeType is a parameter `matches(pattern, mimeType)`.
 */
module MediaPlayerFactory {
  import opened Wrappers

  const WebOSMediaPattern: string := "service/webos-*"
  const WebOSCameraPattern: string := "service/webos-camera"

  datatype MediaPlayerType = MediaPlayerTypeNone | MediaPlayerTypeUMS | MediaPlayerTypeCamera

  datatype Player = UmsPlayer(appId: string) | CameraPlayer(appId: string)

  /** GetMediaPlayerType */
  function GetMediaPlayerType(mimeType: string, matches: (string, string) -> bool): (t: MediaPlayerType)
    ensures t == MediaPlayerTypeUMS <==> !matches(WebOSMediaPattern, mimeType)
    ensures t == MediaPlayerTypeCamera <==>
              matches(WebOSMediaPattern, mimeType) && matches(WebOSCameraPattern, mimeType)
    ensures t == MediaPlayerTypeNone <==>
              matches(WebOSMediaPattern, mimeType) && !matches(WebOSCameraPattern, mimeType)
  {
    if matches(WebOSMediaPattern, mimeType) then
      if matches(WebOSCameraPattern, mimeType) then MediaPlayerTypeCamera else MediaPlayerTypeNone
    else MediaPlayerTypeUMS
  }

  /** CreateMediaPlayerNeva: a UMS player for UMS, a camera player for Camera in GStreamer builds, else none. */
  function CreateMediaPlayerNeva(mediaType: MediaPlayerType, appId: string, gstMedia: bool): (p: Option<Player>)
    ensures p == Some(UmsPlayer(appId)) <==> mediaType == MediaPlayerTypeUMS
    ensures p == Some(CameraPlayer(appId)) <==> mediaType == MediaPlayerTypeCamera && gstMedia
    ensures p == None <==> mediaType == MediaPlayerTypeNone || (mediaType == MediaPlayerTypeCamera && !gstMedia)
  {
    match mediaType
    case MediaPlayerTypeUMS => Some(UmsPlayer(appId))
    case MediaPlayerTypeCamera => if gstMedia then Some(CameraPlayer(appId)) else None
    case MediaPlayerTypeNone => None
  }

  /**
   * A simple reading of MIME pattern matching: a pattern ending in '*'
   * matches every type that starts with what precedes the '*'; any other
   * pattern matches only itself.
   */
  function WildcardMatches(pattern: string, mimeType: string): (r: bool)
    ensures pattern != [] && pattern[|pattern| - 1] == '*' ==> (r <==> pattern[..|pattern| - 1] <= mimeType)
    ensures (pattern == [] || pattern[|pattern| - 1] != '*') ==> (r <==> mimeType == pattern)
  {
    if pattern != [] && pattern[|pattern| - 1] == '*' then pattern[..|pattern| - 1] <= mimeType
    else mimeType == pattern
  }

  /** Whenever the camera pattern matches, the webOS pattern does too, so a camera is never sent to UMS. */
  lemma CameraIsWebOS(mimeType: string)
    requires WildcardMatches(WebOSCameraPattern, mimeType)
    ensures GetMediaPlayerType(mimeType, WildcardMatches) == MediaPlayerTypeCamera
  {
    assert mimeType == WebOSCameraPattern;
    assert WebOSMediaPattern[..|WebOSMediaPattern| - 1] == "service/webos-";
    assert WebOSCameraPattern[..14] == "service/webos-";
  }

  /** Other webOS service streams get no player at all. */
  lemma OtherWebOSServiceGetsNoPlayer(rest: string, appId: string, gstMedia: bool)
    requires "service/webos-" + rest != WebOSCameraPattern
    ensures CreateMediaPlayerNeva(GetMediaPlayerType("service/webos-" + rest, WildcardMatches), appId, gstMedia) == None
  {
    assert WebOSMediaPattern[..|WebOSMediaPattern| - 1] == "service/webos-";
    assert ("service/webos-" + rest)[..14] == "service/webos-";
  }

  /** A type outside the webOS service prefix is played by UMS. */
  lemma PlainTypeGetsUms(mimeType: string, appId: string, gstMedia: bool)
    requires !("service/webos-" <= mimeType)
    ensures CreateMediaPlayerNeva(GetMediaPlayerType(mimeType, WildcardMatches), appId, gstMedia) == Some(UmsPlayer(appId))
  {
    assert WebOSMediaPattern[..|WebOSMediaPattern| - 1] == "service/webos-";
  }
}
