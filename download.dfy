/**
 * The pure parts of `DownloadController`: the classification of a browser's
 * User-Agent into an operating system, an architecture and a recommended
 * client, the mapping from a platform name to the client's file name, and
 * the outcome of a download given what reading that file gives.
 */
module Downloads {
  import opened Wrappers
  import opened JavaText
  import Projects

  const UNKNOWN: string := "unknown"

  datatype Detection = Detection(os: string, arch: string, recommendedClient: string, userAgent: Option<string>)

  /** A detection that found nothing. */
  predicate Unknown(d: Detection) {
    d.os == UNKNOWN && d.arch == UNKNOWN && d.recommendedClient == UNKNOWN
  }

  /**
   * `detectSystem`: case-insensitive substring tests, with "windows" taking
   * precedence over "mac os x", and that over "linux"; on macOS "intel"
   * selects the Intel build and anything else the ARM one.
   */
  function DetectSystem(userAgent: Option<string>): (d: Detection)
    ensures d.userAgent == userAgent
    ensures userAgent.None? ==> Unknown(d)
    ensures d.recommendedClient == UNKNOWN <==> Unknown(d)
    ensures d.recommendedClient != UNKNOWN ==> userAgent.Some?
    ensures d.os == "macOS" <==> d.recommendedClient == "mac-intel" || d.recommendedClient == "mac-arm"
    ensures d.arch == "x64" <==> d.recommendedClient == "windows" || d.recommendedClient == "linux"
  {
    if userAgent.None? then Detection(UNKNOWN, UNKNOWN, UNKNOWN, userAgent)
    else
      var lowerUserAgent := ToLower(userAgent.value);
      if Contains(lowerUserAgent, "windows") then Detection("Windows", "x64", "windows", userAgent)
      else if Contains(lowerUserAgent, "mac os x") then
        if Contains(lowerUserAgent, "intel") then Detection("macOS", "intel", "mac-intel", userAgent)
        else Detection("macOS", "arm64", "mac-arm", userAgent)
      else if Contains(lowerUserAgent, "linux") then Detection("Linux", "x64", "linux", userAgent)
      else Detection(UNKNOWN, UNKNOWN, UNKNOWN, userAgent)
  }

  /** `getClientFilename`: four platform names, compared ignoring case. */
  function GetClientFilename(platform: string): (r: Option<string>)
    ensures r.Some? <==> ToLower(platform) in {"windows", "mac-intel", "mac-arm", "linux"}
    ensures r.Some? ==> StartsWith(r.value, "claude-connector-")
  {
    var p := ToLower(platform);
    if p == "windows" then Some("claude-connector-windows.exe")
    else if p == "mac-intel" then Some("claude-connector-mac-intel")
    else if p == "mac-arm" then Some("claude-connector-mac-arm")
    else if p == "linux" then Some("claude-connector-linux")
    else None
  }

  /** The classification sees the User-Agent only through its lower-cased text. */
  lemma DetectIgnoresCase(userAgent: string)
    ensures DetectSystem(Some(ToLower(userAgent))).(userAgent := None) == DetectSystem(Some(userAgent)).(userAgent := None)
  {
    ToLowerIdempotent(userAgent);
  }

  /** A User-Agent naming Windows is classified as Windows whatever else it names. */
  lemma WindowsTakesPrecedence(userAgent: string)
    requires Contains(ToLower(userAgent), "windows")
    ensures DetectSystem(Some(userAgent)).recommendedClient == "windows"
  {
  }

  /** Without "windows", "mac os x" picks macOS, with the Intel build exactly
      when "intel" is named as well and the ARM build otherwise. */
  lemma MacBeforeLinux(userAgent: string)
    requires !Contains(ToLower(userAgent), "windows") && Contains(ToLower(userAgent), "mac os x")
    ensures DetectSystem(Some(userAgent)).os == "macOS"
    ensures DetectSystem(Some(userAgent)).recommendedClient == "mac-intel" <==> Contains(ToLower(userAgent), "intel")
    ensures Contains(ToLower(userAgent), "intel") ==> DetectSystem(Some(userAgent)).arch == "intel"
    ensures !Contains(ToLower(userAgent), "intel") ==>
      DetectSystem(Some(userAgent)).arch == "arm64" && DetectSystem(Some(userAgent)).recommendedClient == "mac-arm"
  {
  }

  /** Naming neither Windows nor macOS, "linux" picks the x64 Linux build. */
  lemma LinuxAfterMac(userAgent: string)
    requires !Contains(ToLower(userAgent), "windows") && !Contains(ToLower(userAgent), "mac os x")
    requires Contains(ToLower(userAgent), "linux")
    ensures var d := DetectSystem(Some(userAgent));
      d.os == "Linux" && d.arch == "x64" && d.recommendedClient == "linux"
  {
  }

  /** A User-Agent that names none of the three systems is unknown; with
      the three lemmas above this decides the result for every agent. */
  lemma NoSystemNamed(userAgent: string)
    requires !Contains(ToLower(userAgent), "windows") && !Contains(ToLower(userAgent), "mac os x")
    requires !Contains(ToLower(userAgent), "linux")
    ensures Unknown(DetectSystem(Some(userAgent)))
  {
  }

  /** Every client the detection recommends can be downloaded under that name. */
  lemma RecommendedClientHasFile(userAgent: Option<string>)
    ensures var d := DetectSystem(userAgent);
      d.recommendedClient != UNKNOWN <==> GetClientFilename(d.recommendedClient).Some?
  {
    var c := DetectSystem(userAgent).recommendedClient;
    assert c in {UNKNOWN, "windows", "mac-intel", "mac-arm", "linux"};
    ToLowerFixed(c);
  }

  /** The four file names are distinct, so each platform downloads its own build. */
  lemma FilenamesDistinct(p: string, q: string)
    requires GetClientFilename(p).Some? && GetClientFilename(q).Some?
    ensures GetClientFilename(p) == GetClientFilename(q) <==> ToLower(p) == ToLower(q)
  {
  }

  /** The answer of `downloadClient`. */
  datatype DownloadResult = NotFound | ServerError | Ok(filename: string, content: string)

  /**
   * `downloadClient`: an unknown platform or a missing file is 404, a read
   * that fails is 500, otherwise the file's bytes as an attachment.
   * `read` gives what reading a client file gives.
   */
  function DownloadClient(platform: string, read: string -> Projects.FileRead): (r: DownloadResult)
    ensures GetClientFilename(platform).None? ==> r == NotFound
    ensures r.Ok? <==> GetClientFilename(platform).Some? && read(GetClientFilename(platform).value).Text?
    ensures r.Ok? ==> r.filename == GetClientFilename(platform).value && read(r.filename) == Projects.Text(r.content)
  {
    var filename := GetClientFilename(platform);
    if filename.None? then NotFound
    else match read(filename.value)
      case Missing => NotFound
      case ReadError => ServerError
      case Text(content) => Ok(filename.value, content)
  }
}
