/**
 The orchestrator (`processUrl`): detect the platform, fetch its payload
 from the backend, run the matching transformer, and turn every failure into
 a uniform error envelope. The HTTP calls are not performed here: `Network`
 holds how each backend request settles, and `processUrl` reads only the
 requests of the platform it detected.
 */
module Processor {
  import opened Types
  import opened JsText
  import opened Detection
  import opened Transformers

  /** How one `fetchData` request settles: an HTTP response with its status
      and decoded JSON body, or a rejection (network failure, undecodable
      body) with its error message. */
  datatype Reply<T> = Response(status: nat, body: T) | Rejected(message: string)

  /** `response.ok`: a 2xx status. */
  predicate StatusOk(status: nat) {
    200 <= status <= 299
  }

  /** `fetchData`: the payload of a 2xx response, otherwise the message the
      call throws. */
  function FetchData<T>(reply: Reply<T>): (r: Result<T, string>)
    ensures reply.Rejected? ==> r == Err(reply.message)
    ensures reply.Response? ==> (r.Ok? <==> StatusOk(reply.status))
    ensures reply.Response? && r.Ok? ==> r.value == reply.body
    ensures reply.Response? && r.Err? ==> r.error == "API Error: " + NatToString(reply.status)
  {
    match reply
    case Rejected(message) => Err(message)
    case Response(status, body) =>
      if StatusOk(status) then Ok(body) else Err("API Error: " + NatToString(status))
  }

  /** One leg of `Promise.allSettled`: the payload when the request was
      fulfilled, `null` (here `None`) when it was rejected. */
  function Settled<T>(reply: Reply<T>): (r: Option<T>)
    ensures r.Some? <==> FetchData(reply).Ok?
    ensures r.Some? ==> r.value == FetchData(reply).value
  {
    match FetchData(reply)
    case Ok(payload) => Some(payload)
    case Err(_) => None
  }

  /** How each backend request of one `processUrl` call would settle, one
      field per request: `insta`, `fb`, `spotify`, `tiktok`, `x`, `yt` with
      `format=mp4`, `yt` with `format=mp3`, `mediafire`, `pinterest`. */
  datatype Network = Network(
    insta: Reply<InstagramResponse>,
    fb: Reply<FacebookResponse>,
    spotify: Reply<SpotifyResponse>,
    tiktok: Reply<TikTokResponse>,
    x: Reply<XResponse>,
    ytMp4: Reply<YouTubeResponse>,
    ytMp3: Reply<YouTubeResponse>,
    mediafire: Reply<MediaFireResponse>,
    pinterest: Reply<PinterestResponse>)

  /** The platforms that are detected but only previewed: no request is made. */
  predicate PreviewOnly(p: Platform) {
    p == CapCut || p == SoundCloud || p == Threads
  }

  /** The platform name a successful result carries. */
  function DisplayName(p: Platform): string
    requires !PreviewOnly(p)
  {
    match p
    case Instagram => "Instagram"
    case Facebook => "Facebook"
    case TikTok => "TikTok"
    case X => "X (Twitter)"
    case YouTube => "YouTube"
    case Spotify => "Spotify"
    case Pinterest => "Pinterest"
    case MediaFire => "MediaFire"
  }

  const UnsupportedMessage := "Unsupported platform or invalid URL."

  const PreviewSuffix := " support is currently limited to preview only."

  /** The message thrown for a preview-only platform. */
  function PreviewMessage(p: Platform): string {
    Capitalise(Id(p)) + PreviewSuffix
  }

  /** The body of the `try` block: the result, or the message thrown. An
      undetected URL and a preview-only platform throw before any request;
      a result that comes back is a success built for the detected platform. */
  function Dispatch(platform: Option<Platform>, net: Network): (r: Result<UnifiedResult, string>)
    ensures platform.None? ==> r == Err(UnsupportedMessage)
    ensures platform.Some? && PreviewOnly(platform.value) ==> r == Err(PreviewMessage(platform.value))
    ensures r.Ok? ==>
              && platform.Some? && !PreviewOnly(platform.value)
              && Produced(r.value, DisplayName(platform.value))
  {
    match platform
    case None => Err(UnsupportedMessage)
    case Some(p) =>
      match p
      case Instagram => var data :- FetchData(net.insta); TransformInstagram(data)
      case Facebook => var data :- FetchData(net.fb); FacebookResult(data)
      case Spotify => var data :- FetchData(net.spotify); TransformSpotify(data)
      case TikTok => var data :- FetchData(net.tiktok); TransformTikTok(data)
      case X => var data :- FetchData(net.x); TransformX(data)
      case YouTube => YouTubeCombinedResult(Settled(net.ytMp4), Settled(net.ytMp3))
      case MediaFire => var data :- FetchData(net.mediafire); TransformMediaFire(data)
      case Pinterest => var data :- FetchData(net.pinterest); TransformPinterest(data)
      case CapCut => Err(PreviewMessage(p))
      case SoundCloud => Err(PreviewMessage(p))
      case Threads => Err(PreviewMessage(p))
  }

  /** The `catch` block: a failed result with no downloads, labelled with the
      detected platform id (or `Unknown`), carrying the thrown message, or
      `Failed to process URL` when that message is empty. */
  function Envelope(platform: Option<Platform>, message: string): (r: UnifiedResult)
    ensures !r.success && r.downloads == []
    ensures r.title.None? && r.author.None? && r.thumbnail.None?
    ensures platform.Some? ==> r.platform == Id(platform.value)
    ensures platform.None? ==> r.platform == "Unknown"
    ensures message != "" ==> r.error == Some(message)
    ensures message == "" ==> r.error == Some("Failed to process URL")
    ensures Truthy(r.error)
  {
    UnifiedResult(false, if platform.Some? then Id(platform.value) else "Unknown", None, None, None, [],
                  Some(if message != "" then message else "Failed to process URL"))
  }

  /** The `try`/`catch` around one platform's request and transformer: the
      envelope of the fetch error; else the transformer's result when it
      succeeds, and the envelope of the message it throws when it does not. */
  predicate RunsTransformer<T>(r: UnifiedResult, p: Platform, fetched: Result<T, string>,
                               transform: T -> Result<UnifiedResult, string>)
  {
    match fetched
    case Err(m) => r == Envelope(Some(p), m)
    case Ok(data) =>
      if transform(data).Ok? then r == transform(data).value else r == Envelope(Some(p), transform(data).error)
  }

  /** The shape every result has: a success carries no error; a failure has
      no downloads and a non-empty error message. */
  predicate WellFormed(r: UnifiedResult) {
    if r.success then r.error.None? else r.downloads == [] && Truthy(r.error)
  }

  /** `processUrl(url)` with the backend's answers given by `net`. */
  function ProcessUrl(url: string, net: Network): (r: UnifiedResult)
    ensures WellFormed(r)
    ensures !r.success ==>
              r.platform == if DetectPlatform(url).Some? then Id(DetectPlatform(url).value) else "Unknown"
    ensures r.success ==>
              && DetectPlatform(url).Some?
              && !PreviewOnly(DetectPlatform(url).value)
              && r.platform == DisplayName(DetectPlatform(url).value)
              && r.title.Some?
    ensures DetectPlatform(url) == Some(Instagram) ==>
              RunsTransformer(r, Instagram, FetchData(net.insta), TransformInstagram)
    ensures DetectPlatform(url) == Some(Facebook) ==>
              RunsTransformer(r, Facebook, FetchData(net.fb), FacebookResult)
    ensures DetectPlatform(url) == Some(Spotify) ==>
              RunsTransformer(r, Spotify, FetchData(net.spotify), TransformSpotify)
    ensures DetectPlatform(url) == Some(TikTok) ==>
              RunsTransformer(r, TikTok, FetchData(net.tiktok), TransformTikTok)
    ensures DetectPlatform(url) == Some(X) ==>
              RunsTransformer(r, X, FetchData(net.x), TransformX)
    ensures DetectPlatform(url) == Some(MediaFire) ==>
              RunsTransformer(r, MediaFire, FetchData(net.mediafire), TransformMediaFire)
    ensures DetectPlatform(url) == Some(Pinterest) ==>
              RunsTransformer(r, Pinterest, FetchData(net.pinterest), TransformPinterest)
    ensures DetectPlatform(url) == Some(YouTube) ==>
              var y := YouTubeCombinedResult(Settled(net.ytMp4), Settled(net.ytMp3));
              r == if y.Ok? then y.value else Envelope(Some(YouTube), y.error)
  {
    var platform := DetectPlatform(url);
    match Dispatch(platform, net)
    case Ok(result) => result
    case Err(message) => Envelope(platform, message)
  }

  /** A URL no rule recognises fails with the generic message under the
      platform name "Unknown". */
  lemma UnsupportedUrl(url: string, net: Network)
    requires DetectPlatform(url).None?
    ensures ProcessUrl(url, net) ==
            UnifiedResult(false, "Unknown", None, None, None, [], Some("Unsupported platform or invalid URL."))
  {
  }

  /** CapCut, SoundCloud and Threads links fail with their preview-only
      message, whatever the backend would have answered: no request is
      made. */
  lemma PreviewOnlyFails(url: string, net: Network, other: Network)
    requires DetectPlatform(url).Some? && PreviewOnly(DetectPlatform(url).value)
    ensures var p := DetectPlatform(url).value;
            var message := match p
              case CapCut => "Capcut" + PreviewSuffix
              case SoundCloud => "Soundcloud" + PreviewSuffix
              case _ => "Threads" + PreviewSuffix;
            ProcessUrl(url, net) == UnifiedResult(false, Id(p), None, None, None, [], Some(message))
    ensures ProcessUrl(url, net) == ProcessUrl(url, other)
  {
    match DetectPlatform(url).value
    case CapCut =>
      assert Capitalise("capcut") == "Capcut";
    case SoundCloud =>
      assert Capitalise("soundcloud") == "Soundcloud";
    case Threads =>
      assert Capitalise("threads") == "Threads";
  }

  /** Two networks that answer the requests of a platform in the same way. */
  predicate SameReplies(p: Platform, n1: Network, n2: Network) {
    match p
    case Instagram => n1.insta == n2.insta
    case Facebook => n1.fb == n2.fb
    case Spotify => n1.spotify == n2.spotify
    case TikTok => n1.tiktok == n2.tiktok
    case X => n1.x == n2.x
    case YouTube => n1.ytMp4 == n2.ytMp4 && n1.ytMp3 == n2.ytMp3
    case MediaFire => n1.mediafire == n2.mediafire
    case Pinterest => n1.pinterest == n2.pinterest
    case CapCut => true
    case SoundCloud => true
    case Threads => true
  }

  /** `processUrl` depends only on the requests of the detected platform. */
  lemma ReadsOnlyOwnRequests(url: string, n1: Network, n2: Network)
    requires DetectPlatform(url).Some? ==> SameReplies(DetectPlatform(url).value, n1, n2)
    ensures ProcessUrl(url, n1) == ProcessUrl(url, n2)
  {
  }

  /** The single request of the platform came back with `status`. */
  predicate AnsweredWith(p: Platform, net: Network, status: nat) {
    match p
    case Instagram => net.insta.Response? && net.insta.status == status
    case Facebook => net.fb.Response? && net.fb.status == status
    case Spotify => net.spotify.Response? && net.spotify.status == status
    case TikTok => net.tiktok.Response? && net.tiktok.status == status
    case X => net.x.Response? && net.x.status == status
    case MediaFire => net.mediafire.Response? && net.mediafire.status == status
    case Pinterest => net.pinterest.Response? && net.pinterest.status == status
    case _ => false
  }

  /** A non-2xx answer to a single-request platform is reported as
      `API Error: {status}` under the detected platform id. */
  lemma HttpErrorReported(url: string, net: Network, status: nat)
    requires DetectPlatform(url).Some? && AnsweredWith(DetectPlatform(url).value, net, status)
    requires !StatusOk(status)
    ensures ProcessUrl(url, net) ==
            UnifiedResult(false, Id(DetectPlatform(url).value), None, None, None, [],
                          Some("API Error: " + NatToString(status)))
  {
  }

  /** The YouTube requests settle independently: a failed MP4 request does
      not stop a usable MP3 answer from producing a successful result. */
  lemma YouTubeSettlesBothLegs(url: string, net: Network)
    requires DetectPlatform(url) == Some(YouTube)
    requires FetchData(net.ytMp4).Err?
    requires FetchData(net.ytMp3).Ok? && YouTubeValid(Some(FetchData(net.ytMp3).value))
    ensures ProcessUrl(url, net).success
    ensures ProcessUrl(url, net).downloads == YouTubeLinks(None, Some(FetchData(net.ytMp3).value))
  {
  }

  /** Both YouTube requests failed: the result is `Video not found`. */
  lemma YouTubeBothRequestsFail(url: string, net: Network)
    requires DetectPlatform(url) == Some(YouTube)
    requires FetchData(net.ytMp4).Err? && FetchData(net.ytMp3).Err?
    ensures ProcessUrl(url, net) ==
            UnifiedResult(false, "youtube", None, None, None, [], Some("Video not found"))
  {
  }
}
