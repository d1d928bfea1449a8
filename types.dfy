/**
 The data model of the downloader service (types.ts): the normalised
 `DownloadLink` and `UnifiedResult` records every transformer produces, and
 the raw payload shape of each provider endpoint. A TypeScript field marked
 `?` is an `Option`; everything else is required.
 */
module Types {

  datatype Option<+T> = None | Some(value: T)

  /** A value or an error message; usable with `:-`. A thrown `Error` of the
      service becomes `Err` with its message. */
  datatype Result<+T, +E> = Ok(value: T) | Err(error: E) {
    predicate IsFailure() {
      Err?
    }

    function PropagateFailure<U>(): Result<U, E>
      requires Err?
    {
      Err(error)
    }

    function Extract(): T
      requires Ok?
    {
      value
    }
  }

  /** The `type` of a download. The declared union has four members, but the
      X transformer copies the provider's string with an `as any` cast, so any
      other string can reach this field: `Unchecked` keeps it. */
  datatype MediaType = Video | Image | Audio | File | Unchecked(name: string)

  /** The string the field holds at run time. */
  function TypeName(t: MediaType): string {
    match t
    case Video => "video"
    case Image => "image"
    case Audio => "audio"
    case File => "file"
    case Unchecked(name) => name
  }

  /** Each run-time string has one representation: a declared member is never
      wrapped in `Unchecked`. */
  predicate Canonical(t: MediaType) {
    t.Unchecked? ==> t.name !in ["video", "image", "audio", "file"]
  }

  /** Reads a provider's free-form type string without losing any of it. */
  function ParseMediaType(s: string): (t: MediaType)
    ensures Canonical(t)
    ensures TypeName(t) == s
    ensures t.Unchecked? <==> s !in ["video", "image", "audio", "file"]
  {
    if s == "video" then Video
    else if s == "image" then Image
    else if s == "audio" then Audio
    else if s == "file" then File
    else Unchecked(s)
  }

  /** Parsing the name of a canonical type gives that type back, so with
      `ParseMediaType` the two are inverse bijections. */
  lemma ParseTypeName(t: MediaType)
    requires Canonical(t)
    ensures ParseMediaType(TypeName(t)) == t
  {
  }

  datatype DownloadLink = DownloadLink(
    caption: string,  // `label` in types.ts (a Dafny keyword)
    url: string,
    kind: MediaType,
    quality: Option<string>,
    size: Option<string>)

  datatype UnifiedResult = UnifiedResult(
    success: bool,
    platform: string,
    title: Option<string>,
    author: Option<string>,
    thumbnail: Option<string>,
    downloads: seq<DownloadLink>,
    error: Option<string>)

  // Raw provider payloads

  datatype InstagramResponse = InstagramResponse(
    success: bool,
    urls: Option<seq<string>>,
    error: Option<string>)

  datatype FacebookResponse = FacebookResponse(
    success: bool,
    hd: Option<string>,
    sd: Option<string>,
    audio: Option<string>,
    error: Option<string>)

  datatype SpotifyResponse = SpotifyResponse(
    success: bool,
    downloadUrl: Option<string>,
    name: Option<string>,
    artists: Option<seq<string>>,
    image: Option<string>,
    error: Option<string>)

  datatype TikTokLink = TikTokLink(link: string, text: string)

  datatype TikTokVideo = TikTokVideo(
    title: Option<string>,
    thumbnail: Option<string>,
    downloadLinks: Option<seq<TikTokLink>>)

  datatype TikTokResponse = TikTokResponse(
    success: bool,
    data: Option<seq<TikTokVideo>>,
    error: Option<string>)

  datatype YouTubeEntry = YouTubeEntry(
    title: Option<string>,
    downloadUrl: Option<string>,
    fileSize: Option<string>,
    format: Option<string>)

  datatype YouTubeResponse = YouTubeResponse(
    success: bool,
    data: Option<seq<YouTubeEntry>>,
    error: Option<string>)

  datatype XMedia = XMedia(url: string, mediaType: string)

  datatype XResponse = XResponse(
    success: bool,
    found: Option<bool>,
    media: Option<seq<XMedia>>,
    authorName: Option<string>,
    error: Option<string>)

  datatype MediaFireResponse = MediaFireResponse(
    success: bool,
    download: Option<string>,
    name: Option<string>,
    size: Option<string>,
    error: Option<string>)

  datatype PinterestMedia = PinterestMedia(
    url: string,
    quality: string,
    extension: string,
    formattedSize: string)

  datatype PinterestResponse = PinterestResponse(
    source: Option<string>,
    title: Option<string>,
    medias: Option<seq<PinterestMedia>>,
    error: Option<string>)
}
