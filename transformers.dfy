/**
 The eight response transformers: each maps one provider payload to the
 shared `UnifiedResult` shape, or fails with the message the source throws.
 Failures are `Err(message)`; JavaScript truthiness of optional strings
 (`Truthy`, `OrElse`) decides every presence test that the source writes as
 `if (x)` or `x || fallback`, while an optional list is tested only for
 presence, so an empty list passes.
 */
module Transformers {
  import opened Types
  import opened JsText

  /** A successful result as the transformers build it: no error, a title,
      and the given platform name. */
  predicate Produced(r: UnifiedResult, platform: string) {
    r.success && r.platform == platform && r.title.Some? && r.error.None?
  }

  /** The urls of a list of downloads, in order. */
  function Urls(ds: seq<DownloadLink>): (r: seq<string>)
    ensures |r| == |ds|
    ensures forall i :: 0 <= i < |ds| ==> r[i] == ds[i].url
  {
    seq(|ds|, i requires 0 <= i < |ds| => ds[i].url)
  }

  // ---------------------------------------------------------------- Instagram

  function InstagramLink(url: string, index: nat): DownloadLink {
    DownloadLink("Download Media " + NatToString(index + 1), url, Video, None, None)
  }

  /** `transformInstagram`. */
  function TransformInstagram(data: InstagramResponse): (r: Result<UnifiedResult, string>)
    ensures r.Ok? <==> data.success && data.urls.Some?
    ensures r.Err? ==> r.error == OrElse(data.error, "No media found")
    ensures r.Ok? ==>
              && Produced(r.value, "Instagram")
              && r.value.title == Some("Instagram Post")
              && r.value.author.None? && r.value.thumbnail.None?
              && Urls(r.value.downloads) == data.urls.value
              && forall i :: 0 <= i < |r.value.downloads| ==>
                   r.value.downloads[i] == InstagramLink(data.urls.value[i], i)
  {
    if !data.success || data.urls.None? then Err(OrElse(data.error, "No media found"))
    else
      var urls := data.urls.value;
      Ok(UnifiedResult(true, "Instagram", Some("Instagram Post"), None, None,
                       seq(|urls|, i requires 0 <= i < |urls| => InstagramLink(urls[i], i)), None))
  }

  /** Every Instagram download has its own label: `Download Media 1`,
      `Download Media 2`, ... never repeat. */
  lemma InstagramLabelsDistinct(data: InstagramResponse)
    requires TransformInstagram(data).Ok?
    ensures var ds := TransformInstagram(data).value.downloads;
            forall i, j :: 0 <= i < j < |ds| ==> ds[i].caption != ds[j].caption
  {
    var ds := TransformInstagram(data).value.downloads;
    forall i, j | 0 <= i < j < |ds|
      ensures ds[i].caption != ds[j].caption
    {
      var prefix := "Download Media ";
      if ds[i].caption == ds[j].caption {
        assert ds[i].caption[|prefix|..] == NatToString(i + 1);
        assert ds[j].caption[|prefix|..] == NatToString(j + 1);
        NatToStringInjective(i + 1, j + 1);
      }
    }
  }

  // ----------------------------------------------------------------- Facebook

  function HdLink(url: string): DownloadLink {
    DownloadLink("HD Video", url, Video, Some("HD"), None)
  }

  function SdLink(url: string): DownloadLink {
    DownloadLink("SD Video", url, Video, Some("SD"), None)
  }

  function AudioOnlyLink(url: string): DownloadLink {
    DownloadLink("Audio Only", url, Audio, None, None)
  }

  /** The downloads a Facebook payload offers: one per truthy field among
      `hd`, `sd` and `audio`, in that order. */
  function FacebookLinks(data: FacebookResponse): seq<DownloadLink> {
    (if Truthy(data.hd) then [HdLink(data.hd.value)] else [])
    + (if Truthy(data.sd) then [SdLink(data.sd.value)] else [])
    + (if Truthy(data.audio) then [AudioOnlyLink(data.audio.value)] else [])
  }

  /** `transformFacebook`, as a value. */
  function FacebookResult(data: FacebookResponse): (r: Result<UnifiedResult, string>)
    ensures r.Ok? <==> data.success && (Truthy(data.hd) || Truthy(data.sd) || Truthy(data.audio))
    ensures !data.success ==> r == Err(OrElse(data.error, "No media found"))
    ensures data.success && !Truthy(data.hd) && !Truthy(data.sd) && !Truthy(data.audio) ==>
              r == Err("No download links returned")
    ensures r.Ok? ==>
              && Produced(r.value, "Facebook")
              && r.value.title == Some("Facebook Video")
              && r.value.author.None? && r.value.thumbnail.None?
              && 1 <= |r.value.downloads| <= 3
              && r.value.downloads == FacebookLinks(data)
  {
    if !data.success then Err(OrElse(data.error, "No media found"))
    else
      var downloads := FacebookLinks(data);
      if |downloads| == 0 then Err("No download links returned")
      else Ok(UnifiedResult(true, "Facebook", Some("Facebook Video"), None, None, downloads, None))
  }

  /** `transformFacebook` as the source writes it: a list that grows by one
      `push` per truthy field. */
  method TransformFacebook(data: FacebookResponse) returns (r: Result<UnifiedResult, string>)
    ensures r == FacebookResult(data)
  {
    if !data.success {
      return Err(OrElse(data.error, "No media found"));
    }
    var downloads: seq<DownloadLink> := [];
    if Truthy(data.hd) {
      downloads := downloads + [HdLink(data.hd.value)];
    }
    if Truthy(data.sd) {
      downloads := downloads + [SdLink(data.sd.value)];
    }
    if Truthy(data.audio) {
      downloads := downloads + [AudioOnlyLink(data.audio.value)];
    }
    assert downloads == FacebookLinks(data);
    if |downloads| == 0 {
      return Err("No download links returned");
    }
    return Ok(UnifiedResult(true, "Facebook", Some("Facebook Video"), None, None, downloads, None));
  }

  /** Position of a Facebook download in the fixed order HD, SD, audio. */
  function FacebookRank(d: DownloadLink): nat {
    if d.quality == Some("HD") then 0 else if d.quality == Some("SD") then 1 else 2
  }

  /** The Facebook downloads are exactly the truthy fields, each with its type
      and quality, and they come in the order HD, SD, audio. */
  lemma FacebookLinksExact(data: FacebookResponse)
    ensures var ds := FacebookLinks(data);
            && (Truthy(data.hd) <==> exists d :: d in ds && d.quality == Some("HD"))
            && (Truthy(data.sd) <==> exists d :: d in ds && d.quality == Some("SD"))
            && (Truthy(data.audio) <==> exists d :: d in ds && d.kind == Audio)
            && (forall d :: d in ds ==>
                  || (d.quality == Some("HD") && d.kind == Video && d.url == data.hd.value)
                  || (d.quality == Some("SD") && d.kind == Video && d.url == data.sd.value)
                  || (d.quality.None? && d.kind == Audio && d.url == data.audio.value))
            && forall i, j :: 0 <= i < j < |ds| ==> FacebookRank(ds[i]) < FacebookRank(ds[j])
  {
  }

  /** A payload with `hd` and `audio` but no `sd` yields exactly the HD video
      and the audio, in that order. */
  lemma FacebookHdAndAudio(hd: string, audio: string, error: Option<string>)
    requires hd != "" && audio != ""
    ensures FacebookResult(FacebookResponse(true, Some(hd), None, Some(audio), error)).Ok?
    ensures FacebookResult(FacebookResponse(true, Some(hd), None, Some(audio), error)).value.downloads
            == [DownloadLink("HD Video", hd, Video, Some("HD"), None),
                DownloadLink("Audio Only", audio, Audio, None, None)]
  {
  }

  // ------------------------------------------------------------------ Spotify

  /** `transformSpotify`. */
  function TransformSpotify(data: SpotifyResponse): (r: Result<UnifiedResult, string>)
    ensures r.Ok? <==> data.success && Truthy(data.downloadUrl)
    ensures r.Err? ==> r.error == OrElse(data.error, "No track found")
    ensures r.Ok? ==>
              && Produced(r.value, "Spotify")
              && r.value.title == Some(OrElse(data.name, "Spotify Track"))
              && (r.value.author.Some? <==> data.artists.Some?)
              && (data.artists.Some? ==> r.value.author == Some(Join(data.artists.value, ", ")))
              && r.value.thumbnail == data.image
              && r.value.downloads == [DownloadLink("Download MP3", data.downloadUrl.value, Audio, None, None)]
  {
    if !data.success || !Truthy(data.downloadUrl) then Err(OrElse(data.error, "No track found"))
    else
      var author := if data.artists.Some? then Some(Join(data.artists.value, ", ")) else None;
      Ok(UnifiedResult(true, "Spotify", Some(OrElse(data.name, "Spotify Track")), author, data.image,
                       [DownloadLink("Download MP3", data.downloadUrl.value, Audio, None, None)], None))
  }

  // ------------------------------------------------------------------- TikTok

  function TikTokDownload(link: TikTokLink): DownloadLink {
    DownloadLink(if link.text != "" then link.text else "Download", link.link, Video, None, None)
  }

  /** The payload lists at least one video; only the first is used. */
  predicate HasTikTokVideo(data: TikTokResponse) {
    data.success && data.data.Some? && |data.data.value| > 0
  }

  /** `transformTikTok`. */
  function TransformTikTok(data: TikTokResponse): (r: Result<UnifiedResult, string>)
    ensures r.Ok? <==> HasTikTokVideo(data) && data.data.value[0].downloadLinks.Some?
    ensures !HasTikTokVideo(data) ==> r == Err(OrElse(data.error, "No video found"))
    ensures HasTikTokVideo(data) && data.data.value[0].downloadLinks.None? ==>
              r == Err("No download links found")
    ensures r.Ok? ==>
              var video := data.data.value[0];
              var links := video.downloadLinks.value;
              && Produced(r.value, "TikTok")
              && r.value.title == Some(OrElse(video.title, "TikTok Video"))
              && r.value.thumbnail == video.thumbnail
              && r.value.author.None?
              && Urls(r.value.downloads) == seq(|links|, i requires 0 <= i < |links| => links[i].link)
              && forall i :: 0 <= i < |links| ==> r.value.downloads[i] == TikTokDownload(links[i])
  {
    if !HasTikTokVideo(data) then Err(OrElse(data.error, "No video found"))
    else
      var video := data.data.value[0];
      if video.downloadLinks.None? then Err("No download links found")
      else
        var links := video.downloadLinks.value;
        Ok(UnifiedResult(true, "TikTok", Some(OrElse(video.title, "TikTok Video")), None, video.thumbnail,
                         seq(|links|, i requires 0 <= i < |links| => TikTokDownload(links[i])), None))
  }

  /** Only the first video of a TikTok payload matters: later ones never
      change the result. */
  lemma TikTokUsesFirstVideoOnly(data: TikTokResponse, more: seq<TikTokVideo>)
    requires HasTikTokVideo(data)
    ensures TransformTikTok(data) ==
            TransformTikTok(data.(data := Some([data.data.value[0]] + more)))
  {
  }

  // ------------------------------------------------------------------ YouTube

  /** One leg of the YouTube fan-out is usable: it settled with a payload that
      reports success and lists at least one entry. */
  predicate YouTubeValid(leg: Option<YouTubeResponse>) {
    leg.Some? && leg.value.success && leg.value.data.Some? && |leg.value.data.value| > 0
  }

  function FirstEntry(leg: Option<YouTubeResponse>): YouTubeEntry
    requires YouTubeValid(leg)
  {
    leg.value.data.value[0]
  }

  /** `leg?.error`. */
  function ErrorOf(leg: Option<YouTubeResponse>): Option<string> {
    if leg.Some? then leg.value.error else None
  }

  /** `(size)` when the file size is truthy, nothing otherwise. */
  function SizeSuffix(fileSize: Option<string>): string {
    if Truthy(fileSize) then "(" + fileSize.value + ")" else ""
  }

  function VideoLink(e: YouTubeEntry): DownloadLink
    requires Truthy(e.downloadUrl)
  {
    DownloadLink("Download Video (MP4) " + SizeSuffix(e.fileSize), e.downloadUrl.value, Video, None, None)
  }

  function AudioLink(e: YouTubeEntry): DownloadLink
    requires Truthy(e.downloadUrl)
  {
    DownloadLink("Download Audio (MP3) " + SizeSuffix(e.fileSize), e.downloadUrl.value, Audio, None, None)
  }

  /** The leg contributes a download: it is usable and its first entry has a
      truthy `downloadUrl`. */
  predicate Offers(leg: Option<YouTubeResponse>) {
    YouTubeValid(leg) && Truthy(FirstEntry(leg).downloadUrl)
  }

  function YouTubeLinks(mp4: Option<YouTubeResponse>, mp3: Option<YouTubeResponse>): seq<DownloadLink> {
    (if Offers(mp4) then [VideoLink(FirstEntry(mp4))] else [])
    + (if Offers(mp3) then [AudioLink(FirstEntry(mp3))] else [])
  }

  /** The entry whose metadata names the video: MP4's when that leg is usable. */
  function MetaEntry(mp4: Option<YouTubeResponse>, mp3: Option<YouTubeResponse>): YouTubeEntry
    requires YouTubeValid(mp4) || YouTubeValid(mp3)
  {
    if YouTubeValid(mp4) then FirstEntry(mp4) else FirstEntry(mp3)
  }

  /** `transformYouTubeCombined`, as a value. A leg whose fetch failed is
      `None` (the source's `null`). */
  function YouTubeCombinedResult(mp4: Option<YouTubeResponse>, mp3: Option<YouTubeResponse>)
    : (r: Result<UnifiedResult, string>)
    ensures r.Err? <==> !YouTubeValid(mp4) && !YouTubeValid(mp3)
    ensures r.Err? ==> r.error == OrElse(ErrorOf(mp4), OrElse(ErrorOf(mp3), "Video not found"))
    ensures r.Ok? ==>
              && Produced(r.value, "YouTube")
              && r.value.title == Some(OrElse(MetaEntry(mp4, mp3).title, "YouTube Video"))
              && r.value.author.None? && r.value.thumbnail.None?
              && r.value.downloads == YouTubeLinks(mp4, mp3)
  {
    if !YouTubeValid(mp4) && !YouTubeValid(mp3) then
      Err(OrElse(ErrorOf(mp4), OrElse(ErrorOf(mp3), "Video not found")))
    else
      Ok(UnifiedResult(true, "YouTube", Some(OrElse(MetaEntry(mp4, mp3).title, "YouTube Video")),
                       None, None, YouTubeLinks(mp4, mp3), None))
  }

  /** `transformYouTubeCombined` as the source writes it: a list that grows by
      one `push` per leg that offers a download. */
  method TransformYouTubeCombined(mp4: Option<YouTubeResponse>, mp3: Option<YouTubeResponse>)
    returns (r: Result<UnifiedResult, string>)
    ensures r == YouTubeCombinedResult(mp4, mp3)
  {
    var mp4Valid := YouTubeValid(mp4);
    var mp3Valid := YouTubeValid(mp3);
    if !mp4Valid && !mp3Valid {
      return Err(OrElse(ErrorOf(mp4), OrElse(ErrorOf(mp3), "Video not found")));
    }
    var meta := if mp4Valid then FirstEntry(mp4) else FirstEntry(mp3);
    var downloads: seq<DownloadLink> := [];
    if mp4Valid {
      var v := FirstEntry(mp4);
      if Truthy(v.downloadUrl) {
        downloads := downloads + [VideoLink(v)];
      }
    }
    if mp3Valid {
      var a := FirstEntry(mp3);
      if Truthy(a.downloadUrl) {
        downloads := downloads + [AudioLink(a)];
      }
    }
    assert downloads == YouTubeLinks(mp4, mp3);
    return Ok(UnifiedResult(true, "YouTube", Some(OrElse(meta.title, "YouTube Video")), None, None, downloads, None));
  }

  /** At most two YouTube downloads: a video one exactly when the MP4 leg
      offers it, an audio one exactly when the MP3 leg does, video first; a
      label carries `(size)` only when the size is truthy. */
  lemma YouTubeLinksShape(mp4: Option<YouTubeResponse>, mp3: Option<YouTubeResponse>)
    ensures var ds := YouTubeLinks(mp4, mp3);
            && |ds| <= 2
            && (Offers(mp4) <==> exists d :: d in ds && d.kind == Video)
            && (Offers(mp3) <==> exists d :: d in ds && d.kind == Audio)
            && (forall i, j :: 0 <= i < j < |ds| ==> ds[i].kind == Video && ds[j].kind == Audio)
            && (Offers(mp4) ==>
                  && ds[0].url == FirstEntry(mp4).downloadUrl.value
                  && (ds[0].caption == "Download Video (MP4) " <==> !Truthy(FirstEntry(mp4).fileSize)))
            && (Offers(mp3) ==>
                  && ds[|ds| - 1].url == FirstEntry(mp3).downloadUrl.value
                  && (ds[|ds| - 1].caption == "Download Audio (MP3) " <==> !Truthy(FirstEntry(mp3).fileSize)))
  {
  }

  /** The MP4 leg is unusable (its request failed or it reported no entry)
      and the MP3 leg's first entry has a link: the result is that one audio
      download, titled from the MP3 entry, and its label keeps the trailing
      space when the entry has no size. */
  lemma YouTubeAudioOnly(mp4: Option<YouTubeResponse>, mp3: YouTubeResponse)
    requires !YouTubeValid(mp4)
    requires mp3.success && mp3.data.Some? && |mp3.data.value| > 0
    requires Truthy(mp3.data.value[0].downloadUrl)
    ensures var e := mp3.data.value[0];
            YouTubeCombinedResult(mp4, Some(mp3)) ==
            Ok(UnifiedResult(true, "YouTube", Some(OrElse(e.title, "YouTube Video")), None, None,
                             [DownloadLink("Download Audio (MP3) " + SizeSuffix(e.fileSize), e.downloadUrl.value,
                                           Audio, None, None)], None))
    ensures !Truthy(mp3.data.value[0].fileSize) ==>
              YouTubeCombinedResult(mp4, Some(mp3)).value.downloads[0].caption == "Download Audio (MP3) "
  {
    var e := mp3.data.value[0];
    assert YouTubeLinks(mp4, Some(mp3)) == [AudioLink(e)];
    if !Truthy(e.fileSize) {
      assert "Download Audio (MP3) " + SizeSuffix(e.fileSize) == "Download Audio (MP3) ";
    }
  }

  /** Both legs unusable: the MP4 leg's error message wins. */
  lemma YouTubeBothFail(mp4: YouTubeResponse, mp3: Option<YouTubeResponse>, message: string)
    requires !mp4.success && mp4.error == Some(message) && message != ""
    requires !YouTubeValid(mp3)
    ensures YouTubeCombinedResult(Some(mp4), mp3) == Err(message)
  {
  }

  // ------------------------------------------------------------------------ X

  function XDownload(item: XMedia, index: nat): DownloadLink {
    DownloadLink("Download " + item.mediaType + " " + NatToString(index + 1), item.url,
                 ParseMediaType(item.mediaType), None, None)
  }

  /** `transformX`. The media type string is copied unchecked. */
  function TransformX(data: XResponse): (r: Result<UnifiedResult, string>)
    ensures r.Ok? <==> data.success && data.found == Some(true) && data.media.Some?
    ensures r.Err? ==> r.error == OrElse(data.error, "Tweet not found")
    ensures r.Ok? ==>
              var media := data.media.value;
              && Produced(r.value, "X (Twitter)")
              && r.value.title == Some("Post by " + OrElse(data.authorName, "User"))
              && r.value.author.None? && r.value.thumbnail.None?
              && Urls(r.value.downloads) == seq(|media|, i requires 0 <= i < |media| => media[i].url)
              && forall i :: 0 <= i < |media| ==> r.value.downloads[i] == XDownload(media[i], i)
  {
    if !data.success || data.found != Some(true) || data.media.None? then
      Err(OrElse(data.error, "Tweet not found"))
    else
      var media := data.media.value;
      Ok(UnifiedResult(true, "X (Twitter)", Some("Post by " + OrElse(data.authorName, "User")), None, None,
                       seq(|media|, i requires 0 <= i < |media| => XDownload(media[i], i)), None))
  }

  /** Each X download holds the provider's type string exactly, whether or not
      it is one of the four declared types, and its label names that type. */
  lemma XTypesCopied(data: XResponse)
    requires TransformX(data).Ok?
    ensures var ds := TransformX(data).value.downloads;
            var media := data.media.value;
            forall i :: 0 <= i < |ds| ==>
              && TypeName(ds[i].kind) == media[i].mediaType
              && Canonical(ds[i].kind)
              && (ds[i].kind.Unchecked? <==> media[i].mediaType !in ["video", "image", "audio", "file"])
              && ds[i].caption[..9 + |media[i].mediaType|] == "Download " + media[i].mediaType
  {
  }

  // ---------------------------------------------------------------- MediaFire

  /** `transformMediaFire`. */
  function TransformMediaFire(data: MediaFireResponse): (r: Result<UnifiedResult, string>)
    ensures r.Ok? <==> data.success && Truthy(data.download)
    ensures r.Err? ==> r.error == OrElse(data.error, "File not found")
    ensures r.Ok? ==>
              && Produced(r.value, "MediaFire")
              && r.value.title == Some(OrElse(data.name, "File"))
              && r.value.author.None? && r.value.thumbnail.None?
              && r.value.downloads ==
                 [DownloadLink("Download File (" + OrElse(data.size, "Unknown") + ")", data.download.value,
                               File, None, None)]
  {
    if !data.success || !Truthy(data.download) then Err(OrElse(data.error, "File not found"))
    else
      Ok(UnifiedResult(true, "MediaFire", Some(OrElse(data.name, "File")), None, None,
                       [DownloadLink("Download File (" + OrElse(data.size, "Unknown") + ")", data.download.value,
                                     File, None, None)], None))
  }

  // ---------------------------------------------------------------- Pinterest

  function PinterestDownload(item: PinterestMedia): DownloadLink {
    DownloadLink("Download " + item.quality + " (" + item.extension + ")", item.url,
                 if item.extension == "mp4" then Video else Image, None, Some(item.formattedSize))
  }

  /** `transformPinterest`. */
  function TransformPinterest(data: PinterestResponse): (r: Result<UnifiedResult, string>)
    ensures r.Ok? <==> data.source == Some("pinterest") && data.medias.Some?
    ensures r.Err? ==> r.error == OrElse(data.error, "Pin not found")
    ensures r.Ok? ==>
              var medias := data.medias.value;
              var ds := r.value.downloads;
              && Produced(r.value, "Pinterest")
              && r.value.title == Some(OrElse(data.title, "Pinterest Pin"))
              && r.value.author.None? && r.value.thumbnail.None?
              && |ds| == |medias|
              && forall i :: 0 <= i < |medias| ==>
                   && ds[i].url == medias[i].url
                   && ds[i].caption == "Download " + medias[i].quality + " (" + medias[i].extension + ")"
                   && (ds[i].kind == Video || ds[i].kind == Image)
                   && (ds[i].kind == Video <==> medias[i].extension == "mp4")
                   && ds[i].size == Some(medias[i].formattedSize)
                   && ds[i].quality.None?
  {
    if data.source != Some("pinterest") || data.medias.None? then Err(OrElse(data.error, "Pin not found"))
    else
      var medias := data.medias.value;
      Ok(UnifiedResult(true, "Pinterest", Some(OrElse(data.title, "Pinterest Pin")), None, None,
                       seq(|medias|, i requires 0 <= i < |medias| => PinterestDownload(medias[i])), None))
  }
}
