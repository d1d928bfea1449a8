# Social downloader core in Dafny

This project models the part of the social-media downloader service that does
more than display things. It has three pieces:

- **Platform detection** (`detectPlatform`). An ordered chain of substring
  tests maps a URL to one of eleven platform ids, or to nothing.
- **Eight response transformers.** Each maps one provider's raw payload to the
  shared `UnifiedResult` / `DownloadLink` shape, or throws an error message.
  The YouTube transformer merges an MP4 payload and an MP3 payload.
- **The orchestrator** (`processUrl`). It dispatches on the detected platform
  and turns every failure into one error envelope.

Modules, one per concern:

- `Types` (`types.dfy`) holds the records of `types.ts`. Optional (`?`) fields
  are `Option`. A thrown `Error` is `Err(message)` of `Result`.
- `JsText` (`js_text.dfy`) holds the JavaScript string behaviour the service
  depends on:
  - the truthiness of strings (`Truthy`, `OrElse` for `a || b`);
  - `includes`, proved to be plain substring search;
  - the decimal text of `${index + 1}`, proved injective by a parse round trip;
  - `join`;
  - capitalising an id.
- `Detection` (`detection.dfy`) holds `detectPlatform`. The source's if-chain
  is proved equal to a first-match reading of an ordered rule table.
- `Transformers` (`transformers.dfy`) holds the eight transformers.
  - `transformFacebook` and `transformYouTubeCombined` build their download
    list with `push`. Each is therefore a method that appends to a sequence,
    proved equal to a function that the rest of the model uses.
  - The other transformers are functions.
- `Processor` (`processor.dfy`) holds `fetchData` and `processUrl`.
  - Each backend request is an outcome: a `Response(status, body)` or a
    `Rejected(message)`.
  - The network is a record of the nine possible requests.
  - `processUrl` is a function of the URL and that record.

JavaScript details the model keeps:

- An empty string is falsy. So `if (data.hd)` and `data.name || 'File'` treat
  `""` as absent.
- An empty array is truthy. So a present but empty `urls`, `media`, `medias` or
  `downloadLinks` list gives a success with no downloads.
- The X transformer copies the provider's `type` string unchecked.
  - `DownloadLink.kind` is a `MediaType` with an `Unchecked(name)` case.
  - `ParseMediaType` keeps every string exactly: `TypeName(ParseMediaType(s)) == s`.
- The YouTube labels are `Download Video (MP4) ` and `Download Audio (MP3) `
  followed by `(size)` only when the size is truthy. So the trailing space stays
  when there is no size.
- A successful result carries the display name: `Instagram`, `X (Twitter)`,
  and so on. A failure envelope carries the detected id, `instagram` or `x`, or
  `Unknown`.
- The preview-only messages capitalise only the first letter of the id:
  `Capcut`, `Soundcloud`, `Threads`.
- Matching is on substrings of the whole URL. `dropbox.com` contains `x.com`,
  so it is detected as X.

Behaviour the model keeps because the code does it:

- Instagram, X and Pinterest accept an empty list.
- TikTok accepts an empty `downloadLinks` list.
- The YouTube labels keep the trailing space.

The transformers that are functions, and `processUrl`, depend only on their
arguments, so calling one twice on the same input gives the same result. The
two methods, `TransformFacebook` and `TransformYouTubeCombined`, have their
result fixed by their postconditions, which equate it to `FacebookResult` and
`YouTubeCombinedResult`.

## Model

| member | source | states |
|---|---|---|
| Types.ParseMediaType | services/socialService.ts:154-158 | the X media type string is kept exactly (`TypeName` gives it back); it is `Unchecked` exactly when it is none of video, image, audio, file |
| Types.ParseTypeName | types.ts:1-7 | parsing the name of a canonical media type gives that type back, so the two conversions are inverse |
| JsText.IncludesIffOccurs | services/socialService.ts:18-28 | `includes` holds exactly when the fragment occurs at some index of the URL |
| JsText.NotIncludesMissingChar | services/socialService.ts:18-28 | a URL lacking the first character of a fragment does not include it |
| JsText.NatToString | services/socialService.ts:51 | the text of `${n}` is a non-empty string of digits with no leading zero |
| JsText.ParseNatToString | services/socialService.ts:51 | reading back the decimal text of n gives n |
| JsText.NatToStringInjective | services/socialService.ts:155 | different indices give different decimal texts |
| JsText.Truthy | services/socialService.ts:45 | an optional string is truthy exactly when it is present and non-empty |
| JsText.OrElse | services/socialService.ts:80 | the JavaScript or-fallback gives the optional string when it is truthy and the fallback otherwise, so it is non-empty whenever the fallback is |
| JsText.Includes | services/socialService.ts:18-28 | a string includes each of its prefixes, only texts no longer than itself, and a text of its own length only when equal to it |
| JsText.Join | services/socialService.ts:81 | joining no parts gives "", one part gives that part, two give them around the separator; otherwise the result starts with the first part and ends with the last |
| JsText.JoinAppend | services/socialService.ts:81 | appending a part to a non-empty list makes the joined text the old one, the separator and that part, so `[a, b, c].join(", ")` is `a, b, c` with every middle part in order |
| JsText.Capitalise | services/socialService.ts:230 | the first character, when an ASCII lower-case letter, becomes the letter 32 code points below (its upper case); any other first character is kept; the rest and the length are unchanged |
| Detection.DetectPlatform | services/socialService.ts:17-30 | the if-chain returns the platform of the first rule, in the order instagram, facebook, tiktok, x, youtube, spotify, pinterest, mediafire, capcut, soundcloud, threads, one of whose fragments the URL contains |
| Detection.FirstMatchSpec | services/socialService.ts:17-30 | first match chooses a matching rule with no matching rule before it, and chooses nothing exactly when no rule matches |
| Detection.DetectNoneIff | services/socialService.ts:29 | `detectPlatform` returns null exactly when the URL contains none of the listed fragments |
| Detection.DetectSomeIsFirst | services/socialService.ts:17-28 | a detected platform belongs to a rule the URL matches, and no earlier rule matches |
| Detection.DropboxIsTakenForX | services/socialService.ts:21 | plain substring matching maps `dropbox.com` to `x` |
| Transformers.TransformInstagram | services/socialService.ts:44-56 | succeeds exactly when success is set and urls is present (an empty list succeeds); otherwise the provider error or "No media found"; one video download per url, in order, labelled `Download Media {i+1}` |
| Transformers.InstagramLabelsDistinct | services/socialService.ts:50-54 | no two Instagram downloads share a label |
| Transformers.FacebookResult | services/socialService.ts:58-73 | succeeds exactly when success is set and one of hd, sd, audio is truthy; otherwise the provider error or "No media found", or "No download links returned" when none is truthy; one to three downloads |
| Transformers.TransformFacebook | services/socialService.ts:58-73 | the push-by-push construction gives the same result as `FacebookResult` |
| Transformers.FacebookLinksExact | services/socialService.ts:60-63 | the downloads are exactly the truthy fields among hd, sd, audio, typed video/video/audio with quality HD/SD/none, in that order |
| Transformers.FacebookHdAndAudio | services/socialService.ts:60-65 | hd and audio without sd yields exactly [HD video, audio] |
| Transformers.TransformSpotify | services/socialService.ts:75-85 | succeeds exactly when success is set and download_url is truthy; otherwise the provider error or "No track found"; one audio download "Download MP3"; title falls back to "Spotify Track"; author present exactly when artists is, as their ", " join |
| Transformers.TransformTikTok | services/socialService.ts:87-103 | fails with the provider error or "No video found" without a first video, with "No download links found" when it has no link list; otherwise one video download per link, in order, labelled by its text or "Download" |
| Transformers.TikTokUsesFirstVideoOnly | services/socialService.ts:89 | videos after the first never change the result |
| Transformers.YouTubeCombinedResult | services/socialService.ts:105-145 | fails exactly when neither leg is valid, with the MP4 error, else the MP3 error, else "Video not found"; otherwise the title comes from the MP4 entry when that leg is valid, else the MP3 entry, defaulting to "YouTube Video" |
| Transformers.TransformYouTubeCombined | services/socialService.ts:105-145 | the push-by-push construction gives the same result as `YouTubeCombinedResult` |
| Transformers.YouTubeLinksShape | services/socialService.ts:115-137 | at most two downloads, a video one exactly when the MP4 leg is valid and has a downloadUrl, an audio one likewise for MP3, video first; a label ends with the bare prefix exactly when the size is not truthy |
| Transformers.YouTubeAudioOnly | services/socialService.ts:105-145 | an unusable MP4 leg and an MP3 entry with a link give exactly one audio download labelled `Download Audio (MP3) {(size) if truthy}`, with that link and the MP3 title or "YouTube Video"; without a size the label keeps its trailing space |
| Transformers.YouTubeBothFail | services/socialService.ts:109-111 | when both legs are unusable the MP4 failure message is the error |
| Transformers.TransformX | services/socialService.ts:147-160 | succeeds exactly when success is set, found is true and media is present; otherwise the provider error or "Tweet not found"; one download per item, in order, labelled `Download {type} {i+1}`; title `Post by {author or "User"}` |
| Transformers.XTypesCopied | services/socialService.ts:154-158 | each X download holds the provider's type string exactly, checked or not, and its label names that type |
| Transformers.TransformMediaFire | services/socialService.ts:162-175 | succeeds exactly when success is set and download is truthy; otherwise the provider error or "File not found"; one file download `Download File ({size or "Unknown"})`; title falls back to "File" |
| Transformers.TransformPinterest | services/socialService.ts:177-192 | succeeds exactly when source is "pinterest" and medias is present; otherwise the provider error or "Pin not found"; one download per media, type video exactly when the extension is "mp4" and image otherwise, size copied, labelled `Download {quality} ({extension})` |
| Processor.FetchData | services/socialService.ts:33-40 | a 2xx response yields its body; another status fails with `API Error: {status}`; a rejection keeps its message |
| Processor.Settled | services/socialService.ts:212-218 | a leg is the payload when its fetch succeeded and null otherwise |
| Processor.Dispatch | services/socialService.ts:199-233 | an undetected URL throws "Unsupported platform or invalid URL."; a preview-only platform throws its preview message; a result that is returned is a success built for a detected, non-preview platform under its display name |
| Processor.Envelope | services/socialService.ts:234-242 | the catch block gives a failure with no downloads, no title, author or thumbnail, under the detected id or "Unknown", carrying the thrown message, or "Failed to process URL" when that message is empty |
| Processor.ProcessUrl | services/socialService.ts:195-243 | every result is well formed (a success has no error; a failure has no downloads and a non-empty error); a failure is labelled with the detected id or "Unknown"; a success comes from a detected, non-preview platform and carries its display name; for each single-request platform, a failed fetch gives the envelope of its message, and otherwise the result is that platform's transformer on the payload, or the envelope of the message the transformer throws; for YouTube it is `YouTubeCombinedResult` of the two settled legs, or the envelope of its error |
| Processor.UnsupportedUrl | services/socialService.ts:231-232 | an undetected URL fails with "Unsupported platform or invalid URL." under "Unknown" |
| Processor.PreviewOnlyFails | services/socialService.ts:226-230 | capcut, soundcloud and threads fail with "{Capitalised id} support is currently limited to preview only." whatever the network would answer |
| Processor.ReadsOnlyOwnRequests | services/socialService.ts:199-233 | the result depends only on the requests of the detected platform |
| Processor.HttpErrorReported | services/socialService.ts:36-38 | a non-2xx answer to a single-request platform becomes the envelope `API Error: {status}` under the detected id |
| Processor.YouTubeSettlesBothLegs | services/socialService.ts:210-220 | a failed MP4 request does not stop a valid MP3 answer from producing a success |
| Processor.YouTubeBothRequestsFail | services/socialService.ts:210-220 | when both YouTube requests fail, the result is "Video not found" under "youtube" |

## Left out

- The HTTP work of `fetchData` is not modelled: building the request URL with `URLSearchParams`, the base URL, `fetch` itself and `response.json()`. Each request is an outcome, either a status with a decoded body or a rejection with a message.
- The concurrency of `Promise.allSettled` is not modelled. Its only visible effect is that each YouTube leg yields a payload or null on its own, and two independent outcomes capture that.
- The `console.error` logging in the catch block is left out. It is output only.
- The async/await machinery is left out.
- `App.tsx` is left out. It is user-interface code that only calls `processUrl` and `detectPlatform`.
- Payloads that do not match their declared shape are not modelled; each payload here has its declared record type. In the source a `null` in a list of strings is not an error: `urls.map` copies it into a download url, and `artists.join` turns it into an empty string. A `null` in a list of objects (TikTok `data` and `downloadLinks`, X `media`, Pinterest `medias`) makes the source throw a `TypeError` when a field of it is read, and a JSON value of the wrong type can do the same.
- Capitalise: upper-cases ASCII letters only, because the platform ids it is applied to are ASCII.
