# YouTube Chrono Next — a verified model of its core

YouTube Chrono Next is a single-page app. You paste a link to a YouTube video, and it
shows that video and the one its channel uploaded right after it. It does this in four steps:

1. It parses the link into an 11-character video identifier.
2. It asks the YouTube Data API for the video's channel.
3. It asks for that channel's uploads playlist.
4. It reads the playlist page by page, newest first, finds the video and shows the item
   before it as the "next" video.

This project models that core in Dafny and proves what it does:

- **`VideoIdParser`**: `extractVideoId` in `services/youtubeService.ts`. The four URL
  patterns are tried in order, and each is matched as the source's unanchored
  regular expression matches it.
- **`ApiErrors`**: `handleApiError`, the message thrown for a failed response.
- **`Lookups`**: one API call, then `handleApiError`, then JSON decoding. Also
  `getVideoDetails` and `getChannelUploadsPlaylistId` ("first item or null").
- **`Pagination`**: `getAllPlaylistItems`, a `method` with the source's do-while loop.
  - It is proved equal to `AllPlaylistItems`, the outcome of the loop unrolled as far
    as it runs.
  - It is also proved equal, in both directions, to a declarative description of a
    run of requests (`CompleteChain`, `FailedChain`).
- **`Translations`**: the `t` lookup of `App.tsx` over the message table of
  `translations.ts`. Only the six error messages the submit handler shows are kept.
- **`Resolution`**: what one submit ends up showing (error, current video, next
  video), as a function of the URL, the remote service and the language.
- **`AppComponent`**: the component's state as a `class App`. `ResetState`,
  `HandleUrlChange` and `HandleSubmit` assign its fields step by step, and
  `HandleSubmit` is proved to end in the view `Resolution.Resolve` prescribes.
- **`Scenarios`**: worked submits against small fixed servers. They cover one page and
  two pages, the newest video, an unlisted video, a quota error and plain text.

The network is a parameter. Each endpoint is a function from the query values that vary
(video id; channel id; playlist id and page token) to an `Exchange`. An `Exchange` is
either a rejected fetch carrying what it threw, or a response with `ok`, status, status
text and a body. The body either decodes as JSON or fails with a syntax error. A thrown
value is either an `Error` with a message or some other value. JavaScript truthiness of
an optional string (`nextPageToken`, `error.message`, the uploads id) is `Truthy`:
present and non-empty.

`url.match` is unanchored: it finds a pattern anywhere in the text, and a longer token
yields its first 11 characters (`VideoIdParser.LongTokenTruncated`).

## Model

| member | source | states |
|---|---|---|
| VideoIdParser.FindMatch | services/youtubeService.ts:33 | the position found is a match of the literal followed by 11 token characters; no earlier position matches; None means no position from the start matches |
| VideoIdParser.MatchPattern | services/youtubeService.ts:25-35 | one pattern's capture is a well-formed 11-character id taken at the leftmost match; None exactly when the pattern matches nowhere |
| VideoIdParser.FirstMatch | services/youtubeService.ts:32-38 | the loop returns the capture of the first pattern in the list that matches, every earlier one failing; null exactly when no pattern matches |
| VideoIdParser.ExtractVideoId | services/youtubeService.ts:24-39 | the result is a well-formed id from the first matching pattern among watch, short, embed, legacy; null exactly when no literal is followed by 11 token characters anywhere; it never throws |
| VideoIdParser.LiteralAfterPrefix | services/youtubeService.ts:26-29 | a literal behind any prefix without a `y`, followed by a token, is matched right there and captures that token |
| VideoIdParser.ShapeYieldsToken | services/youtubeService.ts:26-29 | each of the four shapes, with any of the optional `http(s)://` and `www.` prefixes and anything after the token, parses to exactly its token unless an earlier pattern matches |
| VideoIdParser.WatchUrlRoundTrip | components/VideoCard.tsx:13 | the watch link built for a video parses back to that video's id |
| VideoIdParser.LongTokenTruncated | services/youtubeService.ts:27 | matching is unanchored: a short link with a 12-character token yields its first 11 characters |
| VideoIdParser.WatchNeedsLeadingV | services/youtubeService.ts:26 | the watch pattern needs `v=` directly after `watch?`; another query parameter first makes it fail |
| VideoIdParser.HostIsCaseSensitive | services/youtubeService.ts:26-29 | the patterns are case-sensitive: `YouTube.com` is not recognised |
| VideoIdParser.WatchFormTakesPrecedence | services/youtubeService.ts:32-37 | when the watch pattern matches, its capture is the result, whatever the other patterns would give |
| ApiErrors.DecimalString | services/youtubeService.ts:18 | a status renders as a non-empty string of decimal digits, with no leading zero, whose value is the status |
| ApiErrors.HandleApiError | services/youtubeService.ts:4-21 | returns normally exactly when the response is ok; otherwise throws `YouTube API Error: ` plus the API's message when the error body decodes with a non-empty `error.message`, the default message when it decodes without one, and the default message with status code and text when it does not decode |
| Lookups.ReadListing | services/youtubeService.ts:43-45 | a call yields the decoded items and page token exactly when the fetch resolves, the status is ok and the body decodes; a rejected fetch throws its own reason; a failed status throws an Error with handleApiError's message; an ok body that does not decode throws the decoder's syntax error |
| Lookups.FirstOrNull | services/youtubeService.ts:46 | `items[0] ?? null`: null exactly for an empty list, otherwise the first item |
| Lookups.GetVideoDetails | services/youtubeService.ts:41-47 | the first video listed for the id, null when none is listed, or what the call throws, with the video default message |
| Lookups.GetChannelUploadsPlaylistId | services/youtubeService.ts:49-55 | the uploads playlist id of the first channel listed, null when none is listed, or what the call throws, with the channel default message |
| Pagination.DrainMonotone | services/youtubeService.ts:61-71 | once the loop has ended within some number of passes, allowing more passes changes nothing |
| Pagination.AllPlaylistItemsByFuel | services/youtubeService.ts:57-74 | any number of passes that completes the loop yields getAllPlaylistItems' outcome, and the loop then ends |
| Pagination.DrainChain | services/youtubeService.ts:61-71 | every run of the loop is a chain of received pages: complete with the pages' items in order, or failed with the error the last request threw |
| Pagination.CompleteChainDrains | services/youtubeService.ts:61-71 | a complete chain of n pages is what the loop computes in n passes: the pages' items joined in order |
| Pagination.FailedChainDrains | services/youtubeService.ts:66-68 | continuing pages followed by a failing request make the loop throw that request's error |
| Pagination.AllPlaylistItemsIsChain | services/youtubeService.ts:57-74 | getAllPlaylistItems resolves to a list exactly when a complete chain of requests has it as its items, the first request sent without a token and each later one with the previous page's token |
| Pagination.AllPlaylistItemsFails | services/youtubeService.ts:57-74 | getAllPlaylistItems throws an error exactly when a run of continuing pages is followed by a request that throws it |
| Pagination.ConcatSize | services/youtubeService.ts:69 | the accumulated list is as long as all pages together |
| Pagination.ConcatOrder | services/youtubeService.ts:69 | item i of page k sits right after the items of the pages before it: nothing dropped, repeated or reordered |
| Pagination.GetAllPlaylistItems | services/youtubeService.ts:57-74 | the loop's result is getAllPlaylistItems' outcome: the items of a complete chain in order, or the error of the first request that throws |
| Translations.CatalogHasEnglish | translations.ts:18-24 | the English table holds every message the lookup can ask for |
| Translations.LookupAsWritten | App.tsx:23-25 | `t` as written: the language's message when non-empty, English otherwise; it throws exactly when the language has no table |
| Translations.Lookup | App.tsx:23-25 | `t` with a missing table treated like a missing entry: the language's non-empty message, else the English one |
| Translations.LookupAgreesWhereTableExists | App.tsx:24 | wherever the as-written lookup does not throw, it gives the same message as the corrected one |
| Translations.PetisoLookupThrows | App.tsx:24 | with the shipped tables, the as-written lookup throws for `pe`, which App.tsx:13 and App.tsx:29 accept, whatever the key |
| Translations.CatalogLookup | translations.ts:1-89 | with the shipped tables every language gives a non-empty message: its own for en, es and ca, English for pe |
| Resolution.FindIndexFrom | App.tsx:102 | the first index from `from` on whose item has the video id, or -1 exactly when none from there has it |
| Resolution.FindIndex | App.tsx:102 | `findIndex`: the first index whose item has the video id, or -1 exactly when no item has it |
| Resolution.NextIsChronologicalSuccessor | App.tsx:111-113 | in a newest-first list, the item before the current one is the upload right after it in time, and there is none exactly when the current one is the newest |
| Resolution.SearchFindsVideo | App.tsx:102-109 | a successful search's current item is the item of the video searched for |
| Resolution.InvalidUrlRejected | App.tsx:76-87 | a blank URL, or one no pattern recognises, shows the invalid-URL message and no video |
| Resolution.MissingRecordsReported | App.tsx:90-99 | no video record shows the fetch-details message, and a missing or empty uploads id shows the uploads-playlist message, with no video shown |
| Resolution.AbsentFromUploads | App.tsx:101-106 | a video absent from every page of its channel's uploads shows the not-found message and no video |
| Resolution.FoundInUploads | App.tsx:108-117 | the first item of the video is current; below the newest, the item before it is next and no error is shown; at the newest, the latest-video message is shown beside it and there is no next video |
| Resolution.ThrownSurfaced | App.tsx:119-121 | whatever the try block throws, from any lookup or check, shows the Error's message, or the unknown-error message for a non-Error, and no video |
| Resolution.SearchPropagates | App.tsx:90-101 | a throw from the video lookup, from the channel lookup after a found video, or from the playlist read after a truthy uploads id is what the try block throws |
| Resolution.ViewInvariant | App.tsx:71-126 | after any submit, an error and a next video are never shown together, a next video implies a current one, a current video is the item of the id the URL names, and no error implies a next video |
| AppComponent.App.constructor | App.tsx:16-21 | the initial state: not loading, no error or videos, Spanish, empty URL |
| AppComponent.App.ResetState | App.tsx:61-65 | clears the error and both video slots, and changes nothing else |
| AppComponent.App.HandleUrlChange | App.tsx:67-69 | the URL becomes the new input value and nothing else changes |
| AppComponent.App.RunLookups | App.tsx:89-118 | the try block: on a throw it returns the thrown value and sets nothing; otherwise it sets the current video, the next one and, at the newest video, the latest-video message |
| AppComponent.App.HandleSubmit | App.tsx:71-126 | whatever was shown before, a submit ends not loading, with the error, current video and next video Resolve prescribes for the URL, remote service and language |
| Scenarios.OnePageReadsUploads | services/youtubeService.ts:57-74 | one page ending without a token yields exactly its items |
| Scenarios.TwoPagesReadUploads | services/youtubeService.ts:61-71 | the first page's token is sent for the second and the items come back joined in order |
| Scenarios.MiddleVideoShowsNext | App.tsx:108-113 | with uploads X, Y, Z, Y's watch link shows Y as current and X as next, with no error |
| Scenarios.MiddleVideoAcrossPages | App.tsx:101-113 | the same outcome when X arrives on one page and Y, Z on the next |
| Scenarios.NewestVideoHasNoNext | App.tsx:114-117 | X's watch link shows X with the latest-video message and no next video |
| Scenarios.UnlistedVideoNotFound | App.tsx:104-106 | a channel video missing from the public uploads shows the not-found message |
| Scenarios.QuotaReplyThrows | services/youtubeService.ts:13-14 | a 403 reply whose body says "quota exceeded" makes getVideoDetails throw `YouTube API Error: quota exceeded` |
| Scenarios.QuotaErrorShown | App.tsx:119-121 | that error is what the submit shows, with no video |
| Scenarios.PlainTextRejected | App.tsx:82-87 | text that names no video shows the invalid-URL message |

## Left out

- The URL strings sent to the API (base URL, `part`, `maxResults=50`, the API key) are not modelled. Each endpoint is a function of the values that vary, and the server decides page sizes.
- `async`/`await` and promise scheduling are not modelled. Each call's outcome is a value, and the handler's awaited steps run in sequence.
- Intermediate renders are not modelled: `isLoading` being true while the lookups run, and React's batching of state updates. Only the state after the handler is stated.
- A JSON body without an `items` array is not modelled: `items[0]` then throws, or `concat` appends `undefined`. Decoded bodies always carry a list.
- A non-string `error.message` in an error body is not modelled. The message is an optional string.
- `console.error`, the Netlify proxy function and `constants` are not part of this model. Neither are the rendering in `App.tsx` and the components, the AdSense and font effects, or the localStorage read of the saved language (only its accepted values, App.tsx:29, are in the `Language` type).
- handleSetLanguage is not modelled: it assigns the language and writes localStorage. `HandleSubmit` takes the language from the field.
- Translations: only the six error messages the submit handler shows are in the table. The remaining keys are labels for rendering.
- Pagination.GetAllPlaylistItems: requires that the playlist's page chain ends (`Terminates`). The source loops for as long as the server keeps returning tokens, so on an endless chain it does not return, and the model has no outcome for that case.
- Pagination.AllPlaylistItems: defined only on playlists whose chain ends, for the same reason. Its value does not depend on the number of passes chosen.
- AppComponent.App.HandleSubmit: requires `SubmitEnds`: when the URL names a video whose channel has a truthy uploads id, that playlist's page chain ends. Nothing is asked of other playlists. On an endless chain the source does not return, for the same reason.
- Resolution.Resolve: defined only where `SubmitEnds` holds, and `Resolution.Search` only where `UploadsEnd` holds, for the same reason.
- AppComponent.App.HandleSubmit: uses the corrected lookup `Translations.Lookup`, so for `pe` it shows English messages where the code as written throws (see Findings).

## Findings

| source | as written | input that shows it | evidently intended | confidence | as-written member | corrected member |
|---|---|---|---|---|---|---|
| App.tsx:24 | The lookup reads `translations[language][key]` before falling back to English, so for `pe` it reads a key of `translations['pe']`. `pe` is an accepted language (App.tsx:13, App.tsx:29) but translations.ts has no `pe` table, so the read is a TypeError. `pe` can only arrive through the saved language read at App.tsx:28-30, since the selector (components/LanguageSelector.tsx:16-34) offers only en, es and ca. Once it is set, the render's own `t('title')` (App.tsx:139) throws, so the component fails to render. | a stored `chrono_lang` of `pe`, then `t` with any key | a language without a table falls back to the English message, as a missing entry already does | high; not executed | Translations.LookupAsWritten (Translations.PetisoLookupThrows) | Translations.Lookup (Translations.CatalogLookup) |
