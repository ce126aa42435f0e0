# YT-StoryCraft core, modelled in Dafny

This project models the decision and formatting logic of YT-StoryCraft, a Next.js application. The application turns a
YouTube video, found by link or by search, into a story. The model covers the following, each as a Dafny module:

- **The YouTube Data API client** (`YouTube`, from app/lib/youtube.ts). It covers:
  - the request URLs the client builds, one `searchParams.append` at a time;
  - how `fetchWithAuth` folds every failure into one `YouTubeAPIError`;
  - how `searchYouTube`, `getVideoDetails` and `getTrendingVideos` turn upstream items into `VideoDetails`.

  The client keeps no cache.
- **The five route handlers**: `/api/youtube-meta` (`YouTubeMeta`), `/api/youtube-proxy`, `/api/youtube-suggestions`,
  `/api/youtube-search` and `/api/youtube-trending`. Each handler is a function from three inputs:
  - the configured key;
  - the query parameters;
  - what each upstream call came to.

  It returns an `Exchange`: the status and JSON body of the response, and the upstream calls issued in order.
- **The environment helpers** (`Env`, from app/lib/env.ts).
- **The video-id pattern** (`VideoId`), shared by `extractVideoId` and the url form's `isYouTubeUrl`. It is modelled the
  way the regular-expression engine runs it:
  - the leftmost start wins;
  - alternatives are tried in order;
  - the greedy `.+\/` and `.*[?&]v=` settle on the last place on the line from which an id follows.
- **The url form** (`UrlForm`, from app/components/youtube-url-form.tsx). It is a class whose fields are the component's
  state. `handleAnalyze` and the click handler of a listed result are methods.
- **The SubRip export** (`Captions`, from app/components/captions-manager.tsx). It includes the proleptic Gregorian
  calendar behind `Date.prototype.toISOString`. That is the Date Time String Format, section 21.4.1.32 of ECMA-262. From
  it the `HH:MM:SS,mmm` timestamps are cut.
- **The story preview's paragraph and script parsing** (`StoryPreview`).
- **The story options record and its slugs** (`StoryOptions`).
- **Three state machines**, each a class:
  - the progress effect (`ProgressBar`);
  - the `generateStory` progression (`StoryGeneration`);
  - the voice previews (`VoiceShowcase`).

The JavaScript semantics the code relies on are stated explicitly:

- `||` on strings and numbers;
- `Number(x) || 10` and `parseInt(x)` on integer text;
- `toString()`;
- `trim()` over the whitespace set of `\s`;
- `split`, `join` and `filter(Boolean)`;
- `replace` of the first occurrence;
- ASCII `toLowerCase()`.

These live in the helper modules `Strings`, `Numbers`, `Http` and `Wrappers`.

The model follows the code wherever the repository's own description differs from it:

- `youtube.ts` has no cache, so none is modelled.
- A blank query in the url form returns before `setIsLoading(true)`, so `isLoading` is left as it was rather than set to
  false.
- In the script format, `const [character, dialogue] = paragraph.split(':')` drops everything after a second colon.
  `StoryPreview.ScriptSpeech` states that drop.

## Model

| member | source | states |
|---|---|---|
| `Env.GetYouTubeApiKey` | app/lib/env.ts:9-17 | succeeds exactly on a non-empty value and returns it unchanged; otherwise fails with exactly the "not configured" message |
| `Env.HasYouTubeApiKey` | app/lib/env.ts:20-22 | true exactly when the value is present and non-empty |
| `Env.GetSucceedsIffHas` | app/lib/env.ts:9-22 | getting the key succeeds if and only if the check says it is configured, and then yields the value |
| `Wrappers.MessageOr` | app/lib/youtube.ts:57 | an `Error` gives its message; any other thrown value gives the fallback |
| `YouTube.ParamAt` | app/lib/youtube.ts:67-72 | the first parameter appended under a name is the value read back under it |
| `YouTube.SearchRequestCarries` | app/lib/youtube.ts:67-72 | a search URL reads back the query, the key, type=video and a count whose `parseInt` is the count it was built with |
| `YouTube.VideoRequestCarries` | app/lib/youtube.ts:108-111 | a detail URL asks for exactly the one id, with `snippet,contentDetails` and the key |
| `YouTube.TrendingRequestCarries` | app/lib/youtube.ts:146-151 | a trending URL carries chart=mostPopular, the region, the key and a count that parses back to itself |
| `YouTube.SearchRequest` | app/lib/youtube.ts:67-72 | the search endpoint with five parameters: `part=snippet` and the count's decimal text |
| `YouTube.VideoRequest` | app/lib/youtube.ts:108-111 | the videos endpoint with three parameters, `part=snippet,contentDetails` |
| `YouTube.TrendingRequest` | app/lib/youtube.ts:146-151 | the videos endpoint with five parameters: `part=snippet,contentDetails` and the count's decimal text |
| `YouTube.RequestUrl.Append` | app/lib/youtube.ts:68 | an append adds exactly one parameter at the end, in order |
| `YouTube.BuildSearchUrl` | app/lib/youtube.ts:67-72 | the five appends build exactly the search request |
| `YouTube.BuildVideoUrl` | app/lib/youtube.ts:108-111 | the three appends build exactly the detail request |
| `YouTube.BuildTrendingUrl` | app/lib/youtube.ts:146-151 | the five appends build exactly the trending request |
| `YouTube.FetchWithAuth` | app/lib/youtube.ts:29-60 | an OK response passes through. A non-OK one fails with the upstream message, or "API request failed with status N", plus its status and upstream code. A non-OK response whose body is `null` fails with the `TypeError`'s message and no status or code. A transport failure fails with the caught message, or "Failed to fetch from YouTube API", and no status or code |
| `YouTube.StatusTellsReachability` | app/lib/youtube.ts:44-58 | a failure carries a status exactly when the upstream refused with a readable error body; a `null` error body, whose `TypeError` the `catch` rewraps, loses it |
| `YouTube.QuotaExceededExample` | app/lib/youtube.ts:40-49 | a 403 with an error body keeps its message, status and code; a 500 without a body gets the generic message |
| `YouTube.PickThumbnail` | app/lib/youtube.ts:89-91 | high's url if usable, else medium's if usable, else whatever default holds |
| `YouTube.PickThumbnailPrefersHighest` | app/lib/youtube.ts:89-91 | the pick is one of the three tiers; it is usable exactly when some tier is; a lower tier is picked only when every higher one is unusable |
| `YouTube.SearchYouTube` | app/lib/youtube.ts:62-102 | it fails exactly when the fetch fails, with `fetchWithAuth`'s error. Missing or empty items give []. Otherwise one video per item, in order, with id `id.videoId`, the snippet's fields, and `hasCaption` false |
| `YouTube.GetVideoDetails` | app/lib/youtube.ts:104-139 | a failed fetch fails as `fetchWithAuth` says. No first item fails with "Video not found" and no status or code. Otherwise the first item, under the requested id, with `hasCaption` true exactly when caption is "true" |
| `YouTube.GetTrendingVideos` | app/lib/youtube.ts:141-181 | like the search, but each id is the item's `id` and `hasCaption` reads `contentDetails.caption` |
| `YouTube.DefaultTrendingRequest` | app/lib/youtube.ts:141-151 | with the defaults, the request asks for region US and ten results |
| `YouTube.EmptyItemsContrast` | app/lib/youtube.ts:78-159 | an empty list succeeds with [] for search and trending, and fails with "Video not found" for details |
| `Numbers.OrDefault` | app/api/youtube-proxy/route.ts:22 | a non-zero integer is kept; NaN and 0 give the fallback |
| `Numbers.MaxResultsOr10` | app/api/youtube-proxy/route.ts:22 | the defaulted count is never 0 |
| `Numbers.NumberOf` | app/api/youtube-proxy/route.ts:22 | `Number` of a missing or blank parameter is 0; of other text, an integer exactly when the trimmed text is a signed decimal integer, and then its value |
| `Numbers.MaxResultsAbsent` | app/api/youtube-proxy/route.ts:22 | a missing or blank `maxResults` gives 10 |
| `Numbers.MaxResultsZeroOrText` | app/api/youtube-proxy/route.ts:36 | "0" and non-numeric text give 10 |
| `Numbers.MaxResultsOfCount` | app/api/youtube-trending/route.ts:11 | the decimal text of a positive count gives that count |
| `Numbers.DigitPrefix` | app/api/youtube-search/route.ts:32 | the longest prefix of digits of the radix, and the next character is not one |
| `Numbers.ParseUnsigned` | app/api/youtube-search/route.ts:32 | `parseInt` after the sign never yields a negative number |
| `Numbers.ParseInt` | app/api/youtube-search/route.ts:32 | `parseInt` of blank text is NaN, and a negative result needs a leading '-' after the whitespace |
| `Numbers.ToString` | app/lib/youtube.ts:70 | `toString()` always writes a non-empty text |
| `Numbers.ParseIntToString` | app/api/youtube-search/route.ts:32 | `parseInt` reads back every integer `toString` writes |
| `Numbers.NumberOfToString` | app/api/youtube-suggestions/route.ts:11 | `Number` reads back every integer `toString` writes |
| `Strings.LowerChar` | app/components/story-preview.tsx:19 | an ASCII capital maps to its small letter; every other character is kept |
| `Strings.ToLower` | app/components/story-preview.tsx:19 | same length; each character is its ASCII lower case |
| `Strings.ToLowerIdempotent` | app/components/story-preview.tsx:19 | lower-casing twice is lower-casing once |
| `Strings.TrimStart` | app/api/youtube-suggestions/route.ts:8 | a suffix of the input that starts with no whitespace, and everything removed is whitespace |
| `Strings.TrimEnd` | app/api/youtube-suggestions/route.ts:8 | a prefix of the input that ends with no whitespace, and everything removed is whitespace |
| `Strings.Trim` | app/api/youtube-suggestions/route.ts:8 | a trimmed text is empty or starts and ends with something other than whitespace |
| `Strings.TrimEmptyIff` | app/components/youtube-url-form.tsx:42 | trimming gives "" exactly when the text is all whitespace |
| `Strings.NoSpaceAtEndsTrim` | app/api/youtube-suggestions/route.ts:8 | a text with no whitespace at either end is its own trim |
| `Strings.TrimIdempotent` | app/api/youtube-suggestions/route.ts:8 | trimming twice is trimming once |
| `Strings.ContainsAt` | app/components/youtube-url-form.tsx:82 | `includes` holds exactly when some window of the text equals the pattern |
| `Strings.Split` | app/components/story-preview.tsx:15 | `split` always gives at least one piece |
| `Strings.SplitJoin` | app/components/story-preview.tsx:15 | joining the pieces with the separator gives back the text |
| `Strings.SplitPiecesFree` | app/components/story-preview.tsx:15 | no piece contains the separator |
| `Strings.SplitAfterPiece` | app/components/story-preview.tsx:56 | a piece free of the separator, followed by it, is the first piece of the split |
| `Strings.SplitWhole` | app/components/story-preview.tsx:56 | a text free of the separator splits into itself alone |
| `Strings.NonEmpty` | app/components/story-preview.tsx:15 | `filter(Boolean)` keeps only non-empty pieces of the input, and never more pieces |
| `Strings.NonEmptyAppend` | app/components/story-preview.tsx:15 | filtering distributes over concatenation, so order is kept |
| `Strings.JoinNothingAppend` | app/components/captions-manager.tsx:26 | `join('')` grows by exactly the piece appended |
| `Strings.Join` | app/components/captions-manager.tsx:25 | no pieces join to ""; otherwise the join starts with the first piece |
| `Strings.ReplaceFirst` | app/components/captions-manager.tsx:23 | replacing one character keeps the length |
| `Strings.ReplaceFirstAfter` | app/components/captions-manager.tsx:23 | only the first occurrence, the one after a prefix free of it, is replaced |
| `Strings.NatToString` | app/lib/youtube.ts:70 | decimal digits, with no leading zero except for 0 itself |
| `Strings.NatToStringValue` | app/lib/youtube.ts:70 | the digits read back as the number |
| `Strings.Pad2` | app/components/captions-manager.tsx:23 | two digits whose value is the number |
| `Strings.Pad3` | app/components/captions-manager.tsx:23 | three digits whose value is the number |
| `Strings.Pad4` | app/components/captions-manager.tsx:23 | four digits whose decimal value is the year |
| `VideoId.IdAt` | app/api/youtube-meta/route.ts:158 | the group captures exactly eleven id characters at the position, or fails exactly when they are not there |
| `VideoId.FirstSlash` | app/api/youtube-meta/route.ts:158 | `[^/]+` ends at the first '/' from the position, and there is no earlier one |
| `VideoId.LineEnd` | app/api/youtube-meta/route.ts:158 | `.` stops at the first line terminator |
| `VideoId.Greedy` | app/api/youtube-meta/route.ts:158 | the greedy endings fail exactly when no position in range yields a capture |
| `VideoId.FirstMatch` | app/api/youtube-meta/route.ts:158-159 | `match` fails exactly when no start position matches |
| `VideoId.ExtractVideoId` | app/api/youtube-meta/route.ts:157-161 | null, or exactly 11 characters with none of `"`, `&`, `?`, `/` or whitespace |
| `VideoId.IsYouTubeUrlIffExtracts` | app/components/youtube-url-form.tsx:35-37 | the form's test holds exactly when the route extracts an id |
| `VideoId.IsYouTubeUrl` | app/components/youtube-url-form.tsx:35-37 | a text the form takes for a link contains "youtube.com/" or "youtu.be/" |
| `VideoId.SkipTo` | app/api/youtube-meta/route.ts:158 | the leftmost match is unchanged when positions holding no 'y' are skipped, since neither host starts anywhere else |
| `VideoId.MatchAt` | app/api/youtube-meta/route.ts:158 | whatever a match starting at one position captures is eleven id characters |
| `VideoId.LongHostAt` | app/api/youtube-meta/route.ts:158 | after "youtube.com/" the three alternatives are tried in order: nested path, `v/`/`embed/`/`e/`, then the `v=` query |
| `VideoId.ShortLinkAt` | app/api/youtube-meta/route.ts:158 | after "youtu.be/" the match captures exactly the eleven characters that follow, if they are id characters |
| `VideoId.WatchAt` | app/api/youtube-meta/route.ts:158 | for `watch?v=<id>` the path alternatives fail and the query alternative captures `<id>` |
| `VideoId.PathAt` | app/api/youtube-meta/route.ts:158 | for `v/<id>`, `embed/<id>` and `e/<id>` the nested alternative fails and the short one captures `<id>` |
| `VideoId.GreedyPicksLast` | app/api/youtube-meta/route.ts:158 | the greedy search settles on the last position that yields a capture |
| `VideoId.ShortLinkForm` | app/api/youtube-meta/route.ts:158 | `https://youtu.be/<id>…` extracts `<id>` |
| `VideoId.WatchForm` | app/api/youtube-meta/route.ts:158 | `https://www.youtube.com/watch?v=<id>` extracts `<id>` |
| `VideoId.PathForms` | app/api/youtube-meta/route.ts:158 | `youtube.com/v/<id>`, `/embed/<id>` and `/e/<id>` extract `<id>` |
| `YouTubeMeta.ThumbnailUrl` | app/api/youtube-meta/route.ts:56 | the preview image is under `https://img.youtube.com/vi/` |
| `YouTubeMeta.VideoInfoRequest` | app/api/youtube-meta/route.ts:108-110 | the videos endpoint, reading back `part=snippet`, the id and the key |
| `YouTubeMeta.QueryRequest` | app/api/youtube-meta/route.ts:140-142 | the search endpoint, reading back `part=snippet`, the query, the key, `type=video` and `maxResults=5` |
| `YouTubeMeta.FetchVideoInfo` | app/api/youtube-meta/route.ts:105-121 | the first item's snippet. Missing items fail with no upstream message; an axios failure keeps its upstream message |
| `YouTubeMeta.TranscriptOrEmpty` | app/api/youtube-meta/route.ts:123-135 | a transcript failure gives [], and otherwise the library's items |
| `YouTubeMeta.FailureResponse` | app/api/youtube-meta/route.ts:69-102 | always 500. An upstream message with "API key" gives the fixed invalid-key message; any other upstream message is passed on; none gives "Failed to fetch YouTube data" |
| `YouTubeMeta.HandleGet` | app/api/youtube-meta/route.ts:24-103 | no key: 500 before any parameter. A url without an id: 400 "Invalid YouTube URL" and no call. An id: snippet and transcript fetched for it, and 200 exactly when the snippet is found, with that id and thumbnail. Otherwise a query: the raw items. Neither: 400 |
| `YouTubeMeta.UrlTakesPrecedence` | app/api/youtube-meta/route.ts:37-59 | with a non-empty url, any `query` gives the same exchange |
| `YouTubeMeta.FormLinksAreAccepted` | app/api/youtube-meta/route.ts:39-58 | a link the form recognises is never answered 400, and a 200 names the id the link holds |
| `YouTubeProxy.ListAnswer` | app/api/youtube-proxy/route.ts:62-68 | a list is returned as is; any failure is 500 "Failed to fetch from YouTube" |
| `YouTubeProxy.VideoAnswer` | app/api/youtube-proxy/route.ts:52-68 | a video is returned as is; any failure is 500 "Failed to fetch from YouTube" |
| `YouTubeProxy.HandleGet` | app/api/youtube-proxy/route.ts:5-69 | no key: 500 before the endpoint. A search without a query, or a video without an id: 400 and no call. Trending: defaulted count and region. Any other endpoint: 400 "Invalid endpoint" |
| `YouTubeProxy.FailuresHideDetail` | app/api/youtube-proxy/route.ts:62-68 | after the key check, a 500 always carries the one fixed message and follows exactly one call |
| `YouTubeProxy.TrendingDefaults` | app/api/youtube-proxy/route.ts:35-39 | without `maxResults` and `region`, trending asks for 10 videos of region US |
| `YouTubeSuggestions.QueryOf` | app/api/youtube-suggestions/route.ts:8 | present exactly when `q` is, and then trimmed |
| `YouTubeSuggestions.SearchTerm` | app/api/youtube-suggestions/route.ts:30 | genre searches "`q` videos"; every other type searches `q` |
| `YouTubeSuggestions.StatusFor` | app/api/youtube-suggestions/route.ts:45 | 500 exactly when the message mentions "API key", and 400 otherwise |
| `YouTubeSuggestions.Answer` | app/api/youtube-suggestions/route.ts:39-47 | a list is returned as is; a failure gives its message with the status by message |
| `YouTubeSuggestions.HandleGet` | app/api/youtube-suggestions/route.ts:5-55 | a malformed URL: 500 "Internal server error". No key: 500. Trending: the chart with defaulted count and region. A query: a search for the term. Otherwise: 400 with no call |
| `YouTubeSuggestions.TrendingIgnoresQuery` | app/api/youtube-suggestions/route.ts:24-27 | for trending, any `q`, or none, gives the same exchange |
| `YouTubeSuggestions.BlankQueryIsAbsent` | app/api/youtube-suggestions/route.ts:8 | a whitespace-only `q` behaves exactly as no `q` at all |
| `YouTubeSuggestions.GenreSearchesVideos` | app/api/youtube-suggestions/route.ts:29-32 | a genre request makes one search, for the trimmed query followed by " videos" |
| `YouTubeSearch.ResultCount` | app/api/youtube-search/route.ts:19-33 | an absent or empty `maxResults` gives the default 10; otherwise its `parseInt` |
| `YouTubeSearch.HandleGet` | app/api/youtube-search/route.ts:6-45 | no key: 500 before the URL is read. A URL that fails to parse: 500 with the caught message. No query: 400 "Query parameter is required". Otherwise one search, 200 exactly when the fetch is delivered, with the list unchanged, or 500 with the client's message |
| `YouTubeSearch.SearchRequestCount` | app/api/youtube-search/route.ts:29-33 | the request carries the decimal text of the count |
| `YouTubeSearch.CountReachesUpstream` | app/api/youtube-search/route.ts:29-33 | a count written as `toString` writes it reaches the YouTube API unchanged |
| `YouTubeSearch.BlankCountIsTen` | app/api/youtube-search/route.ts:19-33 | a blank `maxResults` is sent as "10" |
| `YouTubeTrending.HandleGet` | app/api/youtube-trending/route.ts:8-36 | a URL that fails to parse: 500 with the caught message. No key: 500 with the "not configured" message. Otherwise one trending request with the defaulted count and region, 200 exactly when delivered, with the list unchanged, or 500 with the client's message |
| `YouTubeTrending.NoParametersMeansClientDefaults` | app/api/youtube-trending/route.ts:11-12 | without parameters the route asks for what `getTrendingVideos(apiKey)` asks for |
| `YouTubeTrending.RefusalIsServerError` | app/api/youtube-trending/route.ts:26-34 | an upstream refusal becomes a 500 with the client's message, whatever its status |
| `UrlForm.Formatted` | app/components/youtube-url-form.tsx:56-62 | duration "" and id, title, thumbnail and transcript taken from the answer |
| `UrlForm.ErrorText` | app/components/youtube-url-form.tsx:79-87 | a message with "API key" becomes the fixed configuration message; any other is shown unchanged |
| `UrlForm.NoResultsShownAsIs` | app/components/youtube-url-form.tsx:75-86 | "No results found" is shown as it is |
| `UrlForm.ResultThumbnail` | app/components/youtube-url-form.tsx:163 | a listed result's high thumbnail, else the video's standard preview |
| `UrlForm.WatchLink` | app/components/youtube-url-form.tsx:136 | `https://youtube.com/watch?v=` followed by the id |
| `UrlForm.WatchLinkNamesVideo` | app/components/youtube-url-form.tsx:136 | the link built for a listed result is a YouTube link from which the route extracts that result's id |
| `UrlForm.YoutubeUrlForm.constructor` | app/components/youtube-url-form.tsx:30-34 | nothing typed, previewed, listed, shown as error or loading |
| `UrlForm.YoutubeUrlForm.SetUrl` | app/components/youtube-url-form.tsx:106 | only the text changes |
| `UrlForm.YoutubeUrlForm.IsBlank` | app/components/youtube-url-form.tsx:42 | `!url.trim()` holds exactly when the text is all whitespace |
| `UrlForm.YoutubeUrlForm.HandleAnalyze` | app/components/youtube-url-form.tsx:39-91 | blank input: error "Please enter…", no request, nothing else changed. A link: sent as `url`, and the answer previewed and selected, or the mapped error. Other text: sent as `query`, and a non-empty list shown with no preview, else "No results found" or the mapped error. After a request, not loading |
| `UrlForm.YoutubeUrlForm.ShowVideo` | app/components/youtube-url-form.tsx:53-65 | an answer becomes the preview and the selection; a failure sets the mapped error and keeps the preview |
| `UrlForm.YoutubeUrlForm.ShowResults` | app/components/youtube-url-form.tsx:69-76 | a non-empty list replaces the results and clears the preview; anything else is an error that changes neither |
| `UrlForm.YoutubeUrlForm.StopLoading` | app/components/youtube-url-form.tsx:89 | loading is over and nothing else changes |
| `UrlForm.YoutubeUrlForm.SelectResult` | app/components/youtube-url-form.tsx:131-159 | asks for the result's watch link. An answer is previewed, selected and clears the list; a failure sets the mapped error. Not loading afterwards |
| `Captions.DaysBeforeStep` | app/components/captions-manager.tsx:23 | the day count grows by each year's length, leap years having 366 days |
| `Captions.YearOf` | app/components/captions-manager.tsx:23 | a day number falls in a year at or after the start year, within that year's length |
| `Captions.YearOfCounts` | app/components/captions-manager.tsx:23 | the days of the whole years before the found year, plus the day within it, give back the day number |
| `Captions.YearOfBound` | app/components/captions-manager.tsx:23 | instants before the year 10000 have years before it |
| `Captions.MonthFrom` | app/components/captions-manager.tsx:23 | the month of a day: the last one starting at or before it |
| `Captions.DayOfMonthBound` | app/components/captions-manager.tsx:23 | a day of the year is one of the first 31 of its month |
| `Captions.DateText` | app/components/captions-manager.tsx:23 | "YYYY-MM-DD" is ten characters |
| `Captions.ClockText` | app/components/captions-manager.tsx:23 | "HH:mm:ss.sss" is twelve characters |
| `Captions.IsoString` | app/components/captions-manager.tsx:23 | `toISOString` is 24 characters with 'T' at 10 and 'Z' at 23 |
| `Captions.Timestamp` | app/components/captions-manager.tsx:23 | the cut timestamp is twelve characters |
| `Captions.TimestampIsClock` | app/components/captions-manager.tsx:23-24 | a timestamp is the SubRip `HH:MM:SS,mmm` of the instant's time of day |
| `Captions.IsoTime` | app/components/captions-manager.tsx:23 | characters 11 to 22 of the ISO text are its time of day |
| `Captions.ClockComma` | app/components/captions-manager.tsx:23 | the only '.' is the one before the milliseconds, and it becomes ',' |
| `Captions.ClockFieldsSum` | app/components/captions-manager.tsx:23 | hours, minutes, seconds and milliseconds add up to the time of day |
| `Captions.TimestampReadsBack` | app/components/captions-manager.tsx:23 | the fields are zero-padded digits split by ':' and ',', and read back as the instant modulo one day |
| `Captions.TimestampWraps` | app/components/captions-manager.tsx:23-24 | one day later the timestamp reads the same: the hour wraps modulo 24 |
| `Captions.Cues` | app/components/captions-manager.tsx:21-25 | one cue per line |
| `Captions.CuesAppend` | app/components/captions-manager.tsx:21-25 | a line appended to the transcript appends its cue, numbered one past the others, after the cues before it |
| `Captions.Cue` | app/components/captions-manager.tsx:22-24 | a cue is as long as its number, two twelve-character timestamps, the text and 9 separator characters |
| `Captions.CueText` | app/components/captions-manager.tsx:24 | the template's length is its pieces' plus 9; it starts with the number and ends with the blank line |
| `Captions.SrtContent` | app/components/captions-manager.tsx:21-25 | the export is empty exactly when the transcript is |
| `Captions.EmptyTranscript` | app/components/captions-manager.tsx:26 | an empty transcript exports as "" |
| `Captions.SrtContentAppend` | app/components/captions-manager.tsx:22-26 | a line appended adds exactly its cue, numbered one past the others |
| `Captions.CueLayout` | app/components/captions-manager.tsx:25 | a cue is the number, '\n', start, " --> ", end, '\n', the text and "\n\n", at fixed offsets |
| `Captions.CaptionsManager.constructor` | app/components/captions-manager.tsx:13 | not loading at first |
| `Captions.CaptionsManager.HandleDownload` | app/components/captions-manager.tsx:16-52 | the export of the fetched transcript, or none when fetching threw; loading is over either way |
| `StoryPreview.Paragraphs` | app/components/story-preview.tsx:15 | no paragraph is empty or contains "\n\n" |
| `StoryPreview.ParagraphsRoundTrip` | app/components/story-preview.tsx:15 | paragraphs joined by blank lines are read back in order, when none ends in a line break |
| `StoryPreview.ParagraphStops` | app/components/story-preview.tsx:15 | a paragraph not ending in '\n' holds no blank line that runs into the next one |
| `StoryPreview.SplitOfJoin` | app/components/story-preview.tsx:15 | splitting such a join at "\n\n" gives back its pieces |
| `StoryPreview.NonEmptyKeepsAll` | app/components/story-preview.tsx:15 | a list with no empty string passes `filter(Boolean)` whole |
| `StoryPreview.FormatStyles` | app/components/story-preview.tsx:18-31 | each known lower-cased format gets its style; every other one the serif default |
| `StoryPreview.Blocks` | app/components/story-preview.tsx:51-77 | exactly one block per paragraph, in order |
| `StoryPreview.Render` | app/components/story-preview.tsx:51-77 | a paragraph is a speech block exactly for a script containing ':', naming the trimmed text before it; a script without ':' is upper-cased; other formats keep the whole paragraph, the poem style for poems |
| `StoryPreview.FormatCaseIgnored` | app/components/story-preview.tsx:19-67 | style and blocks depend on the format only through its lower case |
| `StoryPreview.ScriptSpeech` | app/components/story-preview.tsx:55-62 | a script line names the trimmed speaker before the first ':' and the trimmed speech up to the second; later text is dropped |
| `StoryPreview.NoColonAnywhere` | app/components/story-preview.tsx:56 | ':' starts at no position of a colon-free text |
| `StoryPreview.ScriptWithoutColon` | app/components/story-preview.tsx:64 | a script paragraph without ':' is one upper-cased paragraph with its text |
| `StoryPreview.OtherFormatsKeepText` | app/components/story-preview.tsx:67-76 | outside scripts a paragraph is kept whole; poems, and only poems, keep their line breaks |
| `StoryOptions.With` | app/components/story-options.tsx:73-76 | the one field replaced, every other field and the prompt kept |
| `StoryOptions.Hyphenate` | app/components/story-options.tsx:75 | the result holds no whitespace |
| `StoryOptions.HyphenateRun` | app/components/story-options.tsx:75 | a run of whitespace of any length becomes a single '-' |
| `StoryOptions.HyphenateAfterWord` | app/components/story-options.tsx:75 | text without whitespace is copied through |
| `StoryOptions.TrimStartAfterRun` | app/components/story-options.tsx:75 | a whitespace run is consumed up to the first other character |
| `StoryOptions.HyphenateKeepsLower` | app/components/story-options.tsx:75 | hyphenating introduces no upper-case letter |
| `StoryOptions.Slug` | app/components/story-options.tsx:75 | a lower-case value with no whitespace |
| `StoryOptions.SlugIdempotent` | app/components/story-options.tsx:75 | slugging a slug changes nothing |
| `StoryOptions.HandleOptionChange` | app/components/story-options.tsx:72-77 | the category's field becomes the slug; every other field and the prompt are unchanged |
| `StoryOptions.HandleSliderChange` | app/components/story-options.tsx:79-84 | the slider's field becomes the value's decimal text; nothing else changes |
| `StoryOptions.SetCustomPrompt` | app/components/story-options.tsx:176-179 | the prompt becomes the typed text; no field changes |
| `StoryOptions.PromptLength` | app/components/story-options.tsx:170 | the prompt's length, or 0 without one |
| `StoryOptions.SliderText` | app/components/story-options.tsx:97-101 | the stored text, or the default's text when empty |
| `StoryOptions.SliderLabel` | app/components/story-options.tsx:97 | the stored text followed by '%', or the default's text followed by '%' when the field is empty |
| `StoryOptions.SliderValue` | app/components/story-options.tsx:101 | `parseInt` of the stored text, or the default itself when the field is empty |
| `StoryOptions.IsSelected` | app/components/story-options.tsx:122 | only a field in slug form, lower case with no whitespace, shows an option selected |
| `StoryOptions.ChoiceIsSelected` | app/components/story-options.tsx:122 | after a choice, an option shows selected exactly when its slug is the chosen one's |
| `StoryOptions.WordSlugsDiffer` | app/components/story-options.tsx:122 | capitalised words differing in first letter or length have different slugs |
| `StoryOptions.WordHasNoSpace` | app/components/story-options.tsx:21-25 | a capitalised word holds no whitespace |
| `StoryOptions.TabOfWords` | app/components/story-options.tsx:21-25 | the options of a tab are capitalised words |
| `StoryOptions.ChoicesAreWords` | app/components/story-options.tsx:21-26 | every option is non-empty, capitalised and without whitespace |
| `StoryOptions.ChoicesDistinguishable` | app/components/story-options.tsx:21-26 | two options of a tab differ in their first letter or their length |
| `StoryOptions.OnlyChoiceSelected` | app/components/story-options.tsx:120-122 | after choosing option i, option j shows selected exactly when j is i |
| `StoryOptions.EmptySliderIsDefault` | app/components/story-options.tsx:97-101 | an empty field shows and positions the slider at its default |
| `StoryOptions.EmptySliderIsFifty` | app/components/story-options.tsx:44-101 | every slider's default is 50, so an empty field shows "50%" |
| `StoryOptions.SliderReadsBack` | app/components/story-options.tsx:79-101 | a moved slider reads back the value it was moved to |
| `ProgressBar.ProcessingProgress` | app/components/progress-bar.tsx:26-28 | in (0, 95]. It is 95 exactly when there are no steps or (step+1)·100 ≥ 95·steps, and below that it is (step+1)·100/steps |
| `ProgressBar.Next` | app/components/progress-bar.tsx:25-34 | idle keeps the old value; processing gives a value in (0, 95]; complete gives 100 and error 0; 100 while not idle means complete |
| `ProgressBar.NextInRange` | app/components/progress-bar.tsx:25-34 | the progress stays in 0..100; processing never exceeds 95; only complete sets 100 |
| `ProgressBar.NextIdempotent` | app/components/progress-bar.tsx:25-34 | re-running the effect with the same props changes nothing |
| `ProgressBar.OnlyIdleKeeps` | app/components/progress-bar.tsx:25-34 | every status but idle ignores the old progress |
| `ProgressBar.ProcessingMonotone` | app/components/progress-bar.tsx:27-28 | a later step never shows less |
| `ProgressBar.DefaultStepsProgress` | app/components/progress-bar.tsx:14-28 | the default five steps read 20, 40, 60, 80, then 95 |
| `ProgressBar.Round` | app/components/progress-bar.tsx:47 | the nearest integer, halves rounded up |
| `ProgressBar.StepLine` | app/components/progress-bar.tsx:44-49 | shown exactly while processing with the step in range, with `steps[currentStep]` and the rounded percentage |
| `ProgressBar.RoundedInRange` | app/components/progress-bar.tsx:47 | the shown percentage is in 0..100 |
| `ProgressBar.ProgressBar.constructor` | app/components/progress-bar.tsx:23 | progress starts at 0 |
| `ProgressBar.ProgressBar.Update` | app/components/progress-bar.tsx:25-34 | processing sets the step rule, complete 100, error 0, idle keeps the old value; the result is in 0..100 |
| `StoryGeneration.Enrich` | hooks/useStoryGeneration.tsx:34-37 | the description is "Video transcript: " + transcript; every other field is kept |
| `StoryGeneration.Failure` | hooks/useStoryGeneration.tsx:41-72 | only a parsed answer succeeds. A non-OK response throws "Error generating story: <status>"; other failures rethrow what was thrown |
| `StoryGeneration.Run` | hooks/useStoryGeneration.tsx:30-72 | a run first sets steps 0, 1 and 2; step 3 follows exactly when the server responded, step 4 exactly when the story was read |
| `StoryGeneration.RunIsOrdered` | hooks/useStoryGeneration.tsx:30-64 | processing steps count 0, 1, 2, … without gaps, never past 4, and only the last value is final |
| `StoryGeneration.RunEnds` | hooks/useStoryGeneration.tsx:62-72 | a run completes at step 4 exactly when it succeeds; otherwise it ends in error, step 0, with the thrown message |
| `StoryGeneration.NotOkMessage` | hooks/useStoryGeneration.tsx:52-54 | a non-OK response is reported with its status code |
| `StoryGeneration.StoryGenerator.constructor` | hooks/useStoryGeneration.tsx:19-23 | story "", progress idle at step 0 |
| `StoryGeneration.StoryGenerator.SetProgress` | hooks/useStoryGeneration.tsx:30 | the progress is set and recorded; the story is kept |
| `StoryGeneration.StoryGenerator.GenerateStory` | hooks/useStoryGeneration.tsx:25-74 | posts the enriched video and the options. The progress values set are exactly the run for the outcome. On success the story is stored and returned; on failure the story is kept and the error rethrown |
| `VoiceShowcase.VoiceIdsDistinct` | app/components/voice-showcase.tsx:19-65 | the five voices have distinct ids |
| `VoiceShowcase.CountLabelIsFive` | app/components/voice-showcase.tsx:97 | the header says "5 voices available", the list's length |
| `VoiceShowcase.CountLabel` | app/components/voice-showcase.tsx:97 | the header is decimal digits whose value is the number of voices, then " voices available" |
| `VoiceShowcase.PlayingFor` | app/components/voice-showcase.tsx:73-91 | at most one audio element plays, the one the state names |
| `VoiceShowcase.VoiceShowcase.constructor` | app/components/voice-showcase.tsx:73 | nothing plays and nothing is selected |
| `VoiceShowcase.VoiceShowcase.HandlePreviewPlay` | app/components/voice-showcase.tsx:75-91 | the playing voice is paused and cleared; any other voice plays alone and is named; nothing is selected |
| `VoiceShowcase.VoiceShowcase.OnEnded` | app/components/voice-showcase.tsx:157 | the ended preview stops and the state is cleared |
| `VoiceShowcase.VoiceShowcase.ClickCard` | app/components/voice-showcase.tsx:107 | the card's voice is selected; the previews are untouched |
| `VoiceShowcase.VoiceShowcase.ClickPreviewButton` | app/components/voice-showcase.tsx:142-145 | the preview toggles and nothing is selected |
| `VoiceShowcase.SecondPreviewStopsFirst` | app/components/voice-showcase.tsx:80-90 | starting a second preview leaves only the second playing |

## Left out

- Network and library I/O are not executed. `fetch`, axios, `YoutubeTranscript.fetchTranscript` and the story POST are
  inputs: outcome datatypes that say what each call came to. `NextResponse` is the `Response` value.
- `console` logging is left out, because it does not affect any result.
- Percent-encoding is left out. Parameters are a map from name to value, so a repeated parameter, whose first value
  `searchParams.get` would return, is not represented. `encodeURIComponent` is not modelled either.
- Number forms other than decimal integers (and hex for `parseInt`) are left out. `Number` of any other text, such as
  "1e3", "0x10" or "1.5", is NaN in the model. Floating-point values are left out too.
- Progress percentages are reals, not IEEE doubles.
- Transcript offsets and durations are whole milliseconds. Non-integer offsets are not modelled.
- `Captions.CaptionsManager.HandleDownload`: it requires every line to end before the year 10000, because
  `toISOString` switches to a six-digit year there. Negative offsets are not modelled either.
- Case mapping and whitespace are ASCII `toLowerCase` and the `\s` set. Unicode case mapping is not modelled.
- Upstream items are assumed to have the shape the code reads. The code's `TypeError`s on items with a missing
  `snippet` or `id` are not modelled.
- Concurrency is not modelled: overlapping async handlers, React's batching of state updates, and re-renders.
- Each handler runs to completion, and state updates take effect in order.
- The DOM is left out: the Blob and anchor download, toasts, and `audio.play()` rejections. `play()` is taken to
  start the element.
- Render-only markup and styling are left out, such as the selected voice's border. An exception is the class names of
  the story preview's blocks, which the model keeps.
- `YOUTUBE_API_KEY_INVALID` is declared in app/lib/env.ts, but no route uses it, so it is only a constant.
- The voices' prose descriptions are omitted from `AVAILABLE_VOICES`, because nothing reads them.
- The 200-character limit of the custom prompt is enforced by the browser's `maxLength`. It is not a rule of the
  handler.
- `StoryGeneration.StoryGenerator.GenerateStory`: a parsed body without a `story` field, whose story would be
  `undefined`, is not modelled. A parsed body carries a string.
- `YouTube.SearchYouTube`, `YouTube.GetVideoDetails`, `YouTube.GetTrendingVideos`: an OK response whose body is not JSON
  is not modelled. There `response.json()` rejects with a `SyntaxError`, which the functions rethrow unwrapped. The
  model's OK outcome always carries a parsed body.
- `StoryOptions.PromptLength`, `VideoId.IdAt`: lengths count characters (Unicode scalar values), not UTF-16 code units
  as JavaScript does. A character outside the Basic Multilingual Plane counts 1 here and 2 in the source, for the
  200-character count and for the eleven characters of `{11}`.
- `Captions.Cues`: the cue at each position is not stated on its own. `Captions.CuesAppend` and
  `Captions.SrtContentAppend` give the same order one line at a time.
- `Numbers.ParseInt`: only blank input and the sign of the result are stated. Its round trip with `toString` is
  `Numbers.ParseIntToString`.
- `VideoId.ExtractVideoId`: the fact that the captured id is a substring of the input is not stated. Only its length
  and its characters are.
