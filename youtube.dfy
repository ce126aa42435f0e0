/**
 * The YouTube Data API client of app/lib/youtube.ts: the request each fetcher
 * builds, the folding of every failure into one `YouTubeAPIError`, and the
 * normalisation of upstream items into `VideoDetails`. The HTTP exchange
 * itself is an input: a `FetchOutcome` says what the upstream answered.
 * The client keeps no cache.
 */
module YouTube {
  import opened Wrappers
  import opened Strings
  import opened Numbers

  const BASE_URL: string := "https://www.googleapis.com/youtube/v3"

  /** One normalised video, as the routes return it. */
  datatype VideoDetails = VideoDetails(
    videoId: string,
    title: string,
    description: string,
    thumbnail: Option<string>,
    hasCaption: bool,
    publishedAt: string,
    channelTitle: string)

  /** `YouTubeAPIError(message, status?, code?)`: the one error type the client throws. */
  datatype YouTubeAPIError = YouTubeAPIError(message: string, status: Option<int>, code: Option<string>)

  // ---- Upstream JSON shapes ------------------------------------------------

  /** One entry of `snippet.thumbnails`; its `url` may be missing. */
  datatype Thumbnail = Thumbnail(url: Option<string>)

  /** `snippet.thumbnails`: each resolution may be missing. */
  datatype Thumbnails = Thumbnails(high: Option<Thumbnail>, medium: Option<Thumbnail>, default: Option<Thumbnail>)

  datatype Snippet = Snippet(
    title: string,
    description: string,
    thumbnails: Thumbnails,
    publishedAt: string,
    channelTitle: string)

  /** An item of `/search`: its id is an object holding `videoId`. */
  datatype SearchItem = SearchItem(id: SearchItemId, snippet: Snippet)
  datatype SearchItemId = SearchItemId(videoId: string)

  /** An item of `/videos`: its id is the video id itself. */
  datatype VideoItem = VideoItem(id: string, snippet: Snippet, contentDetails: ContentDetails)
  datatype ContentDetails = ContentDetails(caption: Option<string>)

  /** A list response; `items` may be missing. */
  datatype ListResponse<+T> = ListResponse(items: Option<seq<T>>)

  /** One line of a video's transcript: its text, where it starts and how long it lasts, in milliseconds. */
  datatype TranscriptItem = TranscriptItem(text: string, offset: nat, duration: nat)

  /** The `error` object of a failed response's JSON body. */
  datatype ErrorInfo = ErrorInfo(message: Option<string>, code: Option<string>)

  /**
   * What one `fetch` came to: an OK response with its JSON body; a non-OK
   * response with its status and the `error` object of its body (`None` when
   * the body has none, is not JSON, which the source reads as `{}`, or is a
   * JSON value other than `null`); a non-OK response whose body is JSON
   * `null`, where reading `errorData.error` throws a `TypeError` (its message,
   * which the engine words, is the input); or no response at all, with what
   * `fetch` threw.
   */
  datatype FetchOutcome<+T> =
    | Delivered(data: T)
    | Rejected(status: int, error: Option<ErrorInfo>)
    | NullBody(status: int, typeError: string)
    | Unreachable(cause: Thrown)

  // ---- Request URLs ----------------------------------------------------------

  /** A request URL: its base and its query parameters in order of appending. */
  datatype Request = Request(url: string, params: seq<(string, string)>)

  /** `url.searchParams.get(name)`: the first value appended under `name`. */
  function Param(params: seq<(string, string)>, name: string): Option<string>
    decreases |params|
  {
    if |params| == 0 then None
    else if params[0].0 == name then Some(params[0].1)
    else Param(params[1..], name)
  }

  /** The first pair appended under a name gives its value. */
  lemma {:induction false} ParamAt(params: seq<(string, string)>, i: nat)
    requires i < |params|
    requires forall j :: 0 <= j < i ==> params[j].0 != params[i].0
    ensures Param(params, params[i].0) == Some(params[i].1)
    decreases i
  {
    if i > 0 {
      ParamAt(params[1..], i - 1);
    }
  }

  /** `searchYouTube`'s request: five parameters, each read back by its name. */
  function SearchRequest(query: string, apiKey: string, maxResults: JsNum): (r: Request)
    ensures r.url == BASE_URL + "/search" && |r.params| == 5
    ensures Param(r.params, "part") == Some("snippet") &&
            Param(r.params, "maxResults") == Some(Numbers.ToString(maxResults))
  {
    var params := [("part", "snippet"), ("type", "video"), ("maxResults", Numbers.ToString(maxResults)),
                   ("q", query), ("key", apiKey)];
    ParamAt(params, 2);
    Request(BASE_URL + "/search", params)
  }

  /** `getVideoDetails`'s request. */
  function VideoRequest(videoId: string, apiKey: string): (r: Request)
    ensures r.url == BASE_URL + "/videos" && |r.params| == 3
    ensures Param(r.params, "part") == Some("snippet,contentDetails")
  {
    Request(BASE_URL + "/videos", [("part", "snippet,contentDetails"), ("id", videoId), ("key", apiKey)])
  }

  /** `getTrendingVideos`'s request. */
  function TrendingRequest(apiKey: string, maxResults: JsNum, regionCode: string): (r: Request)
    ensures r.url == BASE_URL + "/videos" && |r.params| == 5
    ensures Param(r.params, "part") == Some("snippet,contentDetails") &&
            Param(r.params, "maxResults") == Some(Numbers.ToString(maxResults))
  {
    var params := [("part", "snippet,contentDetails"), ("chart", "mostPopular"), ("regionCode", regionCode),
                   ("maxResults", Numbers.ToString(maxResults)), ("key", apiKey)];
    ParamAt(params, 3);
    Request(BASE_URL + "/videos", params)
  }

  /**
   * The upstream reads back from a search request exactly the query, key and
   * result count it was built from.
   */
  lemma SearchRequestCarries(query: string, apiKey: string, maxResults: int)
    ensures var r := SearchRequest(query, apiKey, Int(maxResults));
      Param(r.params, "q") == Some(query) && Param(r.params, "key") == Some(apiKey) &&
      Param(r.params, "type") == Some("video") &&
      Param(r.params, "maxResults").Some? && ParseInt(Param(r.params, "maxResults").value) == Int(maxResults)
  {
    var r := SearchRequest(query, apiKey, Int(maxResults));
    ParamAt(r.params, 1);
    ParamAt(r.params, 2);
    ParamAt(r.params, 3);
    ParamAt(r.params, 4);
    ParseIntToString(maxResults);
  }

  /** A trending request carries the chart, the region and the result count. */
  lemma TrendingRequestCarries(apiKey: string, maxResults: int, regionCode: string)
    ensures var r := TrendingRequest(apiKey, Int(maxResults), regionCode);
      Param(r.params, "chart") == Some("mostPopular") && Param(r.params, "regionCode") == Some(regionCode) &&
      Param(r.params, "key") == Some(apiKey) &&
      Param(r.params, "maxResults").Some? && ParseInt(Param(r.params, "maxResults").value) == Int(maxResults)
  {
    var r := TrendingRequest(apiKey, Int(maxResults), regionCode);
    ParamAt(r.params, 1);
    ParamAt(r.params, 2);
    ParamAt(r.params, 3);
    ParamAt(r.params, 4);
    ParseIntToString(maxResults);
  }

  /** A detail request asks for exactly the one id. */
  lemma VideoRequestCarries(videoId: string, apiKey: string)
    ensures var r := VideoRequest(videoId, apiKey);
      Param(r.params, "id") == Some(videoId) && Param(r.params, "key") == Some(apiKey) &&
      Param(r.params, "part") == Some("snippet,contentDetails")
  {
    var r := VideoRequest(videoId, apiKey);
    ParamAt(r.params, 1);
    ParamAt(r.params, 2);
  }

  /** `new URL(base)` followed by `url.searchParams.append(...)` calls. */
  class RequestUrl {
    const base: string
    var params: seq<(string, string)>

    constructor (base: string)
      ensures this.base == base && params == []
    {
      this.base := base;
      params := [];
    }

    method Append(name: string, value: string)
      modifies this
      ensures params == old(params) + [(name, value)]
    {
      params := params + [(name, value)];
    }

    function AsRequest(): Request
      reads this
    {
      Request(base, params)
    }
  }

  /** The URL `searchYouTube` builds, one `append` at a time. */
  method BuildSearchUrl(query: string, apiKey: string, maxResults: JsNum) returns (url: RequestUrl)
    ensures fresh(url) && url.AsRequest() == SearchRequest(query, apiKey, maxResults)
  {
    url := new RequestUrl(BASE_URL + "/search");
    url.Append("part", "snippet");
    url.Append("type", "video");
    url.Append("maxResults", Numbers.ToString(maxResults));
    url.Append("q", query);
    url.Append("key", apiKey);
  }

  /** The URL `getVideoDetails` builds. */
  method BuildVideoUrl(videoId: string, apiKey: string) returns (url: RequestUrl)
    ensures fresh(url) && url.AsRequest() == VideoRequest(videoId, apiKey)
  {
    url := new RequestUrl(BASE_URL + "/videos");
    url.Append("part", "snippet,contentDetails");
    url.Append("id", videoId);
    url.Append("key", apiKey);
  }

  /** The URL `getTrendingVideos` builds. */
  method BuildTrendingUrl(apiKey: string, maxResults: JsNum, regionCode: string) returns (url: RequestUrl)
    ensures fresh(url) && url.AsRequest() == TrendingRequest(apiKey, maxResults, regionCode)
  {
    url := new RequestUrl(BASE_URL + "/videos");
    url.Append("part", "snippet,contentDetails");
    url.Append("chart", "mostPopular");
    url.Append("regionCode", regionCode);
    url.Append("maxResults", Numbers.ToString(maxResults));
    url.Append("key", apiKey);
  }

  // ---- Error folding -----------------------------------------------------------

  /** JavaScript truthiness of an optional string. */
  predicate Usable(s: Option<string>) {
    s.Some? && s.value != ""
  }

  /** `errorData.error?.message || \`API request failed with status ${status}\``. */
  function RejectionMessage(status: int, error: Option<ErrorInfo>): (m: string)
  {
    if error.Some? && Usable(error.value.message) then error.value.message.value
    else "API request failed with status " + Numbers.ToString(Int(status))
  }

  /**
   * `fetchWithAuth`: an OK response passes through; a non-OK one becomes a
   * `YouTubeAPIError` carrying the upstream message (or the generic one), the
   * HTTP status and the upstream code, and it leaves the `catch` unchanged;
   * a transport failure, or the `TypeError` a `null` error body raises inside
   * the `try`, becomes a `YouTubeAPIError` with no status and no code.
   */
  function FetchWithAuth<T>(outcome: FetchOutcome<T>): (r: Result<T, YouTubeAPIError>)
    ensures outcome.Delivered? <==> r.Ok?
    ensures outcome.Delivered? ==> r.value == outcome.data
    ensures outcome.Rejected? ==> r.Err? && r.error.status == Some(outcome.status)
    ensures outcome.Rejected? ==> r.error.code == (if outcome.error.Some? then outcome.error.value.code else None)
    ensures outcome.Rejected? && outcome.error.Some? && Usable(outcome.error.value.message) ==>
              r.error.message == outcome.error.value.message.value
    ensures outcome.Rejected? && !(outcome.error.Some? && Usable(outcome.error.value.message)) ==>
              r.error.message == "API request failed with status " + Numbers.ToString(Int(outcome.status))
    ensures outcome.NullBody? ==> r == Err(YouTubeAPIError(outcome.typeError, None, None))
    ensures outcome.Unreachable? ==> r.Err? && r.error.status == None && r.error.code == None
    ensures outcome.Unreachable? ==>
              r.error.message == (if outcome.cause.ErrorValue? then outcome.cause.message else "Failed to fetch from YouTube API")
  {
    match outcome
    case Delivered(data) => Ok(data)
    case Rejected(status, error) =>
      Err(YouTubeAPIError(RejectionMessage(status, error), Some(status),
                          if error.Some? then error.value.code else None))
    case NullBody(_, typeError) =>
      Err(YouTubeAPIError(typeError, None, None))
    case Unreachable(cause) =>
      Err(YouTubeAPIError(MessageOr(cause, "Failed to fetch from YouTube API"), None, None))
  }

  /**
   * A failure carries a status exactly when the upstream refused with a body
   * the client could read: a `null` body loses the status as a transport
   * failure does.
   */
  lemma StatusTellsReachability<T>(outcome: FetchOutcome<T>)
    requires !outcome.Delivered?
    ensures FetchWithAuth(outcome).error.status.Some? <==> outcome.Rejected?
  {
  }

  /** HTTP 403 with `{"error":{"message":"quota exceeded","code":"quotaExceeded"}}`. */
  lemma QuotaExceededExample()
    ensures FetchWithAuth<ListResponse<SearchItem>>(Rejected(403, Some(ErrorInfo(Some("quota exceeded"), Some("quotaExceeded")))))
            == Err(YouTubeAPIError("quota exceeded", Some(403), Some("quotaExceeded")))
    ensures FetchWithAuth<ListResponse<SearchItem>>(Rejected(500, None))
            == Err(YouTubeAPIError("API request failed with status 500", Some(500), None))
  {
    assert Numbers.ToString(Int(500)) == "500" by {
      assert NatToString(5) == "5";
      assert NatToString(50) == NatToString(5) + [DigitChar(0)] == "50";
      assert NatToString(500) == NatToString(50) + [DigitChar(0)] == "500";
    }
    assert RejectionMessage(500, None) == "API request failed with status " + "500" == "API request failed with status 500";
  }

  // ---- Normalisation -----------------------------------------------------------

  function TierUrl(t: Option<Thumbnail>): Option<string> {
    if t.Some? then t.value.url else None
  }

  /**
   * `thumbnails.high?.url || thumbnails.medium?.url || thumbnails.default?.url`:
   * the first tier with a non-empty url, else whatever the default tier holds.
   */
  function PickThumbnail(t: Thumbnails): (r: Option<string>)
    ensures Usable(TierUrl(t.high)) ==> r == TierUrl(t.high)
    ensures !Usable(TierUrl(t.high)) && Usable(TierUrl(t.medium)) ==> r == TierUrl(t.medium)
    ensures !Usable(TierUrl(t.high)) && !Usable(TierUrl(t.medium)) ==> r == TierUrl(t.default)
  {
    if Usable(TierUrl(t.high)) then TierUrl(t.high)
    else if Usable(TierUrl(t.medium)) then TierUrl(t.medium)
    else TierUrl(t.default)
  }

  /**
   * The fallback chain as a property: the chosen url is usable exactly when
   * some tier has one, and a usable choice is the highest-resolution usable one.
   */
  lemma PickThumbnailPrefersHighest(t: Thumbnails)
    ensures Usable(PickThumbnail(t)) <==>
              Usable(TierUrl(t.high)) || Usable(TierUrl(t.medium)) || Usable(TierUrl(t.default))
    ensures PickThumbnail(t) in {TierUrl(t.high), TierUrl(t.medium), TierUrl(t.default)}
    ensures PickThumbnail(t) == TierUrl(t.medium) && TierUrl(t.medium) != TierUrl(t.high) ==> !Usable(TierUrl(t.high))
    ensures PickThumbnail(t) == TierUrl(t.default) && Usable(PickThumbnail(t)) &&
              TierUrl(t.default) != TierUrl(t.high) && TierUrl(t.default) != TierUrl(t.medium) ==>
              !Usable(TierUrl(t.high)) && !Usable(TierUrl(t.medium))
  {
  }

  function FromSearchItem(item: SearchItem): VideoDetails {
    VideoDetails(item.id.videoId, item.snippet.title, item.snippet.description,
                 PickThumbnail(item.snippet.thumbnails), false,
                 item.snippet.publishedAt, item.snippet.channelTitle)
  }

  function FromVideoItem(videoId: string, item: VideoItem): VideoDetails {
    VideoDetails(videoId, item.snippet.title, item.snippet.description,
                 PickThumbnail(item.snippet.thumbnails), item.contentDetails.caption == Some("true"),
                 item.snippet.publishedAt, item.snippet.channelTitle)
  }

  /** The items of a list body; a missing `items` counts as none. */
  function ItemsOf<T>(data: ListResponse<T>): seq<T> {
    if data.items.Some? then data.items.value else []
  }

  /** `true` when every field of `v` is the field of `item` it is copied from. */
  predicate CopiesSnippet(v: VideoDetails, s: Snippet) {
    v.title == s.title && v.description == s.description && v.thumbnail == PickThumbnail(s.thumbnails) &&
    v.publishedAt == s.publishedAt && v.channelTitle == s.channelTitle
  }

  /**
   * `searchYouTube`: a failed fetch fails with its `YouTubeAPIError`; a body
   * with no items is the empty list; otherwise one video per item, in order,
   * its id taken from `id.videoId` and `hasCaption` always false.
   */
  function SearchYouTube(outcome: FetchOutcome<ListResponse<SearchItem>>): (r: Result<seq<VideoDetails>, YouTubeAPIError>)
    ensures r.Err? <==> !outcome.Delivered?
    ensures r.Err? ==> r.error == FetchWithAuth(outcome).error
    ensures r.Ok? ==> |r.value| == |ItemsOf(outcome.data)|
    ensures r.Ok? ==> forall i :: 0 <= i < |r.value| ==>
              r.value[i].videoId == ItemsOf(outcome.data)[i].id.videoId && !r.value[i].hasCaption &&
              CopiesSnippet(r.value[i], ItemsOf(outcome.data)[i].snippet)
  {
    match FetchWithAuth(outcome)
    case Err(e) => Err(e)
    case Ok(data) =>
      if data.items.None? || |data.items.value| == 0 then Ok([])
      else
        var items := data.items.value;
        Ok(seq(|items|, i requires 0 <= i < |items| => FromSearchItem(items[i])))
  }

  /**
   * `getVideoDetails`: a failed fetch fails as `fetchWithAuth` says; a body
   * with no first item fails with `YouTubeAPIError('Video not found')`, with
   * no status and no code; otherwise the first item, under the requested id.
   */
  function GetVideoDetails(videoId: string, outcome: FetchOutcome<ListResponse<VideoItem>>): (r: Result<VideoDetails, YouTubeAPIError>)
    ensures !outcome.Delivered? ==> r == Err(FetchWithAuth(outcome).error)
    ensures outcome.Delivered? && |ItemsOf(outcome.data)| == 0 ==> r == Err(YouTubeAPIError("Video not found", None, None))
    ensures outcome.Delivered? && |ItemsOf(outcome.data)| > 0 ==>
              var item := ItemsOf(outcome.data)[0];
              r.Ok? && r.value.videoId == videoId && CopiesSnippet(r.value, item.snippet) &&
              (r.value.hasCaption <==> item.contentDetails.caption == Some("true"))
  {
    match FetchWithAuth(outcome)
    case Err(e) => Err(e)
    case Ok(data) =>
      if data.items.None? || |data.items.value| == 0 then Err(YouTubeAPIError("Video not found", None, None))
      else Ok(FromVideoItem(videoId, data.items.value[0]))
  }

  /**
   * `getTrendingVideos`: like `searchYouTube`, but each id is the item's `id`
   * and `hasCaption` reads `contentDetails.caption`.
   */
  function GetTrendingVideos(outcome: FetchOutcome<ListResponse<VideoItem>>): (r: Result<seq<VideoDetails>, YouTubeAPIError>)
    ensures r.Err? <==> !outcome.Delivered?
    ensures r.Err? ==> r.error == FetchWithAuth(outcome).error
    ensures r.Ok? ==> |r.value| == |ItemsOf(outcome.data)|
    ensures r.Ok? ==> forall i :: 0 <= i < |r.value| ==>
              var item := ItemsOf(outcome.data)[i];
              r.value[i].videoId == item.id && CopiesSnippet(r.value[i], item.snippet) &&
              (r.value[i].hasCaption <==> item.contentDetails.caption == Some("true"))
  {
    match FetchWithAuth(outcome)
    case Err(e) => Err(e)
    case Ok(data) =>
      if data.items.None? || |data.items.value| == 0 then Ok([])
      else
        var items := data.items.value;
        Ok(seq(|items|, i requires 0 <= i < |items| => FromVideoItem(items[i].id, items[i])))
  }

  /** The defaults of `getTrendingVideos(apiKey, maxResults = 10, regionCode = 'US')`. */
  function DefaultTrendingRequest(apiKey: string): (r: Request)
    ensures Param(r.params, "regionCode") == Some("US")
    ensures Param(r.params, "maxResults") == Some("10")
  {
    var r := TrendingRequest(apiKey, Int(10), "US");
    assert NatToString(10) == "10" by {
      assert NatToString(1) == "1";
      assert NatToString(10) == NatToString(1) + [DigitChar(0)];
    }
    ParamAt(r.params, 2);
    ParamAt(r.params, 3);
    r
  }

  /** An empty list is a successful result for the list fetchers and a failure for the detail fetcher. */
  lemma EmptyItemsContrast(videoId: string, data: ListResponse<VideoItem>, search: ListResponse<SearchItem>)
    requires |ItemsOf(data)| == 0 && |ItemsOf(search)| == 0
    ensures SearchYouTube(Delivered(search)) == Ok([])
    ensures GetTrendingVideos(Delivered(data)) == Ok([])
    ensures GetVideoDetails(videoId, Delivered(data)) == Err(YouTubeAPIError("Video not found", None, None))
  {
  }
}
