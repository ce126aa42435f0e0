/**
 * The `/api/youtube-meta` route (app/api/youtube-meta/route.ts). With a `url`
 * parameter it extracts the video id, fetches the video's snippet and its
 * transcript, and answers with the video's metadata; with a `query` parameter
 * it answers with the raw items of a five-result search. The route reads the
 * API key once, when the module loads, and calls the YouTube API through
 * axios; each call is an input here, an `AxiosOutcome`.
 */
module YouTubeMeta {
  import opened Wrappers
  import opened Strings
  import opened Http
  import opened YouTube
  import opened VideoId

  const KEY_NOT_CONFIGURED: string :=
    "YouTube API key not configured. Make sure NEXT_PUBLIC_YOUTUBE_API_KEY is set in .env.local"

  const INVALID_KEY: string := "Invalid YouTube API key. Please check your API key configuration."

  /**
   * What an axios call came to: the response body, or a rejection together
   * with `err.response?.data?.error?.message` (`None` when the rejection has
   * no response, or its body no such message).
   */
  datatype AxiosOutcome<+T> = Received(data: T) | AxiosFailed(upstreamMessage: Option<string>)

  /** An item of `/videos?part=snippet`: only its snippet is read. */
  datatype SnippetItem = SnippetItem(snippet: Snippet)

  /** The upstream calls the route makes. */
  datatype Call = Api(request: Request) | FetchTranscript(videoId: string)

  /** The route's payloads: a video's metadata, or the search items exactly as the API listed them. */
  datatype MetaData =
    | VideoMeta(id: string, title: string, description: string, thumbnailUrl: string, transcript: seq<TranscriptItem>)
    | SearchItems(items: Option<seq<SearchItem>>)

  /** `videos?part=snippet&id=<videoId>&key=<apiKey>` */
  function VideoInfoRequest(videoId: string, apiKey: string): (r: Request)
    ensures r.url == BASE_URL + "/videos"
    ensures Param(r.params, "part") == Some("snippet") && Param(r.params, "id") == Some(videoId) &&
            Param(r.params, "key") == Some(apiKey)
  {
    var params := [("part", "snippet"), ("id", videoId), ("key", apiKey)];
    ParamAt(params, 1);
    ParamAt(params, 2);
    Request(BASE_URL + "/videos", params)
  }

  /** `search?part=snippet&q=<query>&key=<apiKey>&type=video&maxResults=5` */
  function QueryRequest(query: string, apiKey: string): (r: Request)
    ensures r.url == BASE_URL + "/search"
    ensures Param(r.params, "part") == Some("snippet") && Param(r.params, "q") == Some(query) &&
            Param(r.params, "key") == Some(apiKey) && Param(r.params, "type") == Some("video") &&
            Param(r.params, "maxResults") == Some("5")
  {
    var params := [("part", "snippet"), ("q", query), ("key", apiKey), ("type", "video"), ("maxResults", "5")];
    ParamAt(params, 1);
    ParamAt(params, 2);
    ParamAt(params, 3);
    ParamAt(params, 4);
    Request(BASE_URL + "/search", params)
  }

  /** The preview image the route names for a video. */
  function ThumbnailUrl(videoId: string): (u: string)
    ensures StartsWith(u, "https://img.youtube.com/vi/")
  {
    "https://img.youtube.com/vi/" + videoId + "/maxresdefault.jpg"
  }

  /**
   * `fetchVideoInfo`: the first item's snippet. A body without items throws
   * `Error('Video not found')`, which has no `response`, so it reaches the
   * route's `catch` without an upstream message; an axios rejection is rethrown.
   */
  function FetchVideoInfo(outcome: AxiosOutcome<ListResponse<SnippetItem>>): (r: Result<Snippet, Option<string>>)
    ensures r.Ok? <==> outcome.Received? && |ItemsOf(outcome.data)| > 0
    ensures r.Ok? ==> r.value == ItemsOf(outcome.data)[0].snippet
    ensures outcome.AxiosFailed? ==> r == Err(outcome.upstreamMessage)
    ensures outcome.Received? && |ItemsOf(outcome.data)| == 0 ==> r == Err(None)
  {
    match outcome
    case AxiosFailed(m) => Err(m)
    case Received(data) =>
      if data.items.None? || |data.items.value| == 0 then Err(None) else Ok(data.items.value[0].snippet)
  }

  /** `fetchTranscript`: the library's items (`None` when it threw), with a failure read as no transcript at all. */
  function TranscriptOrEmpty(outcome: Option<seq<TranscriptItem>>): (r: seq<TranscriptItem>)
    ensures outcome.None? ==> r == []
    ensures outcome.Some? ==> r == outcome.value
  {
    outcome.GetOr([])
  }

  /**
   * The `catch` block: every failure is a 500. An upstream message that
   * mentions "API key" is replaced by the fixed invalid-key message; any other
   * upstream message is passed on; with none, the generic message.
   */
  function FailureResponse(upstreamMessage: Option<string>): (r: Response<MetaData>)
    ensures r.status == 500 && r.body.ErrorBody?
    ensures Truthy(upstreamMessage) && Contains(upstreamMessage.value, "API key") ==> r.body.error == INVALID_KEY
    ensures Truthy(upstreamMessage) && !Contains(upstreamMessage.value, "API key") ==> r.body.error == upstreamMessage.value
    ensures !Truthy(upstreamMessage) ==> r.body.error == "Failed to fetch YouTube data"
  {
    if Truthy(upstreamMessage) then
      if Contains(upstreamMessage.value, "API key") then Failure(500, INVALID_KEY)
      else Failure(500, upstreamMessage.value)
    else Failure(500, "Failed to fetch YouTube data")
  }

  /**
   * `GET /api/youtube-meta`, given the key read at load time, the query
   * parameters and what each upstream call would come to.
   */
  function HandleGet(
    apiKey: Option<string>,
    params: map<string, string>,
    info: AxiosOutcome<ListResponse<SnippetItem>>,
    transcript: Option<seq<TranscriptItem>>,
    search: AxiosOutcome<ListResponse<SearchItem>>): (x: Exchange<MetaData, Call>)
    // The key is checked before any parameter.
    ensures !Truthy(apiKey) ==> x == Exchange(Failure(500, KEY_NOT_CONFIGURED), [])
    // A url without a recognisable id is refused without any upstream call.
    ensures Truthy(apiKey) && Truthy(Get(params, "url")) && ExtractVideoId(Get(params, "url").value).None? ==>
              x == Exchange(Failure(400, "Invalid YouTube URL"), [])
    // A recognised id: the snippet and the transcript are fetched for it, and a success carries it.
    ensures Truthy(apiKey) && Truthy(Get(params, "url")) && ExtractVideoId(Get(params, "url").value).Some? ==>
              var id := ExtractVideoId(Get(params, "url").value).value;
              x.issued == [Api(VideoInfoRequest(id, apiKey.value)), FetchTranscript(id)] &&
              (x.response.status == 200 <==> FetchVideoInfo(info).Ok?) &&
              (FetchVideoInfo(info).Ok? ==>
                 x.response.body == Payload(VideoMeta(id, FetchVideoInfo(info).value.title, FetchVideoInfo(info).value.description,
                                                      ThumbnailUrl(id), TranscriptOrEmpty(transcript)))) &&
              (FetchVideoInfo(info).Err? ==> x.response == FailureResponse(FetchVideoInfo(info).error))
    // Only without a url is the query used.
    ensures Truthy(apiKey) && !Truthy(Get(params, "url")) && Truthy(Get(params, "query")) ==>
              x.issued == [Api(QueryRequest(Get(params, "query").value, apiKey.value))] &&
              (search.Received? ==> x.response == Success(SearchItems(search.data.items))) &&
              (search.AxiosFailed? ==> x.response == FailureResponse(search.upstreamMessage))
    ensures Truthy(apiKey) && !Truthy(Get(params, "url")) && !Truthy(Get(params, "query")) ==>
              x == Exchange(Failure(400, "Missing url or query parameter"), [])
  {
    var url := Get(params, "url");
    var query := Get(params, "query");
    if !Truthy(apiKey) then Exchange(Failure(500, KEY_NOT_CONFIGURED), [])
    else if Truthy(url) then
      match ExtractVideoId(url.value)
      case None => Exchange(Failure(400, "Invalid YouTube URL"), [])
      case Some(id) =>
        var calls := [Api(VideoInfoRequest(id, apiKey.value)), FetchTranscript(id)];
        match FetchVideoInfo(info)
        case Err(m) => Exchange(FailureResponse(m), calls)
        case Ok(snippet) =>
          Exchange(Success(VideoMeta(id, snippet.title, snippet.description, ThumbnailUrl(id), TranscriptOrEmpty(transcript))), calls)
    else if Truthy(query) then
      var calls := [Api(QueryRequest(query.value, apiKey.value))];
      match search
      case AxiosFailed(m) => Exchange(FailureResponse(m), calls)
      case Received(data) => Exchange(Success(SearchItems(data.items)), calls)
    else Exchange(Failure(400, "Missing url or query parameter"), [])
  }

  /** A non-empty `url` decides the answer: whatever `query` says is ignored. */
  lemma UrlTakesPrecedence(
    apiKey: Option<string>, params: map<string, string>, query: string,
    info: AxiosOutcome<ListResponse<SnippetItem>>, transcript: Option<seq<TranscriptItem>>,
    search: AxiosOutcome<ListResponse<SearchItem>>)
    requires Truthy(Get(params, "url"))
    ensures HandleGet(apiKey, params["query" := query], info, transcript, search)
         == HandleGet(apiKey, params, info, transcript, search)
  {
    assert Get(params["query" := query], "url") == Get(params, "url");
  }

  /**
   * What the url form accepts as a link the route accepts too: the two share
   * one pattern, so a configured route never answers such a link with
   * "Invalid YouTube URL", and a metadata answer names the id the link holds.
   */
  lemma FormLinksAreAccepted(
    apiKey: string, link: string,
    info: AxiosOutcome<ListResponse<SnippetItem>>, transcript: Option<seq<TranscriptItem>>,
    search: AxiosOutcome<ListResponse<SearchItem>>)
    requires apiKey != "" && IsYouTubeUrl(link)
    ensures var x := HandleGet(Some(apiKey), map["url" := link], info, transcript, search);
            x.response.status != 400 &&
            (x.response.status == 200 ==> x.response.body.data.id == ExtractVideoId(link).value)
  {
    IsYouTubeUrlIffExtracts(link);
    assert link != "";
    assert Get(map["url" := link], "url") == Some(link);
  }
}
