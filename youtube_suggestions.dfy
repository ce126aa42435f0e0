/**
 * The `/api/youtube-suggestions` route (app/api/youtube-suggestions/route.ts):
 * trending videos, or a search for the trimmed `q` (for the `genre` type, for
 * "`q` videos"). A failure of the client is answered 500 when its message
 * mentions the API key and 400 otherwise.
 */
module YouTubeSuggestions {
  import opened Wrappers
  import opened Strings
  import opened Numbers
  import opened Env
  import opened Http
  import opened YouTube

  /** `searchParams.get("q")?.trim()` */
  function QueryOf(params: map<string, string>): (q: Option<string>)
    ensures Get(params, "q").None? <==> q.None?
    ensures q.Some? ==> q.value == Trim(Get(params, "q").value)
  {
    match Get(params, "q")
    case None => None
    case Some(s) => Some(Trim(s))
  }

  /** The search term: "`query` videos" for the genre type, the query itself otherwise. */
  function SearchTerm(kind: string, query: string): (term: string)
    ensures kind == "genre" ==> term == query + " videos"
    ensures kind != "genre" ==> term == query
  {
    if kind == "genre" then query + " videos" else query
  }

  /** `message.includes("API key") ? 500 : 400` */
  function StatusFor(message: string): (status: int)
    ensures status == 500 <==> Contains(message, "API key")
    ensures status == 400 <==> !Contains(message, "API key")
  {
    if Contains(message, "API key") then 500 else 400
  }

  /**
   * The inner `catch`: the client only throws `YouTubeAPIError`s, which are
   * `Error`s, so their message is the body; the status comes from the message.
   */
  function Answer(r: Result<seq<VideoDetails>, YouTubeAPIError>): (resp: Response<seq<VideoDetails>>)
    ensures r.Ok? ==> resp == Success(r.value)
    ensures r.Err? ==> resp == Failure(StatusFor(r.error.message), r.error.message)
  {
    match r
    case Ok(videos) => Success(videos)
    case Err(e) => Failure(StatusFor(e.message), e.message)
  }

  /**
   * `GET /api/youtube-suggestions`, given the request URL, the environment's
   * key and what the client's fetch would come to.
   */
  function HandleGet(
    url: IncomingUrl,
    env: Option<string>,
    searchReply: FetchOutcome<ListResponse<SearchItem>>,
    trendingReply: FetchOutcome<ListResponse<VideoItem>>): (x: Exchange<seq<VideoDetails>, Request>)
    ensures url.Malformed? ==> x == Exchange(Failure(500, "Internal server error"), [])
    ensures url.Parsed? && !Configured(env) ==> x == Exchange(Failure(500, "YouTube API key not configured"), [])
    ensures url.Parsed? && Configured(env) ==>
              var kind := OrElse(Get(url.params, "type"), "search");
              var maxResults := Int(MaxResultsOr10(Get(url.params, "maxResults")));
              var query := QueryOf(url.params);
              if kind == "trending" then
                x.issued == [TrendingRequest(env.value, maxResults, OrElse(Get(url.params, "region"), "US"))] &&
                x.response == Answer(GetTrendingVideos(trendingReply))
              else if Truthy(query) then
                x.issued == [SearchRequest(SearchTerm(kind, query.value), env.value, maxResults)] &&
                x.response == Answer(SearchYouTube(searchReply))
              else
                x == Exchange(Failure(400, "Query parameter is required for search and genre types"), [])
  {
    match url
    case Malformed(_) => Exchange(Failure(500, "Internal server error"), [])
    case Parsed(params) =>
      var query := QueryOf(params);
      var kind := OrElse(Get(params, "type"), "search");
      var region := OrElse(Get(params, "region"), "US");
      var maxResults := MaxResultsOr10(Get(params, "maxResults"));
      match GetYouTubeApiKey(env)
      case Err(_) => Exchange(Failure(500, "YouTube API key not configured"), [])
      case Ok(apiKey) =>
        if kind == "trending" then
          Exchange(Answer(GetTrendingVideos(trendingReply)), [TrendingRequest(apiKey, Int(maxResults), region)])
        else if Truthy(query) then
          Exchange(Answer(SearchYouTube(searchReply)), [SearchRequest(SearchTerm(kind, query.value), apiKey, Int(maxResults))])
        else Exchange(Failure(400, "Query parameter is required for search and genre types"), [])
  }

  /** The trending type never looks at the query: any `q`, or none, gives the same answer. */
  lemma TrendingIgnoresQuery(
    params: map<string, string>, q: string, env: Option<string>,
    searchReply: FetchOutcome<ListResponse<SearchItem>>, trendingReply: FetchOutcome<ListResponse<VideoItem>>)
    requires Get(params, "type") == Some("trending")
    ensures HandleGet(Parsed(params["q" := q]), env, searchReply, trendingReply)
         == HandleGet(Parsed(params), env, searchReply, trendingReply)
    ensures HandleGet(Parsed(params - {"q"}), env, searchReply, trendingReply)
         == HandleGet(Parsed(params), env, searchReply, trendingReply)
  {
    assert Get(params["q" := q], "type") == Get(params, "type");
    assert Get(params - {"q"}, "type") == Get(params, "type");
    assert Get(params["q" := q], "region") == Get(params, "region");
    assert Get(params - {"q"}, "region") == Get(params, "region");
    assert Get(params["q" := q], "maxResults") == Get(params, "maxResults");
    assert Get(params - {"q"}, "maxResults") == Get(params, "maxResults");
  }

  /** A `q` made only of whitespace is trimmed to nothing and counts as no query at all. */
  lemma BlankQueryIsAbsent(
    params: map<string, string>, q: string, env: Option<string>,
    searchReply: FetchOutcome<ListResponse<SearchItem>>, trendingReply: FetchOutcome<ListResponse<VideoItem>>)
    requires AllSpace(q)
    requires Get(params, "type") != Some("trending")
    ensures HandleGet(Parsed(params["q" := q]), env, searchReply, trendingReply)
         == HandleGet(Parsed(params - {"q"}), env, searchReply, trendingReply)
  {
    TrimEmptyIff(q);
    assert Get(params["q" := q], "type") == Get(params - {"q"}, "type");
    assert Get(params["q" := q], "region") == Get(params - {"q"}, "region");
    assert Get(params["q" := q], "maxResults") == Get(params - {"q"}, "maxResults");
    assert QueryOf(params["q" := q]) == Some("");
    assert QueryOf(params - {"q"}) == None;
  }

  /** A genre request searches for its trimmed query followed by " videos". */
  lemma GenreSearchesVideos(
    params: map<string, string>, q: string, apiKey: string,
    searchReply: FetchOutcome<ListResponse<SearchItem>>, trendingReply: FetchOutcome<ListResponse<VideoItem>>)
    requires Get(params, "type") == Some("genre") && apiKey != ""
    requires !AllSpace(q)
    ensures var x := HandleGet(Parsed(params["q" := q]), Some(apiKey), searchReply, trendingReply);
            |x.issued| == 1 && Param(x.issued[0].params, "q") == Some(Trim(q) + " videos")
  {
    var p := params["q" := q];
    TrimEmptyIff(q);
    assert Get(p, "type") == Some("genre");
    assert QueryOf(p) == Some(Trim(q));
    GenreRequest(p, apiKey, searchReply, trendingReply);
    SearchRequestCarries(Trim(q) + " videos", apiKey, MaxResultsOr10(Get(p, "maxResults")));
  }

  lemma GenreRequest(
    p: map<string, string>, apiKey: string,
    searchReply: FetchOutcome<ListResponse<SearchItem>>, trendingReply: FetchOutcome<ListResponse<VideoItem>>)
    requires Get(p, "type") == Some("genre") && apiKey != ""
    requires QueryOf(p).Some? && QueryOf(p).value != ""
    ensures HandleGet(Parsed(p), Some(apiKey), searchReply, trendingReply).issued
         == [SearchRequest(QueryOf(p).value + " videos", apiKey, Int(MaxResultsOr10(Get(p, "maxResults"))))]
  {
  }
}
