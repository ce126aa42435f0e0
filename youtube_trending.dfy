/**
 * The `/api/youtube-trending` route (app/api/youtube-trending/route.ts): the
 * trending chart, `maxResults` defaulting through `Number(x) || 10` and the
 * region to US.
 */
module YouTubeTrending {
  import opened Wrappers
  import opened Numbers
  import opened Env
  import opened Http
  import opened YouTube

  /**
   * `GET /api/youtube-trending`, given the request URL, the environment's key
   * and what the client's fetch would come to.
   */
  function HandleGet(url: IncomingUrl, env: Option<string>, reply: FetchOutcome<ListResponse<VideoItem>>)
    : (x: Exchange<seq<VideoDetails>, Request>)
    ensures url.Malformed? ==>
              x == Exchange(Failure(500, MessageOr(url.cause, "Failed to fetch trending videos")), [])
    ensures url.Parsed? && !Configured(env) ==> x == Exchange(Failure(500, YOUTUBE_API_KEY_MISSING), [])
    ensures url.Parsed? && Configured(env) ==>
              x.issued == [TrendingRequest(env.value, Int(MaxResultsOr10(Get(url.params, "maxResults"))),
                                           OrElse(Get(url.params, "region"), "US"))] &&
              (x.response.status == 200 <==> reply.Delivered?) &&
              (x.response.status == 200 ==> x.response.body == Payload(GetTrendingVideos(reply).value)) &&
              (x.response.status != 200 ==> x.response == Failure(500, FetchWithAuth(reply).error.message))
  {
    match url
    case Malformed(cause) => Exchange(Failure(500, MessageOr(cause, "Failed to fetch trending videos")), [])
    case Parsed(params) =>
      var maxResults := MaxResultsOr10(Get(params, "maxResults"));
      var region := OrElse(Get(params, "region"), "US");
      match GetYouTubeApiKey(env)
      case Err(_) => Exchange(Failure(500, YOUTUBE_API_KEY_MISSING), [])
      case Ok(apiKey) =>
        var request := TrendingRequest(apiKey, Int(maxResults), region);
        match GetTrendingVideos(reply)
        case Ok(videos) => Exchange(Success(videos), [request])
        case Err(e) => Exchange(Failure(500, e.message), [request])
  }

  /**
   * The route and the client agree on the defaults: a request without
   * parameters asks for exactly what `getTrendingVideos(apiKey)` asks for.
   */
  lemma NoParametersMeansClientDefaults(env: Option<string>, reply: FetchOutcome<ListResponse<VideoItem>>)
    requires Configured(env)
    ensures HandleGet(Parsed(map[]), env, reply).issued == [DefaultTrendingRequest(env.value)]
  {
    MaxResultsAbsent("");
  }

  /** An upstream refusal reaches the caller as a 500 with the client's message, the status it came with dropped. */
  lemma RefusalIsServerError(params: map<string, string>, env: Option<string>, status: int, error: Option<ErrorInfo>)
    requires Configured(env)
    ensures HandleGet(Parsed(params), env, Rejected(status, error)).response
         == Failure(500, RejectionMessage(status, error))
  {
  }
}
