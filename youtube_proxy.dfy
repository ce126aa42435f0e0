/**
 * The `/api/youtube-proxy` route (app/api/youtube-proxy/route.ts): one handler
 * that switches on the `endpoint` parameter between a search, the trending
 * chart and a single video, each served by the YouTube client. What the
 * client's fetch comes to is an input, one for each kind of list it reads.
 */
module YouTubeProxy {
  import opened Wrappers
  import opened Numbers
  import opened Env
  import opened Http
  import opened YouTube

  /** The route's payloads: a list of videos, or one video. */
  datatype ProxyData = VideoList(videos: seq<VideoDetails>) | OneVideo(video: VideoDetails)

  const FETCH_FAILED: string := "Failed to fetch from YouTube"

  /** The `catch` block: whatever the client threw, the same 500. */
  function ListAnswer(r: Result<seq<VideoDetails>, YouTubeAPIError>): (resp: Response<ProxyData>)
    ensures r.Ok? ==> resp == Success(VideoList(r.value))
    ensures r.Err? ==> resp == Failure(500, FETCH_FAILED)
  {
    match r
    case Ok(videos) => Success(VideoList(videos))
    case Err(_) => Failure(500, FETCH_FAILED)
  }

  function VideoAnswer(r: Result<VideoDetails, YouTubeAPIError>): (resp: Response<ProxyData>)
    ensures r.Ok? ==> resp == Success(OneVideo(r.value))
    ensures r.Err? ==> resp == Failure(500, FETCH_FAILED)
  {
    match r
    case Ok(video) => Success(OneVideo(video))
    case Err(_) => Failure(500, FETCH_FAILED)
  }

  /**
   * `GET /api/youtube-proxy`, given the environment's key, the query
   * parameters and what the client's fetch would come to.
   */
  function HandleGet(
    env: Option<string>,
    params: map<string, string>,
    searchReply: FetchOutcome<ListResponse<SearchItem>>,
    videosReply: FetchOutcome<ListResponse<VideoItem>>): (x: Exchange<ProxyData, Request>)
    // The key is checked before the endpoint is looked at.
    ensures !HasYouTubeApiKey(env) ==> x == Exchange(Failure(500, "YouTube API key not configured"), [])
    ensures HasYouTubeApiKey(env) && Get(params, "endpoint") == Some("search") ==>
              if !Truthy(Get(params, "query")) then
                x == Exchange(Failure(400, "Query parameter required for search"), [])
              else
                x.issued == [SearchRequest(Get(params, "query").value, env.value, Int(MaxResultsOr10(Get(params, "maxResults"))))] &&
                x.response == ListAnswer(SearchYouTube(searchReply))
    ensures HasYouTubeApiKey(env) && Get(params, "endpoint") == Some("trending") ==>
              x.issued == [TrendingRequest(env.value, Int(MaxResultsOr10(Get(params, "maxResults"))), OrElse(Get(params, "region"), "US"))] &&
              x.response == ListAnswer(GetTrendingVideos(videosReply))
    ensures HasYouTubeApiKey(env) && Get(params, "endpoint") == Some("video") ==>
              if !Truthy(Get(params, "videoId")) then
                x == Exchange(Failure(400, "Video ID required"), [])
              else
                x.issued == [VideoRequest(Get(params, "videoId").value, env.value)] &&
                x.response == VideoAnswer(GetVideoDetails(Get(params, "videoId").value, videosReply))
    ensures HasYouTubeApiKey(env) && Get(params, "endpoint") !in {Some("search"), Some("trending"), Some("video")} ==>
              x == Exchange(Failure(400, "Invalid endpoint"), [])
  {
    if !HasYouTubeApiKey(env) then Exchange(Failure(500, "YouTube API key not configured"), [])
    else
      var apiKey := GetYouTubeApiKey(env).value;
      var endpoint := Get(params, "endpoint");
      if endpoint == Some("search") then
        var query := Get(params, "query");
        var maxResults := MaxResultsOr10(Get(params, "maxResults"));
        if !Truthy(query) then Exchange(Failure(400, "Query parameter required for search"), [])
        else Exchange(ListAnswer(SearchYouTube(searchReply)), [SearchRequest(query.value, apiKey, Int(maxResults))])
      else if endpoint == Some("trending") then
        var maxResults := MaxResultsOr10(Get(params, "maxResults"));
        var region := OrElse(Get(params, "region"), "US");
        Exchange(ListAnswer(GetTrendingVideos(videosReply)), [TrendingRequest(apiKey, Int(maxResults), region)])
      else if endpoint == Some("video") then
        var videoId := Get(params, "videoId");
        if !Truthy(videoId) then Exchange(Failure(400, "Video ID required"), [])
        else Exchange(VideoAnswer(GetVideoDetails(videoId.value, videosReply)), [VideoRequest(videoId.value, apiKey)])
      else Exchange(Failure(400, "Invalid endpoint"), [])
  }

  /**
   * The proxy never passes an upstream failure on: after the key check, every
   * 500 carries the one fixed message, whatever status or message the
   * YouTube API answered with.
   */
  lemma FailuresHideDetail(
    env: Option<string>, params: map<string, string>,
    searchReply: FetchOutcome<ListResponse<SearchItem>>, videosReply: FetchOutcome<ListResponse<VideoItem>>)
    requires HasYouTubeApiKey(env)
    ensures var x := HandleGet(env, params, searchReply, videosReply);
            x.response.status == 500 <==> x.response.body == ErrorBody(FETCH_FAILED)
    ensures var x := HandleGet(env, params, searchReply, videosReply);
            x.response.status == 500 ==> |x.issued| == 1
  {
  }

  /**
   * Without `maxResults` and `region` the trending chart is asked for ten
   * videos of region US; a search with a blank `maxResults` asks for ten too.
   */
  lemma TrendingDefaults(
    env: Option<string>, params: map<string, string>,
    searchReply: FetchOutcome<ListResponse<SearchItem>>, videosReply: FetchOutcome<ListResponse<VideoItem>>)
    requires HasYouTubeApiKey(env)
    requires Get(params, "endpoint") == Some("trending")
    requires "maxResults" !in params && "region" !in params
    ensures var x := HandleGet(env, params, searchReply, videosReply);
            |x.issued| == 1 && x.issued[0] == DefaultTrendingRequest(env.value) &&
            Param(x.issued[0].params, "regionCode") == Some("US") &&
            Param(x.issued[0].params, "maxResults") == Some("10")
  {
    MaxResultsAbsent("");
  }
}
