/**
 * The `/api/youtube-search` route (app/api/youtube-search/route.ts): a search
 * for `query`, with `maxResults` passed through `parseInt` when it is given
 * and the client's default of 10 when it is not.
 */
module YouTubeSearch {
  import opened Wrappers
  import opened Strings
  import opened Numbers
  import opened Env
  import opened Http
  import opened YouTube

  /** `maxResults ? parseInt(maxResults) : undefined`, with `undefined` meaning the client's default of 10. */
  function ResultCount(maxResults: Option<string>): (n: JsNum)
    ensures !Truthy(maxResults) ==> n == Int(10)
    ensures Truthy(maxResults) ==> n == ParseInt(maxResults.value)
  {
    if Truthy(maxResults) then ParseInt(maxResults.value) else Int(10)
  }

  /**
   * `GET /api/youtube-search`, given the environment's key, the request URL
   * and what the client's fetch would come to.
   */
  function HandleGet(env: Option<string>, url: IncomingUrl, reply: FetchOutcome<ListResponse<SearchItem>>)
    : (x: Exchange<seq<VideoDetails>, Request>)
    // The key is read before the request URL.
    ensures !Configured(env) ==> x == Exchange(Failure(500, "YouTube API key not configured"), [])
    ensures Configured(env) && url.Malformed? ==>
              x == Exchange(Failure(500, MessageOr(url.cause, "Failed to fetch videos")), [])
    ensures Configured(env) && url.Parsed? && !Truthy(Get(url.params, "query")) ==>
              x == Exchange(Failure(400, "Query parameter is required"), [])
    ensures Configured(env) && url.Parsed? && Truthy(Get(url.params, "query")) ==>
              x.issued == [SearchRequest(Get(url.params, "query").value, env.value, ResultCount(Get(url.params, "maxResults")))] &&
              (x.response.status == 200 <==> reply.Delivered?) &&
              (x.response.status == 200 ==> x.response.body == Payload(SearchYouTube(reply).value)) &&
              (x.response.status != 200 ==> x.response == Failure(500, FetchWithAuth(reply).error.message))
  {
    if !Configured(env) then Exchange(Failure(500, "YouTube API key not configured"), [])
    else
      match url
      case Malformed(cause) => Exchange(Failure(500, MessageOr(cause, "Failed to fetch videos")), [])
      case Parsed(params) =>
        var query := Get(params, "query");
        if !Truthy(query) then Exchange(Failure(400, "Query parameter is required"), [])
        else
          var request := SearchRequest(query.value, env.value, ResultCount(Get(params, "maxResults")));
          match SearchYouTube(reply)
          case Ok(videos) => Exchange(Success(videos), [request])
          case Err(e) => Exchange(Failure(500, e.message), [request])
  }

  /** The count a search request carries is the decimal text of the number it was built with. */
  lemma SearchRequestCount(query: string, apiKey: string, n: JsNum)
    ensures Param(SearchRequest(query, apiKey, n).params, "maxResults") == Some(Numbers.ToString(n))
  {
    ParamAt(SearchRequest(query, apiKey, n).params, 2);
  }

  /**
   * A count written the way `toString` writes integers reaches the YouTube
   * API unchanged.
   */
  lemma CountReachesUpstream(env: Option<string>, params: map<string, string>, v: int, reply: FetchOutcome<ListResponse<SearchItem>>)
    requires Configured(env) && Truthy(Get(params, "query"))
    ensures var x := HandleGet(env, Parsed(params["maxResults" := Numbers.ToString(Int(v))]), reply);
            |x.issued| == 1 && Param(x.issued[0].params, "maxResults") == Some(Numbers.ToString(Int(v)))
  {
    var text := Numbers.ToString(Int(v));
    var p := params["maxResults" := text];
    ParseIntToString(v);
    assert Get(p, "query") == Get(params, "query");
    assert ResultCount(Get(p, "maxResults")) == Int(v);
    SearchRequestCount(Get(params, "query").value, env.value, Int(v));
  }

  /** A blank count is sent as the default "10". */
  lemma BlankCountIsTen(env: Option<string>, params: map<string, string>, reply: FetchOutcome<ListResponse<SearchItem>>)
    requires Configured(env) && Truthy(Get(params, "query"))
    ensures var x := HandleGet(env, Parsed(params["maxResults" := ""]), reply);
            |x.issued| == 1 && Param(x.issued[0].params, "maxResults") == Some("10")
  {
    var p := params["maxResults" := ""];
    assert Get(p, "query") == Get(params, "query");
    assert ResultCount(Get(p, "maxResults")) == Int(10);
    SearchRequestCount(Get(params, "query").value, env.value, Int(10));
    assert NatToString(10) == "10" by {
      assert NatToString(1) == "1";
      assert NatToString(10) == NatToString(1) + [DigitChar(0)];
    }
  }
}
