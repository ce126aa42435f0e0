/**
 * The url form of app/components/youtube-url-form.tsx: the text the user
 * typed is either a YouTube link, whose metadata the form fetches from
 * `/api/youtube-meta?url=…`, or a search query, whose results it lists; a
 * listed result can then be picked. The component's state fields are the
 * fields of a class; what each call to the route came to is an input.
 */
module UrlForm {
  import opened Wrappers
  import opened Strings
  import opened YouTube
  import opened VideoId

  const EMPTY_INPUT: string := "Please enter a YouTube URL or search query"
  const KEY_ERROR: string := "YouTube API key error. Please check your API key configuration."
  const NO_RESULTS: string := "No results found"

  /** `VideoData`: what the form previews and hands to `onVideoSelect`. */
  datatype VideoData = VideoData(id: string, title: string, duration: string, thumbnailUrl: string, transcript: seq<TranscriptItem>)

  /** The fields of a metadata answer the form reads. */
  datatype MetaAnswer = MetaAnswer(id: string, title: string, thumbnailUrl: string, transcript: seq<TranscriptItem>)

  /** What an axios call to the route came to: the response body, or what it threw. */
  datatype Reply<+T> = Answered(data: T) | Raised(cause: Thrown)

  /** The parameter a call to `/api/youtube-meta` carries. */
  datatype MetaQuery = ByUrl(url: string) | ByQuery(query: string)

  /** `formattedVideoData`: the answer's fields, with no duration. */
  function Formatted(answer: MetaAnswer): (v: VideoData)
    ensures v.duration == ""
    ensures v.id == answer.id && v.title == answer.title && v.thumbnailUrl == answer.thumbnailUrl
    ensures v.transcript == answer.transcript
  {
    VideoData(answer.id, answer.title, "", answer.thumbnailUrl, answer.transcript)
  }

  /** The message the form shows for a failure: anything about the API key becomes the fixed configuration message. */
  function ErrorText(message: string): (shown: string)
    ensures Contains(message, "API key") ==> shown == KEY_ERROR
    ensures !Contains(message, "API key") ==> shown == message
  {
    if Contains(message, "API key") then KEY_ERROR else message
  }

  /** The form's own "no results" error is shown as it is. */
  lemma NoResultsShownAsIs()
    ensures ErrorText(NO_RESULTS) == NO_RESULTS
  {
    NoLeadCharNotContained(NO_RESULTS, "API key");
  }

  /** The picture of a listed result: its high thumbnail, else the video's standard preview. */
  function ResultThumbnail(result: SearchItem): (u: string)
    ensures Usable(TierUrl(result.snippet.thumbnails.high)) ==> u == TierUrl(result.snippet.thumbnails.high).value
    ensures !Usable(TierUrl(result.snippet.thumbnails.high)) ==>
              u == "https://img.youtube.com/vi/" + result.id.videoId + "/maxresdefault.jpg"
  {
    var high := TierUrl(result.snippet.thumbnails.high);
    if Usable(high) then high.value else "https://img.youtube.com/vi/" + result.id.videoId + "/maxresdefault.jpg"
  }

  /** The link a picked result is fetched by. */
  function WatchLink(videoId: string): (link: string)
    ensures StartsWith(link, "https://youtube.com/watch?v=") && link[28..] == videoId
  {
    "https://youtube.com/watch?v=" + videoId
  }

  /** The link built for a picked result names that result's video, for every id the pattern can capture. */
  lemma WatchLinkNamesVideo(videoId: string)
    requires IsVideoId(videoId)
    ensures IsYouTubeUrl(WatchLink(videoId))
    ensures ExtractVideoId(WatchLink(videoId)) == Some(videoId)
  {
    var link := WatchLink(videoId);
    assert PlainPrefix("https://");
    assert link == "https://" + "youtube.com/watch?v=" + videoId;
    WatchForm("https://", videoId);
    IsYouTubeUrlIffExtracts(link);
  }

  class YoutubeUrlForm {
    var videoPreview: Option<VideoData>
    var url: string
    var error: Option<string>
    var searchResults: seq<SearchItem>
    var isLoading: bool

    /** The initial state: nothing typed, previewed, listed or loading. */
    constructor ()
      ensures videoPreview == None && url == "" && error == None && searchResults == [] && !isLoading
    {
      videoPreview := None;
      url := "";
      error := None;
      searchResults := [];
      isLoading := false;
    }

    /** `onChange`: the input's text. */
    method SetUrl(text: string)
      modifies this
      ensures url == text
      ensures videoPreview == old(videoPreview) && error == old(error) &&
              searchResults == old(searchResults) && isLoading == old(isLoading)
    {
      url := text;
    }

    /**
     * `handleAnalyze`. Blank input is refused without a request; a link is
     * sent as `url`, anything else as `query`. Returns the request made and the
     * video handed to `onVideoSelect`, if any. Once a request is made,
     * loading is over when it returns; blank input leaves `isLoading` alone.
     */
    method HandleAnalyze(urlReply: Reply<MetaAnswer>, queryReply: Reply<Option<seq<SearchItem>>>)
      returns (sent: Option<MetaQuery>, selected: Option<VideoData>)
      modifies this
      ensures url == old(url)
      ensures AllSpace(url) ==>
                sent == None && selected == None && error == Some(EMPTY_INPUT) && isLoading == old(isLoading) &&
                videoPreview == old(videoPreview) && searchResults == old(searchResults)
      ensures !AllSpace(url) ==> !isLoading
      ensures !AllSpace(url) && IsYouTubeUrl(url) ==>
                sent == Some(ByUrl(url)) && searchResults == old(searchResults) &&
                match urlReply
                case Answered(answer) =>
                  error == None && videoPreview == Some(Formatted(answer)) && selected == videoPreview
                case Raised(cause) =>
                  error == Some(ErrorText(MessageOr(cause, "Failed to analyze video"))) &&
                  videoPreview == old(videoPreview) && selected == None
      ensures !AllSpace(url) && !IsYouTubeUrl(url) ==>
                sent == Some(ByQuery(url)) && selected == None &&
                match queryReply
                case Answered(results) =>
                  if results.Some? && |results.value| > 0 then
                    error == None && searchResults == results.value && videoPreview == None
                  else
                    error == Some(NO_RESULTS) && searchResults == old(searchResults) && videoPreview == old(videoPreview)
                case Raised(cause) =>
                  error == Some(ErrorText(MessageOr(cause, "Failed to analyze video"))) &&
                  searchResults == old(searchResults) && videoPreview == old(videoPreview)
    {
      sent := None;
      selected := None;
      error := None;
      var blank := IsBlank(url);
      if blank {
        error := Some(EMPTY_INPUT);
        return;
      }
      isLoading := true;
      if IsYouTubeUrl(url) {
        sent := Some(ByUrl(url));
        selected := ShowVideo(urlReply);
      } else {
        sent := Some(ByQuery(url));
        ShowResults(queryReply);
      }
      StopLoading();
    }

    /** `setIsLoading(false)` */
    method StopLoading()
      modifies this
      ensures !isLoading
      ensures url == old(url) && videoPreview == old(videoPreview) && error == old(error) && searchResults == old(searchResults)
    {
      isLoading := false;
    }

    /** `!url.trim()`: the text is whitespace only. */
    static method IsBlank(text: string) returns (blank: bool)
      ensures blank <==> AllSpace(text)
    {
      TrimEmptyIff(text);
      blank := Trim(text) == "";
    }

    /** The link branch of `handleAnalyze`: the answer is previewed and selected, a failure shown. */
    method ShowVideo(reply: Reply<MetaAnswer>) returns (selected: Option<VideoData>)
      modifies this
      ensures url == old(url) && isLoading == old(isLoading) && searchResults == old(searchResults)
      ensures reply.Answered? ==>
                error == old(error) && videoPreview == Some(Formatted(reply.data)) && selected == videoPreview
      ensures reply.Raised? ==>
                error == Some(ErrorText(MessageOr(reply.cause, "Failed to analyze video"))) &&
                videoPreview == old(videoPreview) && selected == None
    {
      selected := None;
      match reply {
        case Answered(answer) =>
          var data := Formatted(answer);
          videoPreview := Some(data);
          selected := Some(data);
        case Raised(cause) =>
          error := Some(ErrorText(MessageOr(cause, "Failed to analyze video")));
      }
    }

    /** The search branch of `handleAnalyze`: a non-empty list is shown, anything else is an error. */
    method ShowResults(reply: Reply<Option<seq<SearchItem>>>)
      modifies this
      ensures url == old(url) && isLoading == old(isLoading)
      ensures match reply
              case Answered(results) =>
                if results.Some? && |results.value| > 0 then
                  error == old(error) && searchResults == results.value && videoPreview == None
                else
                  error == Some(NO_RESULTS) && searchResults == old(searchResults) && videoPreview == old(videoPreview)
              case Raised(cause) =>
                error == Some(ErrorText(MessageOr(cause, "Failed to analyze video"))) &&
                searchResults == old(searchResults) && videoPreview == old(videoPreview)
    {
      match reply {
        case Answered(results) =>
          if results.Some? && |results.value| > 0 {
            searchResults := results.value;
            videoPreview := None;
          } else {
            NoResultsShownAsIs();
            error := Some(ErrorText(NO_RESULTS));
          }
        case Raised(cause) =>
          error := Some(ErrorText(MessageOr(cause, "Failed to analyze video")));
      }
    }

    /**
     * The click handler of a listed result: the route is asked for the
     * result's watch link; an answer becomes the preview, is handed to
     * `onVideoSelect` and clears the list.
     */
    method SelectResult(result: SearchItem, reply: Reply<MetaAnswer>) returns (sent: MetaQuery, selected: Option<VideoData>)
      modifies this
      ensures sent == ByUrl(WatchLink(result.id.videoId))
      ensures url == old(url) && !isLoading
      ensures reply.Answered? ==>
                error == None && videoPreview == Some(Formatted(reply.data)) && selected == videoPreview && searchResults == []
      ensures reply.Raised? ==>
                error == Some(ErrorText(MessageOr(reply.cause, "Failed to select video"))) && selected == None &&
                videoPreview == old(videoPreview) && searchResults == old(searchResults)
    {
      error := None;
      isLoading := true;
      sent := ByUrl(WatchLink(result.id.videoId));
      selected := None;
      match reply {
        case Answered(answer) =>
          var data := Formatted(answer);
          videoPreview := Some(data);
          selected := Some(data);
          searchResults := [];
        case Raised(cause) =>
          error := Some(ErrorText(MessageOr(cause, "Failed to select video")));
      }
      StopLoading();
    }
  }
}
