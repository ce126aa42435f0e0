/**
 * The story generation hook of hooks/useStoryGeneration.tsx. `generateStory`
 * walks the progress through processing steps 0 to 4 around one POST to
 * `/api/generate-story` and ends in the complete or the error status; the
 * hook's state fields are the fields of a class, and every progress value it
 * sets is recorded in order. What the request came to is an input.
 */
module StoryGeneration {
  import opened Wrappers
  import opened Strings
  import opened Numbers
  import opened ProgressBar

  /** `GenerationProgress`: a status, a step and, after a failure, its message. */
  datatype Progress = Progress(status: Status, step: int, error: Option<string>)

  /** The `StoryOptions` the hook forwards. */
  datatype StoryOptions = StoryOptions(genre: string, tone: string, style: string, format: string, customPrompt: Option<string>)

  /** `VideoData & { transcript: string }`, with the description the request adds. */
  datatype VideoInput = VideoInput(id: string, title: string, duration: string, thumbnailUrl: string, transcript: string)
  datatype EnrichedVideo = EnrichedVideo(id: string, title: string, duration: string, thumbnailUrl: string, transcript: string, description: string)

  /** The JSON body of the POST. */
  datatype StoryRequest = StoryRequest(videoData: EnrichedVideo, storyOptions: StoryOptions)

  /** What the POST came to: no response, a response that is not ok, or an ok response whose JSON is read. */
  datatype PostOutcome =
    | Unreachable(cause: Thrown)
    | NotOk(status: int)
    | Responded(json: JsonOutcome)

  /** `await res.json()`: the story field of the parsed body, or what parsing threw. */
  datatype JsonOutcome = Parsed(story: string) | Unparsable(cause: Thrown)

  const FALLBACK_MESSAGE: string := "Failed to generate story"

  function Working(step: int): Progress {
    Progress(Status.Processing, step, None)
  }

  /** `enrichedVideoData`: the video's fields, and the transcript as its description. */
  function Enrich(v: VideoInput): (e: EnrichedVideo)
    ensures e.description == "Video transcript: " + v.transcript
    ensures e.id == v.id && e.title == v.title && e.duration == v.duration &&
            e.thumbnailUrl == v.thumbnailUrl && e.transcript == v.transcript
  {
    EnrichedVideo(v.id, v.title, v.duration, v.thumbnailUrl, v.transcript, "Video transcript: " + v.transcript)
  }

  /** The error `generateStory` throws, or rethrows, for an outcome that fails. */
  function Failure(outcome: PostOutcome): (e: Option<Thrown>)
    ensures outcome.Responded? && outcome.json.Parsed? <==> e.None?
    ensures outcome.NotOk? ==> e == Some(ErrorValue("Error generating story: " + Numbers.ToString(Int(outcome.status))))
    ensures outcome.Unreachable? ==> e == Some(outcome.cause)
    ensures outcome.Responded? && outcome.json.Unparsable? ==> e == Some(outcome.json.cause)
  {
    match outcome
    case Unreachable(cause) => Some(cause)
    case NotOk(status) => Some(ErrorValue("Error generating story: " + Numbers.ToString(Int(status))))
    case Responded(Parsed(_)) => None
    case Responded(Unparsable(cause)) => Some(cause)
  }

  /**
   * The progress values one call sets, in order: processing steps up to the
   * one the failure interrupts, then the error (step 0, with the message); or
   * all five steps, then complete at step 4.
   */
  function Run(outcome: PostOutcome): (run: seq<Progress>)
    ensures |run| >= 4 && run[0] == Working(0) && run[1] == Working(1) && run[2] == Working(2)
    ensures Working(3) in run <==> outcome.Responded?
    ensures Working(4) in run <==> Failure(outcome).None?
  {
    match outcome
    case Unreachable(cause) => [Working(0), Working(1), Working(2), Progress(Error, 0, Some(MessageOr(cause, FALLBACK_MESSAGE)))]
    case NotOk(status) =>
      var message := "Error generating story: " + Numbers.ToString(Int(status));
      [Working(0), Working(1), Working(2), Progress(Error, 0, Some(message))]
    case Responded(Unparsable(cause)) =>
      [Working(0), Working(1), Working(2), Working(3), Progress(Error, 0, Some(MessageOr(cause, FALLBACK_MESSAGE)))]
    case Responded(Parsed(_)) =>
      [Working(0), Working(1), Working(2), Working(3), Working(4), Progress(Complete, 4, None)]
  }

  /**
   * Every run counts its processing steps up from 0 without gaps and never
   * past 4, and its last value, and only that one, is final.
   */
  lemma RunIsOrdered(outcome: PostOutcome)
    ensures |Run(outcome)| >= 2
    ensures forall i :: 0 <= i < |Run(outcome)| - 1 ==> Run(outcome)[i] == Working(i) && i <= 4
    ensures Run(outcome)[|Run(outcome)| - 1].status in {Complete, Error}
  {
  }

  /** A run completes exactly when the outcome brings a story, and fails with the message of what was thrown. */
  lemma RunEnds(outcome: PostOutcome)
    ensures var last := Run(outcome)[|Run(outcome)| - 1];
            (last == Progress(Complete, 4, None) <==> Failure(outcome).None?) &&
            (Failure(outcome).Some? ==> last == Progress(Error, 0, Some(MessageOr(Failure(outcome).value, FALLBACK_MESSAGE))))
  {
  }

  /** A response that is not ok is reported with its status code. */
  lemma NotOkMessage(status: nat)
    ensures Run(NotOk(status))[3].error == Some("Error generating story: " + NatToString(status))
  {
  }

  class StoryGenerator {
    var story: string
    var progress: Progress
    /** Every value `setProgress` was given, in order. */
    var updates: seq<Progress>

    /** The hook's initial state: no story, idle at step 0. */
    constructor ()
      ensures story == "" && progress == Progress(Idle, 0, None) && updates == []
    {
      story := "";
      progress := Progress(Idle, 0, None);
      updates := [];
    }

    method SetProgress(p: Progress)
      modifies this
      ensures progress == p && updates == old(updates) + [p] && story == old(story)
    {
      progress := p;
      updates := updates + [p];
    }

    /**
     * `generateStory(videoData, storyOptions)`: returns the story or the error
     * it throws, and the request it posts, if it gets that far.
     */
    method GenerateStory(videoData: VideoInput, storyOptions: StoryOptions, outcome: PostOutcome)
      returns (result: Result<string, Thrown>, posted: StoryRequest)
      modifies this
      ensures posted == StoryRequest(Enrich(videoData), storyOptions)
      ensures updates == old(updates) + Run(outcome)
      ensures progress == Run(outcome)[|Run(outcome)| - 1]
      ensures Failure(outcome).None? ==> result == Ok(outcome.json.story) && story == outcome.json.story
      ensures Failure(outcome).Some? ==> result == Err(Failure(outcome).value) && story == old(story)
    {
      SetProgress(Working(0));
      SetProgress(Working(1));
      var enriched := Enrich(videoData);
      SetProgress(Working(2));
      posted := StoryRequest(enriched, storyOptions);
      var thrown: Thrown;
      match outcome {
        case Unreachable(cause) =>
          thrown := cause;
        case NotOk(status) =>
          thrown := ErrorValue("Error generating story: " + Numbers.ToString(Int(status)));
        case Responded(json) =>
          SetProgress(Working(3));
          match json {
            case Unparsable(cause) =>
              thrown := cause;
            case Parsed(s) =>
              SetProgress(Working(4));
              story := s;
              SetProgress(Progress(Complete, 4, None));
              return Ok(s), posted;
          }
      }
      SetProgress(Progress(Error, 0, Some(MessageOr(thrown, FALLBACK_MESSAGE))));
      result := Err(thrown);
    }
  }
}
