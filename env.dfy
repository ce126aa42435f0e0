/** The environment helpers of app/lib/env.ts: the YouTube API key read from the process environment. */
module Env {
  import opened Wrappers

  /** ENV_ERRORS.YOUTUBE_API_KEY_MISSING */
  const YOUTUBE_API_KEY_MISSING: string :=
    "YouTube API key is not configured. Please add NEXT_PUBLIC_YOUTUBE_API_KEY to your .env.local file"

  /** ENV_ERRORS.YOUTUBE_API_KEY_INVALID (declared by the source, used by none of its routes) */
  const YOUTUBE_API_KEY_INVALID: string :=
    "Invalid YouTube API key. Please check your NEXT_PUBLIC_YOUTUBE_API_KEY in .env.local file"

  /** A configured key is a non-empty string: `!key` is true of `undefined` and of "". */
  predicate Configured(env: Option<string>) {
    env.Some? && env.value != ""
  }

  /**
   * `getYouTubeApiKey()`, given the value of NEXT_PUBLIC_YOUTUBE_API_KEY:
   * the value itself, or an `Error` carrying the fixed "not configured" message.
   */
  function GetYouTubeApiKey(env: Option<string>): (r: Result<string, Thrown>)
    ensures r.Ok? <==> env.Some? && env.value != ""
    ensures r.Ok? ==> r.value == env.value
    ensures r.Err? ==> r.error == ErrorValue(YOUTUBE_API_KEY_MISSING)
  {
    if !Configured(env) then Err(ErrorValue(YOUTUBE_API_KEY_MISSING)) else Ok(env.value)
  }

  /** `hasYouTubeApiKey()`: `!!process.env.NEXT_PUBLIC_YOUTUBE_API_KEY`. */
  function HasYouTubeApiKey(env: Option<string>): (b: bool)
    ensures b <==> env.Some? && env.value != ""
  {
    Configured(env)
  }

  /** The two helpers agree: getting the key succeeds exactly when the check says it is there. */
  lemma GetSucceedsIffHas(env: Option<string>)
    ensures GetYouTubeApiKey(env).Ok? <==> HasYouTubeApiKey(env)
    ensures HasYouTubeApiKey(env) ==> GetYouTubeApiKey(env) == Ok(env.value)
  {
  }
}
