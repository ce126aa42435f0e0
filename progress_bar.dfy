/**
 * The progress bar of app/components/progress-bar.tsx. Its one state field,
 * `progress`, is rewritten by an effect whenever the status, the current step
 * or the number of steps changes; while processing it also shows the current
 * step's label and the rounded percentage. Percentages are JavaScript numbers,
 * modelled as reals.
 */
module ProgressBar {
  import opened Wrappers

  /** `"idle" | "processing" | "complete" | "error"` */
  datatype Status = Idle | Processing | Complete | Error

  /** The steps shown when the caller passes none. */
  const DEFAULT_STEPS: seq<string> := [
    "Analyzing video content",
    "Generating story outline",
    "Crafting narrative",
    "Adding details",
    "Finalizing story"
  ]

  function Min(a: real, b: real): real {
    if a <= b then a else b
  }

  /**
   * `Math.min((currentStep + 1) * (100 / steps.length), 95)`. With no steps
   * the step size is `Infinity`, and the minimum is 95.
   */
  function ProcessingProgress(stepCount: nat, currentStep: nat): (p: real)
    ensures 0.0 < p <= 95.0
    ensures p == 95.0 <==> stepCount == 0 || (currentStep + 1) * 100 >= 95 * stepCount
    ensures p < 95.0 ==> p * stepCount as real == (currentStep + 1) as real * 100.0
  {
    if stepCount == 0 then 95.0
    else
      var share := (currentStep + 1) as real * (100.0 / stepCount as real);
      assert share * stepCount as real == (currentStep + 1) as real * 100.0;
      Min(share, 95.0)
  }

  /** What the effect leaves in `progress`, given what was there before. */
  function Next(status: Status, stepCount: nat, currentStep: nat, previous: real): (p: real)
    ensures status == Idle ==> p == previous
    ensures status == Processing ==> 0.0 < p <= 95.0
    ensures status == Complete ==> p == 100.0
    ensures status == Error ==> p == 0.0
    ensures status != Idle && p == 100.0 ==> status == Complete
  {
    match status
    case Processing => ProcessingProgress(stepCount, currentStep)
    case Complete => 100.0
    case Error => 0.0
    case Idle => previous
  }

  /** The effect sets a percentage: from anywhere in 0..100 it stays in 0..100, and below 100 unless complete. */
  lemma NextInRange(status: Status, stepCount: nat, currentStep: nat, previous: real)
    requires 0.0 <= previous <= 100.0
    ensures 0.0 <= Next(status, stepCount, currentStep, previous) <= 100.0
    ensures status == Processing ==> Next(status, stepCount, currentStep, previous) <= 95.0
    ensures status == Complete <==> (status != Idle && Next(status, stepCount, currentStep, previous) == 100.0)
  {
  }

  /** Running the effect again with the same status and step changes nothing. */
  lemma NextIdempotent(status: Status, stepCount: nat, currentStep: nat, previous: real)
    ensures Next(status, stepCount, currentStep, Next(status, stepCount, currentStep, previous))
         == Next(status, stepCount, currentStep, previous)
  {
  }

  /** Only the idle status looks at the old progress. */
  lemma OnlyIdleKeeps(status: Status, stepCount: nat, currentStep: nat, a: real, b: real)
    requires status != Idle
    ensures Next(status, stepCount, currentStep, a) == Next(status, stepCount, currentStep, b)
  {
  }

  /** A later step never shows less progress. */
  lemma ProcessingMonotone(stepCount: nat, s: nat, t: nat)
    requires s <= t
    ensures ProcessingProgress(stepCount, s) <= ProcessingProgress(stepCount, t)
  {
    if stepCount > 0 {
      var size := 100.0 / stepCount as real;
      assert size > 0.0;
      assert (t + 1) as real * size == (s + 1) as real * size + (t - s) as real * size;
      assert (t - s) as real * size >= 0.0;
    }
  }

  /** With the default five steps the bar reads 20, 40, 60, 80 and then stops at 95. */
  lemma DefaultStepsProgress()
    ensures ProcessingProgress(|DEFAULT_STEPS|, 0) == 20.0
    ensures ProcessingProgress(|DEFAULT_STEPS|, 1) == 40.0
    ensures ProcessingProgress(|DEFAULT_STEPS|, 2) == 60.0
    ensures ProcessingProgress(|DEFAULT_STEPS|, 3) == 80.0
    ensures ProcessingProgress(|DEFAULT_STEPS|, 4) == 95.0
  {
  }

  /** `Math.round`: the nearest integer, halves rounded up. */
  function Round(x: real): (n: int)
    ensures n as real <= x + 0.5 < n as real + 1.0
  {
    (x + 0.5).Floor
  }

  /**
   * The line under the bar: shown only while processing and while the step
   * is one of the steps, with that step's label and the rounded percentage.
   */
  function StepLine(status: Status, steps: seq<string>, currentStep: nat, progress: real): (line: Option<(string, int)>)
    ensures line.Some? <==> status == Processing && currentStep < |steps|
    ensures line.Some? ==> line.value.0 == steps[currentStep] && line.value.1 == Round(progress)
  {
    if status == Processing && currentStep < |steps| then Some((steps[currentStep], Round(progress)))
    else None
  }

  /** The shown percentage of a progress in 0..100 is in 0..100. */
  lemma RoundedInRange(progress: real)
    requires 0.0 <= progress <= 100.0
    ensures 0 <= Round(progress) <= 100
  {
  }

  class ProgressBar {
    var progress: real

    /** `useState(0)` */
    constructor ()
      ensures progress == 0.0
    {
      progress := 0.0;
    }

    /** The progress lies between 0 and 100. */
    predicate Valid()
      reads this
    {
      0.0 <= progress <= 100.0
    }

    /** The effect, run with the current props. */
    method Update(status: Status, steps: seq<string>, currentStep: nat)
      requires Valid()
      modifies this
      ensures Valid()
      ensures progress == Next(status, |steps|, currentStep, old(progress))
    {
      NextInRange(status, |steps|, currentStep, progress);
      if status == Processing {
        progress := ProcessingProgress(|steps|, currentStep);
      } else if status == Complete {
        progress := 100.0;
      } else if status == Error {
        progress := 0.0;
      }
    }
  }
}
