/** The processing pipeline: critical and optional steps, the sequential runner, and the budget. */
module Pipeline {
  import opened Jobs
  import Scheduler
  import Makespan

  /* ---- steps ---- */

  /** How the steps end: step 2 yields metadata or fails, steps 4-7 succeed or fail. */
  datatype Outcomes = Outcomes(
    mkdir: bool, validate: bool, analyze: Option<Metadata>, transcode: bool,
    thumbnails: bool, audio: bool, preview: bool, streaming: bool)

  /** Where the optional steps put their artifacts. */
  function ArtifactPaths(tempDir: string): seq<string> {
    [tempDir + "/thumbnails", tempDir + "/audio.mp3", tempDir + "/preview.mp4", tempDir + "/streaming"]
  }

  function OptionalOutcomes(o: Outcomes): seq<bool> {
    [o.thumbnails, o.audio, o.preview, o.streaming]
  }

  /** MaxParallelPostTranscodeSteps, clamped to [1, 4]. */
  function Capacity(maxParallel: int): (capacity: nat)
    ensures 1 <= capacity <= 4
    ensures 1 <= maxParallel <= 4 ==> capacity == maxParallel
    ensures maxParallel < 1 ==> capacity == 1
    ensures maxParallel > 4 ==> capacity == 4
  {
    if maxParallel < 1 then 1 else if maxParallel > 4 then 4 else maxParallel
  }

  function PostTranscode(tempDir: string, maxParallel: int, o: Outcomes): Scheduler.Plan {
    Scheduler.Plan(Capacity(maxParallel), OptionalOutcomes(o), ArtifactPaths(tempDir))
  }

  /** The artifacts of steps 4-7, "" for a step that failed. */
  function Produced(tempDir: string, o: Outcomes): seq<string> {
    seq(4, i requires 0 <= i < 4 => if OptionalOutcomes(o)[i] then ArtifactPaths(tempDir)[i] else "")
  }

  class ProcessingResult {
    var tempDir: string
    var thumbnailsDir: string
    var audioPath: string
    var previewPath: string
    var streamingDir: string
    var metadata: Option<Metadata>

    constructor (dir: string)
      ensures tempDir == dir && metadata == None && Artifacts() == ["", "", "", ""]
    {
      tempDir, thumbnailsDir, audioPath, previewPath, streamingDir := dir, "", "", "", "";
      metadata := None;
    }

    function Artifacts(): seq<string>
      reads this
    {
      [thumbnailsDir, audioPath, previewPath, streamingDir]
    }
  }

  /** Steps 4-7 one after the other; a failure is logged and the next step runs all the same. */
  method RunNonCriticalStepsSequential(result: ProcessingResult, tempDir: string, o: Outcomes)
    modifies result
    ensures result.tempDir == old(result.tempDir) && result.metadata == old(result.metadata)
    ensures result.thumbnailsDir == if o.thumbnails then tempDir + "/thumbnails" else old(result.thumbnailsDir)
    ensures result.audioPath == if o.audio then tempDir + "/audio.mp3" else old(result.audioPath)
    ensures result.previewPath == if o.preview then tempDir + "/preview.mp4" else old(result.previewPath)
    ensures result.streamingDir == if o.streaming then tempDir + "/streaming" else old(result.streamingDir)
    ensures result.Artifacts() == seq(4, i requires 0 <= i < 4 =>
      if OptionalOutcomes(o)[i] then ArtifactPaths(tempDir)[i] else old(result.Artifacts())[i])
  {
    var thumbnailsDir := tempDir + "/thumbnails";
    if o.thumbnails {
      result.thumbnailsDir := thumbnailsDir;
    }
    var audioPath := tempDir + "/audio.mp3";
    if o.audio {
      result.audioPath := audioPath;
    }
    var previewPath := tempDir + "/preview.mp4";
    if o.preview {
      result.previewPath := previewPath;
    }
    var streamingDir := tempDir + "/streaming";
    if o.streaming {
      result.streamingDir := streamingDir;
    }
  }

  /** The pipeline in sequential mode.  Only the directory, the validation and the transcoding can
      fail it; whatever happens to the other steps is visible in the result alone. */
  method ProcessVideo(tempDir: string, o: Outcomes)
    returns (result: ProcessingResult?, failed: bool)
    ensures failed <==> !o.mkdir || !o.validate || !o.transcode
    ensures result == null <==> !o.mkdir
    ensures result != null ==> fresh(result) && result.tempDir == tempDir
    ensures result != null && !o.validate ==> result.metadata == None
    ensures result != null && o.validate ==> result.metadata == o.analyze
    ensures result != null && failed ==> result.Artifacts() == ["", "", "", ""]
    ensures !failed ==> result.Artifacts() == Produced(tempDir, o)
    ensures !failed ==>
      && result.thumbnailsDir == (if o.thumbnails then tempDir + "/thumbnails" else "")
      && result.audioPath == (if o.audio then tempDir + "/audio.mp3" else "")
      && result.previewPath == (if o.preview then tempDir + "/preview.mp4" else "")
      && result.streamingDir == (if o.streaming then tempDir + "/streaming" else "")
  {
    if !o.mkdir {
      return null, true;
    }
    var r := new ProcessingResult(tempDir);
    result := r;
    if !o.validate {
      return result, true;
    }
    if o.analyze.Some? {
      r.metadata := o.analyze;
    }
    if !o.transcode {
      return result, true;
    }
    RunNonCriticalStepsSequential(r, tempDir, o);
    failed := false;
  }

  /** The parallel mode stores the same artifacts as the sequential one, for every configured
      degree of parallelism and every interleaving that has finished. */
  lemma ParallelStoresTheSame(tempDir: string, o: Outcomes, maxParallel: int, schedule: seq<Scheduler.Action>)
    requires var p := PostTranscode(tempDir, maxParallel, o);
      forall a :: !Scheduler.Enabled(p, Scheduler.Exec(p, Scheduler.Init(p), schedule), a)
    ensures var p := PostTranscode(tempDir, maxParallel, o);
      var t := Scheduler.Exec(p, Scheduler.Init(p), schedule);
      t.waited && t.results == Produced(tempDir, o) && p.capacity == Capacity(maxParallel)
  {
    var p := PostTranscode(tempDir, maxParallel, o);
    Scheduler.Starts(p);
    Scheduler.KeepsAlways(p, Scheduler.Init(p), schedule);
    var t := Scheduler.Exec(p, Scheduler.Init(p), schedule);
    if !t.waited {
      var a := Scheduler.Progress(p, t);
    }
    Scheduler.RefinesSequential(p, schedule, Scheduler.Wait);
  }

  /* ---- the time budget ---- */

  const VALIDATE := 30 * SECOND
  const ANALYZE := 30 * SECOND
  const TRANSCODE := 180 * SECOND
  const THUMBNAILS := 60 * SECOND
  const AUDIO := 120 * SECOND
  const PREVIEW := 120 * SECOND
  const STREAMING := 240 * SECOND
  const TRANSFER_SLACK := 300 * SECOND

  const STEPS: nat := VALIDATE + ANALYZE + TRANSCODE + THUMBNAILS + AUDIO + PREVIEW + STREAMING

  function EffectiveScale(scale: real): (effective: real)
    ensures effective > 0.0
  {
    if scale <= 0.0 then 1.0 else scale
  }

  /** Conversion to time.Duration drops the fraction of a nanosecond. */
  function ScaleTimeout(d: nat, scale: real): (scaled: int)
    ensures scaled >= 0
  {
    var exact := d as real * EffectiveScale(scale);
    assert exact >= 0.0;
    exact.Floor
  }

  /** A scaled timeout is the product with the caller's scale, short of it by less than a nanosecond;
      a scale that is not positive changes nothing. */
  lemma ScaledByTheCaller(d: nat, scale: real)
    ensures scale > 0.0 ==>
      ScaleTimeout(d, scale) as real <= d as real * scale < ScaleTimeout(d, scale) as real + 1.0
    ensures scale <= 0.0 ==> ScaleTimeout(d, scale) == d
  {
  }

  function JobBudget(scale: real): nat {
    ScaleTimeout(STEPS + TRANSFER_SLACK, scale)
  }

  /** Truncating a sum never gives less than summing the truncated parts. */
  lemma ScaledSum(a: nat, b: nat, scale: real)
    ensures ScaleTimeout(a, scale) + ScaleTimeout(b, scale) <= ScaleTimeout(a + b, scale)
    ensures ScaleTimeout(a + b, scale) <= ScaleTimeout(a, scale) + ScaleTimeout(b, scale) + 1
  {
    var s := EffectiveScale(scale);
    var x, y := a as real * s, b as real * s;
    assert (a + b) as real * s == x + y;
  }

  function OptionalTimeouts(scale: real): seq<nat> {
    [ScaleTimeout(THUMBNAILS, scale), ScaleTimeout(AUDIO, scale), ScaleTimeout(PREVIEW, scale),
     ScaleTimeout(STREAMING, scale)]
  }

  function CriticalTimeouts(scale: real): seq<nat> {
    [ScaleTimeout(VALIDATE, scale), ScaleTimeout(ANALYZE, scale), ScaleTimeout(TRANSCODE, scale)]
  }

  function CriticalTimeout(scale: real): nat {
    var timeouts := CriticalTimeouts(scale);
    timeouts[0] + timeouts[1] + timeouts[2]
  }

  /** At scale 1, and at any scale that is not positive: seven steps in nanoseconds, and 18 minutes for
      the job. */
  lemma UnscaledTimeouts(scale: real)
    requires scale == 1.0 || scale <= 0.0
    ensures CriticalTimeouts(scale) == [30_000_000_000, 30_000_000_000, 180_000_000_000]
    ensures OptionalTimeouts(scale) == [60_000_000_000, 120_000_000_000, 120_000_000_000, 240_000_000_000]
    ensures JobBudget(scale) == 1_080_000_000_000
  {
    hide ScaleTimeout;
    Unscaled(VALIDATE, scale);
    Unscaled(ANALYZE, scale);
    Unscaled(TRANSCODE, scale);
    Unscaled(THUMBNAILS, scale);
    Unscaled(AUDIO, scale);
    Unscaled(PREVIEW, scale);
    Unscaled(STREAMING, scale);
    Unscaled(STEPS + TRANSFER_SLACK, scale);
  }

  lemma Unscaled(d: nat, scale: real)
    requires scale == 1.0 || scale <= 0.0
    ensures ScaleTimeout(d, scale) == d
  {
  }

  /** The step timeouts as configured, one by one, never add up to more than their scaled total, nor to
      6 ns less, and with the scaled slack never to more than the budget. */
  lemma BudgetCoversSteps(scale: real)
    ensures CriticalTimeout(scale) + Makespan.Sum(OptionalTimeouts(scale)) <= ScaleTimeout(STEPS, scale)
    ensures ScaleTimeout(STEPS, scale) <= CriticalTimeout(scale) + Makespan.Sum(OptionalTimeouts(scale)) + 6
    ensures ScaleTimeout(STEPS, scale) + ScaleTimeout(TRANSFER_SLACK, scale) <= JobBudget(scale)
    ensures ScaleTimeout(TRANSFER_SLACK, scale) >= 1 ==> ScaleTimeout(STEPS, scale) < JobBudget(scale)
  {
    hide ScaleTimeout;
    SumOfFour(OptionalTimeouts(scale));
    ScaledSum(VALIDATE, ANALYZE, scale);
    ScaledSum(VALIDATE + ANALYZE, TRANSCODE, scale);
    ScaledSum(VALIDATE + ANALYZE + TRANSCODE, THUMBNAILS, scale);
    ScaledSum(VALIDATE + ANALYZE + TRANSCODE + THUMBNAILS, AUDIO, scale);
    ScaledSum(VALIDATE + ANALYZE + TRANSCODE + THUMBNAILS + AUDIO, PREVIEW, scale);
    ScaledSum(VALIDATE + ANALYZE + TRANSCODE + THUMBNAILS + AUDIO + PREVIEW, STREAMING, scale);
    ScaledSum(STEPS, TRANSFER_SLACK, scale);
  }

  lemma SumOfFour(xs: seq<nat>)
    requires |xs| == 4
    ensures Makespan.Sum(xs) == xs[0] + xs[1] + xs[2] + xs[3]
  {
    var a, b, c := xs[..3], xs[..2], xs[..1];
    assert a[..2] == b && b[..1] == c && c[..0] == [];
    assert Makespan.Sum(c) == xs[0] by { assert Makespan.Sum(c[..0]) == 0; }
    assert Makespan.Sum(b) == xs[0] + xs[1];
    assert Makespan.Sum(a) == xs[0] + xs[1] + xs[2];
  }

  /** The scale in nanoseconds per minute: the steps take 13 minutes, with slack 18. */
  function PerMinute(scale: real): real {
    if scale > 0.0 then 60_000_000_000.0 * scale else 60_000_000_000.0
  }

  lemma InMinutes(scale: real)
    ensures ScaleTimeout(STEPS, scale) == (13.0 * PerMinute(scale)).Floor
    ensures JobBudget(scale) == (18.0 * PerMinute(scale)).Floor
  {
    var e := EffectiveScale(scale);
    assert STEPS == 780_000_000_000 && STEPS + TRANSFER_SLACK == 1_080_000_000_000;
    assert STEPS as real * e == 13.0 * PerMinute(scale);
    assert (STEPS + TRANSFER_SLACK) as real * e == 18.0 * PerMinute(scale);
  }

  /** internal/processor/timeout_test.go asks the budget to exceed the step total, at four scales.  It
      does so exactly when a whole number of nanoseconds fits between the two: always for a scale that is
      not positive, always once the budget reaches 3 ns, and never below 1 ns. */
  lemma BudgetExceedsSteps(scale: real)
    ensures var t := 60_000_000_000.0 * scale;
      JobBudget(scale) > ScaleTimeout(STEPS, scale) <==>
      scale <= 0.0 ||
      (18.0 * t >= 1.0 && 13.0 * t < 1.0) || (18.0 * t >= 2.0 && 13.0 * t < 2.0) || 18.0 * t >= 3.0
  {
    MinutesOf(scale);
    hide EffectiveScale, ScaleTimeout, JobBudget, PerMinute;
    InMinutes(scale);
    var t := PerMinute(scale);
    assert t > 0.0 by { PerMinutePositive(scale); }
    var steps, budget := 13.0 * t, 18.0 * t;
    assert 13.0 * budget == 18.0 * steps;
  }

  lemma MinutesOf(scale: real)
    ensures PerMinute(scale) == if scale > 0.0 then 60_000_000_000.0 * scale else 60_000_000_000.0
  {
  }

  lemma PerMinutePositive(scale: real)
    ensures PerMinute(scale) > 0.0
  {
  }

  lemma TinyScaleHasNoSlack()
    ensures JobBudget(0.000000000000001) == ScaleTimeout(STEPS, 0.000000000000001) == 0
  {
    InMinutes(0.000000000000001);
  }

  /** Steps that respect their timeouts end within the budget, less the slack, in either mode: one
      after the other, or the last four under any schedule without delay. */
  lemma StepsEndInBudget(scale: real, critical: nat, starts: seq<nat>, durations: seq<nat>, capacity: nat)
    requires critical <= CriticalTimeout(scale)
    requires |durations| == 4 && forall i :: 0 <= i < 4 ==> durations[i] <= OptionalTimeouts(scale)[i]
    requires Makespan.WithoutDelay(starts, durations, capacity) && capacity >= 1
    ensures critical + Makespan.Sum(durations) + ScaleTimeout(TRANSFER_SLACK, scale) <= JobBudget(scale)
    ensures critical + Makespan.Finish(starts, durations) + ScaleTimeout(TRANSFER_SLACK, scale) <= JobBudget(scale)
  {
    hide ScaleTimeout, Makespan.WithoutDelay, Makespan.Finish;
    Makespan.GrahamBound(starts, durations, capacity);
    SumOfFour(durations);
    SumOfFour(OptionalTimeouts(scale));
    BudgetCoversSteps(scale);
  }

  /** jobTimeout: JOB_TIMEOUT when it is set, else the derived budget. */
  function JobTimeout(configured: int, scale: real): nat {
    if configured > 0 then configured else JobBudget(scale)
  }

  /** The recovery threshold main passes to StartRecovery. */
  function StuckTimeout(configured: int, scale: real): nat {
    JobTimeout(configured, scale) + 60 * SECOND
  }

  /** The threshold is a minute above JOB_TIMEOUT, or above the derived budget if that is not set. */
  lemma ThresholdIsAMinuteMore(configured: int, scale: real)
    ensures configured > 0 ==> StuckTimeout(configured, scale) == configured + 60_000_000_000
    ensures configured <= 0 ==> StuckTimeout(configured, scale) == JobBudget(scale) + 60_000_000_000
  {
  }

  /** Unless JOB_TIMEOUT is set, an attempt whose steps keep their timeouts, and whose transfers keep
      within the scaled slack, ends a minute before it could be taken for stuck. */
  lemma ThresholdCoversPipeline(configured: int, scale: real)
    requires configured <= 0
    ensures CriticalTimeout(scale) + Makespan.Sum(OptionalTimeouts(scale)) + ScaleTimeout(TRANSFER_SLACK, scale) +
            60 * SECOND <= StuckTimeout(configured, scale)
  {
    hide ScaleTimeout;
    BudgetCoversSteps(scale);
  }
}
