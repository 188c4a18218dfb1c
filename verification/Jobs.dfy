/** The job record kept under `job:<id>` and what each setter of queue/job.go makes of it. */
module Jobs {

  type ID = string

  datatype Option<+T> = None | Some(value: T)

  datatype Status = Pending | Processing | Done | Failed

  datatype Artifacts = Artifacts(video: string, thumbnails: string, audio: string, preview: string, hls: string)

  datatype Metadata = Metadata(
    duration: real, width: int, height: int, videoCodec: string, audioCodec: string,
    fps: real, bitrate: int, size: int)

  datatype Job = Job(
    status: Status,
    error: string,
    artifacts: Option<Artifacts>,
    metadata: Option<Metadata>,
    retryCount: nat,
    callbackURL: string,
    createdAt: int,
    updatedAt: int)

  const MAX_JOB_RETRIES: nat := 3

  const SECOND: nat := 1_000_000_000

  /** Unix seconds of a time in nanoseconds (Go's Time.Unix rounds down). */
  function Seconds(t: int): int {
    t / SECOND
  }

  /** What no setter but the publisher's touches: a record keeps it, and a replaced one has none. */
  predicate SameSubmission(found: Option<Job>, after: Job, now: nat) {
    if found.Some? then after.callbackURL == found.value.callbackURL && after.createdAt == found.value.createdAt
    else after.callbackURL == "" && after.createdAt == Seconds(now)
  }

  predicate SameResults(found: Option<Job>, after: Job) {
    if found.Some? then after.artifacts == found.value.artifacts && after.metadata == found.value.metadata
    else after.artifacts == None && after.metadata == None
  }

  /** The retries counted so far; a replaced record starts from 0. */
  function CountOf(found: Option<Job>): nat {
    if found.Some? then found.value.retryCount else 0
  }

  function NewJob(callbackURL: string, now: nat): Job {
    Job(Pending, "", None, None, 0, callbackURL, Seconds(now), 0)
  }

  /** A missing record, or one that could not be read, is replaced by a blank one. */
  function Base(found: Option<Job>, now: nat): Job {
    match found
    case Some(job) => job
    case None => NewJob("", now)
  }

  function MarkProcessing(found: Option<Job>, now: nat): Job {
    Base(found, now).(status := Processing)
  }

  function MarkDone(found: Option<Job>, now: nat, artifacts: Artifacts, metadata: Option<Metadata>): Job {
    Base(found, now).(status := Done, artifacts := Some(artifacts), metadata := metadata, error := "")
  }

  function MarkFailed(found: Option<Job>, now: nat, error: string): Job {
    var job := Base(found, now);
    job.(status := Failed, error := error, retryCount := job.retryCount + 1)
  }

  function MarkRequeued(job: Job): Job {
    job.(status := Pending)
  }

  function MarkRecovered(job: Job): Job {
    job.(retryCount := job.retryCount + 1, status := Pending)
  }

  /** setJobState stamps the record when it writes it, not when it was read. */
  function Stamp(job: Job, now: nat): Job {
    job.(updatedAt := Seconds(now))
  }

  /** The cut-off recoverStuckJobs computes once per sweep. */
  function Threshold(now: nat, stuck: nat): int {
    Seconds(now - stuck)
  }

  /** The test a sweep applies to each listed job. */
  predicate Stuck(job: Job, threshold: int) {
    job.status == Processing && job.updatedAt < threshold
  }

  /** The whole-second comparison never fires early, and fires at the latest one second late. */
  lemma StuckMeansOverdue(written: nat, now: nat, stuck: nat)
    ensures Seconds(written) < Threshold(now, stuck) ==> written + stuck < now
    ensures written + stuck + SECOND <= now ==> Seconds(written) < Threshold(now, stuck)
  {
    if Seconds(written) < Threshold(now, stuck) && now <= written + stuck {
      SecondsMonotone(now - stuck, written);
    }
    if written + stuck + SECOND <= now {
      SecondsMonotone(written + SECOND, now - stuck);
    }
  }

  lemma SecondsAreWhole(t: int)
    ensures 1_000_000_000 * Seconds(t) <= t < 1_000_000_000 * (Seconds(t) + 1)
  {
  }

  lemma SecondsMonotone(a: int, b: int)
    requires a <= b
    ensures Seconds(a) <= Seconds(b)
    ensures Seconds(a + SECOND) == Seconds(a) + 1
  {
  }
}
