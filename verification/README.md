# Video processor: a verified model

A Dafny model of a service that takes video IDs from a Redis queue, downloads the raw video from an
object store, runs a transcoding pipeline over it, and stores and announces the results.
`dafny verify dfyconfig.toml` checks the whole project.

## The job protocol

`Protocol.dfy` is a step machine. Every Redis or object-store command is one step. Attempts (the
goroutine of `processNextMessage`, which may outlive the worker that started it), publishers and any
number of recovery loops interleave freely. Every command may fail with no effect (this also covers a
rejecting circuit breaker), every attempt and every loop may die between two steps, records may expire
at any time, sources may be uploaded again, IDs may be pushed by hand without a record, and the clock
only moves forward. The bucket holds contents, not only names. Each ID carries a tally of what has happened to it:
faults, crashes, losses, publications, deaths and webhooks.

There are no fairness or fault assumptions in the machine. Those a theorem needs are named predicates
over the tally (`Exclusion.Punctual`, `Retries.Regular`, `FourAttempts.Untroubled`,
`Duplicates.Orderly`), so each theorem says which fault breaks it.

* `Projection.dfy`: what an event does to one ID depends on that ID's view alone. All invariants are
  proved on views.
* `Ledger.dfy` and `Guarantees.dfy`: what holds in every run. No job is lost unless a push is, sources
  are kept, end states have causes, and every attempt ends.
* `Exclusion.dfy`, `Retries.dfy`, `FourAttempts.dfy`, `Crashes.dfy`, `Duplicates.dfy`, `Fifo.dfy`: mutual
  exclusion in real time, exact retry counting over non-atomic updates, exhaustion after four attempts,
  recoveries bounded by crashes, bounded duplicates, order.
* `Outcomes.dfy`: runs from the start that reach the two ends of a job, dead after four failures and
  finished with its callback told.
* `Queue.dfy`, `ObjectStore.dfy`, `Worker.dfy`: the same operations as classes updated in place.
  `Undisturbed.dfy`, `WholeAttempt.dfy` and `EveryAttempt.dfy` prove that the machine, run without
  interleaving, leaves exactly what those methods leave, in both directions.
* `RecoverySweep.dfy`: one sweep as a function on values.
* `Deadlines.dfy`: from the time budget to mutual exclusion.
* `Limits.dfy` and `DeadAfterDone.dfy`: what the protocol does not guarantee, with witness runs (built
  from `Witnesses.dfy`), and where the exact line is.

## The pipeline

* `Scheduler.dfy`: semaphore, wait group and mutex as a state machine for any number of tasks and any
  capacity; it refines the sequential runner. `Makespan.dfy` has Graham's bound for schedules without
  delay, and `TokenTiming.dfy` proves that prompt timed runs of the machine are such schedules.
* `Pipeline.dfy`: the pipeline, its sequential runner and the time budget.

## HLS and uploads

* `Hls.dfy`, `FilterGraph.dfy`, `HlsCommand.dfy`: quality selection, the master playlist, the filter
  graph and the ffmpeg argument list. Each text is printed by the source's loops and read back by an
  independent reader (RFC 8216, sections 4.3.1.1, 4.3.1.2 and 4.3.4.2, for the playlist).
* `HlsLadder.dfy`: the fallbacks, for every outcome of every command.
* `DirectoryUpload.dfy`, `Notification.dfy`: directory trees in the bucket, and what the webhook says
  about them.

## Where code and documentation differ

The model follows the code.

* Recovery never looks at `MaxJobRetries`, so a job that keeps killing its worker is recovered forever;
  docs/claude/design-decisions.md:19 says it eventually gives up (`Limits.RecoveryNeverGivesUp`).
* A job is attempted four times before it is declared dead; docs/GETTING_STARTED.md:226 says three
  (`FourAttempts.ExhaustedAfterFour`, which also covers the bare LPUSH that page describes).
* A failed height probe selects every quality; docs/claude/design-decisions.md:44 says at least 240p
  (`Hls.SelectionIsPrefix`).
* docs/claude/design-decisions.md:36 says recovery can never requeue a running job. Nothing ends an
  attempt at its timeout, since transfers ignore the job's context (`Limits.LateAttemptsOverlap`).
* docs/claude/design-decisions.md:10 says recovery requeues anything stuck in `:processing`. It does so
  only for records whose status is processing (`Limits.OrphanStays`, `Limits.SweepTakesBackStale`).
* The invariant behind internal/processor/timeout_test.go:14-19 has an exact condition on the scale
  (`Pipeline.BudgetExceedsSteps`).
* Mutual exclusion holds for one instance of the service. Each instance starts a recovery loop, and two
  loops can recover the same job twice (`Limits.TwoLoopsDuplicate`).

## Model

| member | source | states |
|---|---|---|
| Guarantees.NoJobLost | main.go:219-246 | In every run, copies in main, `:processing`, finished, dead and recovery's hand plus recorded losses cover every publication and every acknowledgement still due; without losses an ID neither finished nor dead has at least one copy more than the acknowledgements due |
| Guarantees.SourceKept | minio/client.go:248-266 | In every run an uploaded source is in raw/ or raw-archived/, and absent from raw/ only if its processed video is present |
| Guarantees.LatestSourceKept | minio/client.go:253-261 | The bytes last uploaded are in raw/ or raw-archived/ unless some upload fell between an attempt's copy and its removal; a source uploaded once is never exposed to that |
| Guarantees.EndStatesHaveCauses | main.go:221-240 | Status done and a success webhook imply publication to finished, which implies a stored video; a record that says done has artifacts and an empty error; every entry in dead has a written count of at least 4, or takes up one failed write of that failure by SetJobFailed |
| Guarantees.MainListBalances | queue/client.go:45-57 | Takes plus waiting entries equal publications plus requeues plus recovery pushes; publications never exceed submissions, nor recovery pushes recoveries |
| Guarantees.AttemptAdvances | main.go:212-348 | Every step, whatever its outcome, brings an attempt nearer its end |
| Guarantees.AttemptsEnd | main.go:212-348 | An attempt that gets 17 steps has ended, whatever happens in between |
| Ledger.Keeps | main.go:183-356 | Every event keeps the inventory of an ID: records, copies, debts, archives, causes of death |
| Projection.Projects | queue/client.go:45-118 | What an event does to one ID is a function of that ID's view, the clock and the mover |
| Exclusion.OneHolder | queue/client.go:97-116 | With at most one recovery loop, an ID submitted at most once whose attempts all end within the threshold of their claim has at most one holder: main copy, live attempt and recovery's hand exclude one another |
| Exclusion.NeverOverlapped | queue/client.go:97-116 | Under the same conditions no attempt on the ID ever begins while another is running |
| Exclusion.StuckHasNoOwner | queue/client.go:103-105 | A record found processing and stale has no live attempt, even while crash duplicates remain listed |
| Exclusion.KeepsClock | main.go:76 | No attempt is overdue unnoticed, and no sweep compares with a cut-off from the future |
| Jobs.StuckMeansOverdue | queue/client.go:97-105 | The whole-second comparison never fires at or before the threshold, and always fires a second after it |
| Retries.ExactCount | queue/job.go:111-123 | In a regular run the stored count (0 without a record) equals failures plus recoveries, the worker requeues at most 3 times, and a dead ID has a count of at least 4; a record exists unless the ID was pushed by hand |
| Retries.CountNeverDrops | queue/job.go:87-123 | Extending a run with one loop that stays regular never lowers the stored count, although updates are a GET and a later SET |
| Retries.BoundedTakes | queue/job.go:31-32 | In a regular run an ID is taken at most 4 times more than it has been recovered |
| Crashes.RecoveredPerCrash | queue/client.go:98-117 | In a regular run every recovery uses up a crash of one of the job's attempts, so takes number at most 4 plus the crashes |
| FourAttempts.ExhaustedAfterFour | main.go:225-240 | With one loop, an ID submitted at most once that meets no crash, fault, expiry, loss or late attempt is never recovered, taken at most 4 times, dead only after exactly 4 failures in as many takes, and dead once nothing else holds it |
| Outcomes.AlwaysFailing | main.go:219-246 | A run from the start in which an ID without a source meets no fault or crash: taken four times, failed four times, dead once, its callback told of the failure |
| Outcomes.Succeeding | main.go:287-346 | A run from the start that finishes a job once, with a record that says done and a success webhook |
| Outcomes.HookTellsStatus | main.go:219-340 | Webhooks come from two commands only: after a publication exactly when the record read back names a callback, saying success exactly when that record says done; after a burial exactly when the failure was written and names a callback |
| Outcomes.NeedsItsSource | minio/client.go:103-138 | Every download fails exactly when a request does or the source is not, or no longer, there; a source is copied only if it is there and removed only if it was copied |
| Duplicates.PublishedPerUpload | main.go:258-299 | With attempts that do not overlap, an ID is finished at most once per uploaded source and failed archive |
| Duplicates.PublishedOnce | main.go:258-299 | So with one upload at most once more than its archiving failed |
| Fifo.FirstInFirstOut | queue/client.go:47 | In every run the takes are a prefix of the pushes and the list is the rest |
| Fifo.BoundedOvertaking | queue/job.go:127-136 | An entry with k entries before it is the one taken after exactly k more takes, whatever is pushed meanwhile |
| RecoverySweep.SweepsExactlyOnce | queue/client.go:98-117 | For any listing with repetitions and any outcome of any command: a stale ID whose record could be written counts exactly one retry, main gains a copy exactly if that entry's LPUSH succeeded and `:processing` loses one exactly if its LREM did; every other ID is untouched |
| RecoverySweep.SweepConserves | queue/client.go:115-116 | If its list commands succeed a sweep keeps the multiset of main and `:processing` |
| RecoverySweep.SweepTwice | queue/client.go:90-118 | After a sweep whose GETs and SETs succeeded, whatever became of its list commands, a second one with the same cut-off changes nothing, whatever faults it meets |
| Undisturbed.SweepRuns | queue/client.go:90-118 | The machine's recovery loop, left alone, leaves what the sweep function leaves |
| Undisturbed.SweepsOnRedis | queue/client.go:98-117 | One command of a recovery loop, as the machine takes it, is the command of the client |
| Undisturbed.FailureRuns | main.go:219-246 | The machine's failing attempt, left alone, leaves what SettleAttempt leaves, for every reply |
| Undisturbed.PublishRuns | queue/job.go:74-84 | The machine's two publishing steps leave what PublishJob leaves |
| Undisturbed.ConsumeRuns | queue/client.go:45-57 | The machine's take leaves what ConsumeMessage leaves |
| WholeAttempt.StepRuns | main.go:183-348 | One command of an attempt does to both stores, contents included, what it does to the client's |
| WholeAttempt.Archives | minio/client.go:248-266 | The machine's archive steps do to the bucket what ArchiveRawVideo does, and nothing to Redis |
| WholeAttempt.AttemptRuns | main.go:183-348 | For every outcome of every command the machine has a run from take to acknowledgement that leaves both stores as ProcessNextMessage does |
| EveryAttempt.EveryAttemptIsACall | main.go:183-348 | Conversely, every undisturbed attempt of the machine on a source within the size limit leaves both stores as ProcessNextMessage does for some outcomes, up to the wording of its error |
| Queue.QueueClient.ConsumeMessage | queue/client.go:45-57 | Moves the oldest entry from the end of main to the head of `:processing` in one step, or changes nothing |
| Queue.QueueClient.AcknowledgeMessage | queue/client.go:60-65 | Removes the copy nearest the head of `:processing` (what is before and after it stays, in order) and nothing else |
| RedisLists.LRemNearestHead | queue/client.go:60-65 | Of several copies the one nearest the head is removed and the rest keeps its order |
| Queue.QueueClient.PublishJob | queue/job.go:74-84 | Writes a fresh pending record (count 0, no error, no results, the callback given), then pushes; a failed write leaves the list alone |
| Queue.QueueClient.SetJobProcessing | queue/job.go:87-94 | Sets the status of the record found, or of a blank one, to processing and stamps it; count, error, results, callback and creation time stay |
| Queue.QueueClient.SetJobDone | queue/job.go:97-107 | After a successful write the record says done with exactly these artifacts and metadata and an empty error; count, callback and creation time of the record found are kept |
| Queue.QueueClient.SetJobFailed | queue/job.go:111-123 | After a successful write the record says failed with this error and a count one higher, and keeps callback, creation time and results; it is returned exactly when the write succeeded |
| Queue.QueueClient.RequeueJob | queue/job.go:127-136 | A found record must be written as pending before the push; a missing one is no obstacle |
| Queue.QueueClient.MoveToDLQ | queue/job.go:140-142 | Pushes to dead and changes nothing else |
| Queue.QueueClient.SettleAttempt | main.go:219-246 | Records a failure, then requeues or buries by the written count, then acknowledges whatever happened; a record to report is returned if and only if the job was just buried, its failure was written and it names a callback, and its count is then at least 4 |
| Queue.QueueClient.RecoverStuckJobs | queue/client.go:90-118 | The loop over the snapshot, with its early continues, equals the sweep function |
| Queue.SettledInOnePlace | main.go:219-246 | With good replies settling keeps the multiset of main, `:processing` and dead, and returns to main if and only if at most 3 failures and recoveries are now counted |
| Worker.ProcessNextMessage | main.go:183-348 | Takes one job or nothing; both stores end as specified for every reply; a webhook is sent if and only if the record names one and could be read after a success, or was written and the job buried after a failure; it says what the stored record holds, and after a success whose record was written that is the stored video's path, the path of each optional artifact exactly if its step succeeded, five thumbnails, and the metadata |
| Worker.FirstFailure | main.go:250-325 | A call gets through exactly if both download requests, the size check, the three critical steps, the upload and the publication succeed; otherwise its error names the first of these stages that failed |
| Worker.Attempt | main.go:250-348 | The first failing stage decides the error and later stages have no effect; a webhook is sent if and only if nothing failed and the record read back names one; it tells that record, and the run's own outcomes if the record was written |
| Worker.Deliver | main.go:287-340 | The upload decides whether anything is stored, the publication whether the job is finished, recorded and reported; a failed archive is not an error; the webhook tells the outcomes of this run if the record was written |
| Worker.Report | main.go:330-340 | If its SET succeeds the stored record says done with these artifacts and metadata; the webhook carries what is then stored, artifacts and media data exactly with status done |
| Worker.OneMove | main.go:183-348 | One job leaves main and reaches exactly one of finished, main and dead, unless a needed command is refused, and then none; an acknowledged call restores `:processing` exactly |
| Worker.SourceSurvives | main.go:284-299 | After a call with any outcomes the source's bytes are still stored, and gone from raw/ only if the processed video is stored |
| Worker.PublishedIsStored | main.go:288-328 | A call without failure leaves the transcoder's output under the processed key |
| Worker.AnnouncedIsStored | main.go:287-306 | After a call without failure the video is in the bucket under the very path that record and webhook announce; a copied source is under "raw-archived/" plus the ID byte for byte, and gone from "raw/" exactly if both archive requests succeeded |
| Worker.ArchivedCannotPublish | main.go:258-262 | Once a call has archived the source every later call fails at its download |
| ObjectStore.VideoStore.DownloadVideo | minio/client.go:103-138 | Content is returned exactly for an object that exists, is not oversized and can be read |
| ObjectStore.VideoStore.ArchiveRawVideo | minio/client.go:248-266 | Copies before it removes; succeeds only if both requests do and the source exists |
| ObjectStore.ArchiveKeepsBytes | minio/client.go:248-266 | Whichever request fails, the bytes remain at one of the two keys, raw/ loses them only on success, and no other object changes |
| ObjectStore.ArchiveTwice | minio/client.go:253-258 | Archiving again changes nothing |
| ObjectKeys.ObjectPathInjective | minio/client.go:92-94 | Different objects have different keys, whatever the IDs contain |
| Limits.OrphanStays | queue/client.go:103 | An ID left in `:processing` with no live attempt and a status other than processing is never taken again in any run without a new submission |
| Limits.OrphanArises | main.go:186-199 | A worker that dies before its SetJobProcessing write leaves such an ID |
| Limits.SweepTakesBackStale | queue/client.go:98-117 | A faultless sweep takes a listed ID back if and only if its record is processing and stale |
| Limits.RecoveryNeverGivesUp | queue/client.go:109-116 | For every n some run recovers a job n times and leaves it waiting, never dead |
| Limits.LateAttemptsOverlap | main.go:350-355 | An attempt that outlives the threshold runs beside the next attempt on the same ID |
| Limits.TwoLoopsDuplicate | queue/client.go:98-116 | With two loops one dead attempt suffices to put a job submitted once into main twice, so mutual exclusion needs the single loop |
| Limits.FailedPushLosesJob | main.go:226-245 | A run from the start in which a refused requeue push, followed by the acknowledgement, leaves the ID in no list |
| Limits.LostExactlyWhenRefused | main.go:219-246 | Every attempt that runs undisturbed to its end and acknowledges leaves the lists one entry short if and only if it failed and a command needed to hand its job on was refused |
| Limits.EachLossHappens | main.go:219-246 | For every outcome of the commands there is such an attempt |
| Limits.ReuploadLost | minio/client.go:256-261 | A source uploaded again between the copy and the removal is deleted, and the archive holds the earlier one |
| DeadAfterDone.FinishedJobDies | main.go:323-333 | A run whose only mishap is one crash between publication and the final record ends with the job finished and dead, its record failed and a failure webhook sent |
| Scheduler.RefinesSequential | internal/processor/processor.go:196-261 | In every interleaving the channel holds exactly the tasks between acquire and release, at most its capacity, and at most one task is between Lock and Unlock; after Wait the results are the sequential ones, no token is out and nothing can change any more |
| Scheduler.Progress | internal/processor/processor.go:207-225 | Until Wait has returned some action is enabled |
| Scheduler.Decreases | internal/processor/processor.go:207-225 | Every enabled action lowers a measure |
| Scheduler.EveryRunCompletes | internal/processor/processor.go:196-261 | A run takes at most 8n + 1 actions, and one that can go no further has waited and has the sequential results |
| Makespan.GrahamBound | internal/processor/processor.go:204-225 | With tokens passed on without delay, k times the finish is at most sum p + (k - 1) max p, and the finish is between max p and the sequential sum |
| Makespan.EnoughTokens | internal/processor/processor.go:197-204 | With a token for every task the finish is exactly max p |
| Makespan.AnyOrderMeetsBound | internal/processor/processor.go:207-225 | Handing tokens on in any order of tasks is a schedule without delay |
| TokenTiming.PromptMeetsBound | internal/processor/processor.go:207-260 | In every timed run of the token machine in which actions happen as soon as they can, the starts form a schedule without delay, and Wait returns exactly at its finish, within Graham's bound |
| TokenTiming.PromptEnds | internal/processor/processor.go:207-260 | A prompt run in which Wait has not returned consists of at most 8n actions and the sum of the durations |
| TokenTiming.PromptCompletes | internal/processor/processor.go:207-260 | Every prompt run can be continued to one in which Wait has returned |
| Pipeline.RunNonCriticalStepsSequential | internal/processor/processor.go:149-194 | Each artifact path is set to its fixed name if and only if its step succeeded, independently of the others |
| Pipeline.ProcessVideo | internal/processor/processor.go:97-147 | Fails exactly for the directory, validation and transcoding; otherwise each artifact path is set exactly if its step succeeded, and the metadata is what the analysis found |
| Pipeline.Capacity | internal/processor/processor.go:197-203 | The configured degree, 1 for anything lower and 4 for anything higher |
| Pipeline.ParallelStoresTheSame | internal/processor/processor.go:139-143 | For every configured degree, clamped, and every finished interleaving the artifacts equal the sequential ones |
| Pipeline.ScaledByTheCaller | internal/processor/processor.go:40-51 | A scaled timeout falls short of the timeout times the caller's scale by less than a nanosecond; a scale that is not positive changes nothing |
| Pipeline.UnscaledTimeouts | internal/processor/processor.go:22-44 | At scale 1 or none: 30, 30 and 180 s for the critical steps, 60, 120, 120 and 240 s for the others, and 18 minutes for the job |
| Pipeline.BudgetCoversSteps | internal/processor/processor.go:40-51 | The truncated step timeouts add up to the truncated step total or at most 6 ns less, and with the truncated slack never exceed the truncated budget, at any scale |
| Pipeline.BudgetExceedsSteps | internal/processor/timeout_test.go:10-20 | The budget strictly exceeds the step total if and only if the caller's scale meets an explicit numeric condition |
| Pipeline.TinyScaleHasNoSlack | internal/processor/timeout_test.go:10-20 | At scale 1e-15 budget and step total are both 0 |
| Pipeline.StepsEndInBudget | internal/processor/processor.go:36-44 | Steps within their timeouts end within the budget less the slack, sequentially or under any schedule without delay |
| Pipeline.ThresholdIsAMinuteMore | main.go:34-39 | The recovery threshold is exactly a minute above JOB_TIMEOUT if that is positive, otherwise a minute above the derived budget |
| Pipeline.ThresholdCoversPipeline | main.go:34-39 | With the derived budget, steps and transfers within their limits end at least a minute before the recovery threshold, at every scale |
| Deadlines.NeverLate | main.go:73-76 | Attempts that keep time limits adding up to at most the threshold never outlive it, in any run |
| Deadlines.OneHolderInBudget | main.go:34-39 | With one loop and the derived budget, if steps keep their timeouts and the rest keeps within the scaled slack and a minute, an ID submitted at most once has at most one holder, at every scale |
| Deadlines.PublishedInBudget | main.go:34-39 | Under the same conditions it is finished at most once per uploaded source and failed archive |
| Hls.SelectVariants | internal/processor/processor-steps/streaming.go:76-84 | The loop computes the selection |
| Hls.SelectionIsPrefix | internal/processor/processor-steps/streaming.go:76-84 | On an ascending ladder the selection is a non-empty prefix, cut exactly at the source's height; everything if the probe failed, the lowest alone if nothing fits |
| Hls.LadderIsConsistent | internal/processor/processor-steps/streaming.go:26-32 | The five qualities: each named after its height, with the bandwidth of its video and audio bitrates together |
| Hls.MasterPlaylist | internal/processor/processor-steps/streaming.go:290-298 | The builder loop prints header and entries in order |
| Hls.MasterPlaylistRoundTrip | internal/processor/processor-steps/streaming.go:290-298 | Reading the text by RFC 8216 gives version 3 and exactly the listed bandwidths and URIs in order if and only if no name has a newline or starts with # |
| Text.ParsePrinted | internal/processor/processor-steps/streaming.go:127-154 | Decimal printing can be read back |
| Text.SplitJoined | internal/processor/processor-steps/streaming.go:162 | Splitting a joined text gives the parts back |
| FilterGraph.FilterComplex | internal/processor/processor-steps/streaming.go:125-134 | The loop prints the filter graph |
| FilterGraph.GraphRoundTrip | internal/processor/processor-steps/streaming.go:125-134 | Reading the text as links and filters gives exactly one split and one scale per quality |
| FilterGraph.GraphWellFormed | internal/processor/processor-steps/streaming.go:127-133 | Split pads are pairwise distinct, each is consumed by exactly the scale of its index, and scaled labels collide with nothing |
| HlsCommand.SingleCommandArgs | internal/processor/processor-steps/streaming.go:121-166 | The appending loop produces the intended options and the output pattern |
| HlsCommand.AppendVideoArgs | internal/processor/processor-steps/streaming.go:176-197 | The options for one stream, by encoder |
| HlsCommand.CommandRoundTrip | internal/processor/processor-steps/streaming.go:121-166 | Reading the argument list gives back options and output if and only if the output pattern does not look like an option |
| HlsCommand.StreamOptions | internal/processor/processor-steps/streaming.go:136-154 | Stream i is given variant i's codec and bitrate once each, audio options exactly with audio, and streams that do not exist nothing |
| HlsCommand.MapsInOrder | internal/processor/processor-steps/streaming.go:137-141 | Scaled links are mapped once each in order, each followed by the audio when there is any |
| HlsCommand.TextOptions | internal/processor/processor-steps/streaming.go:133-166 | Graph and stream map are each given exactly once |
| HlsCommand.WholeCommandOptions | internal/processor/processor-steps/streaming.go:121-166 | The options that concern no single stream each have exactly one, fixed value: six-second independent segments, an endless list, the master playlist's name, input and segment pattern |
| HlsCommand.StreamMapRoundTrip | internal/processor/processor-steps/streaming.go:145-162 | Entry i of the stream map reads back as index i, variant i's name and audio exactly with audio, if and only if no name has a space or comma |
| HlsCommand.LadderReadsBack | internal/processor/processor-steps/streaming.go:26-32 | For the service's own qualities all three texts read back, for every source height |
| HlsLadder.Host.TranscodeVariant | internal/processor/processor-steps/streaming.go:199-288 | One run on CPU; on NVENC a second one without hardware decoding if and only if the first failed |
| HlsLadder.Host.SegmentSequential | internal/processor/processor-steps/streaming.go:100-112 | Success means every quality was encoded by this encoder into a directory made for it before, and then a playlist of exactly these was written; failure stops at the first failed call that hardware decoding does not excuse |
| HlsLadder.Host.SegmentSingleCommand | internal/processor/processor-steps/streaming.go:114-174 | At most one run, after a directory for each quality; success means that run was over exactly these qualities; the first failed call is the last |
| HlsLadder.Host.SegmentBody | internal/processor/processor-steps/streaming.go:69-98 | Output directory and probe first, and a failed probe ends nothing; one encoder only; with the single command on, single encodes come only after its stage (a quality's directory or the command) failed, and only if fallback is on; with fallback on it takes a second failure to fail; with n qualities selected at most 1 + n runs, or 1 + 2n on NVENC |
| HlsLadder.Host.Segment | internal/processor/processor-steps/streaming.go:54-67 | At most 1 + 2n runs of ffmpeg on NVENC and then 1 + m on CPU for the two selections, so 3 per rung of the ladder and 2 in all, n + 1 without NVENC; CPU only after the NVENC body's last call failed; success exactly if the last call succeeded, and then the output for the selected qualities was delivered |
| DirectoryUpload.Bucket.UploadDirectory | minio/client.go:201-220 | An error-free run stores the tree's files in depth-first order; a failing one stops at its first failed call, having stored a prefix |
| DirectoryUpload.Bucket.UploadEntry | minio/client.go:206-218 | The same for one entry, a file or a directory |
| DirectoryUpload.UploadsExactlyTheFiles | minio/client.go:206-218 | For slash-free sibling-distinct names a key is uploaded with a content if and only if it is prefix plus the path of a file with that content |
| DirectoryUpload.KeysDistinct | minio/client.go:208 | For slash-free, sibling-distinct names no two uploads share a key |
| DirectoryUpload.OneUploadPerFile | minio/client.go:206-218 | There are as many uploads as files |
| DirectoryUpload.TreeStored | minio/client.go:201-220 | After an error-free run every file is found under its path, and no other key has changed |
| Notification.BuildJobArtifacts | main.go:377-394 | An artifact is named if and only if the pipeline produced it |
| Notification.NotifyWebhook | main.go:398-434 | Success exactly for status done; artifacts and media data only then; five numbered thumbnail paths exactly when there is a thumbnails prefix |
| Notification.ThumbnailKeys | internal/processor/processor-steps/thumbnail.go:46-48 | The keys of an uploaded thumbnail directory equal the webhook's paths if and only if it holds five images |
| Notification.AdvertisedWhenComplete | main.go:302-306 | After an upload that stored some prefix of a full thumbnail directory, all the webhook's paths are stored if and only if the upload ran to its end |

## Left out

- Redis and object-store clients, JSON and wire formats: a command either takes effect or fails with no
  effect. A reply lost after the effect is not modelled, except that a take whose reply is lost is a
  take followed by a crash.
- Circuit breaker thresholds: a wrapped call may fail at any time.
- The 24 h lifetime of records and the 30-day lifecycle of archived sources: a record may expire at any
  moment, which is more than the service allows; archived sources never expire in the model.
- ffmpeg and ffprobe: outcomes and probe values are arbitrary; media content is opaque text. The two
  file patterns of the HLS command are parameters or fixed names instead of joined paths.
- Webhook delivery (HTTP, HMAC, three tries): the model stops at the payload.
- Telemetry, metrics, logging, health endpoints and configuration loading.
- Temporary files: two overlapping attempts on one ID share them, which the model does not show.
- A cap on running attempts: attempts outlive their workers, so the model has none.
- Floating-point rounding and overflow of time.Duration: scales are reals, truncated to nanoseconds.
- The parallel runner as imperative code: it is concurrent, so it is a state machine (`Scheduler`).
- Liveness of orphans: `Limits` shows which are never recovered; no fairness is assumed.
- The optional artifacts' effect on the bucket within `Worker`: their failures are only logged;
  `DirectoryUpload` covers them on their own.
- `NormalizeNVENCPreset`, `ResolveVideoEncoder`, `contentTypeByExt`, audio, preview and the MP4
  transcoder's own fallback: settled by one branch each.
