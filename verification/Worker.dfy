/** One call of processNextMessage from beginning to end, with nothing else going on: the queue, the
    bucket, the pipeline and the webhook together. */
module Worker {
  import opened RedisLists
  import opened Jobs
  import opened RedisStore
  import opened ObjectKeys
  import opened Queue
  import ObjectStore
  import Pipeline
  import Notification

  /** How everything outside the worker goes. */
  datatype Run = Run(
    now: nat, consume: bool, procGet: bool, procSet: bool,
    stat: bool, read: bool, steps: Pipeline.Outcomes, output: string,
    put: bool, copy: bool, remove: bool, publish: bool,
    doneGet: bool, doneSet: bool, hookGet: bool,
    error: string, settle: Replies)

  function VideoPath(id: ID): string {
    ObjectPath(Object(Processed, ProcessedId(id)))
  }

  predicate Downloaded(objects: ObjectStore.Objects, max: nat, id: ID, run: Run) {
    var raw := ObjectStore.RawPath(id);
    run.stat && run.read && raw in objects && |objects[raw]| <= max
  }

  predicate Transcoded(run: Run) {
    run.steps.mkdir && run.steps.validate && run.steps.transcode
  }

  /** What stops the attempt, if anything does. */
  function Failure(objects: ObjectStore.Objects, max: nat, id: ID, run: Run): Option<string> {
    if !Downloaded(objects, max, id, run) then Some("failed to download video: " + run.error)
    else if !Transcoded(run) then Some("failed to process video: " + run.error)
    else if !run.put then Some("failed to upload video: " + run.error)
    else if !run.publish then Some("failed to publish success message: " + run.error)
    else None
  }

  predicate Uploaded(objects: ObjectStore.Objects, max: nat, id: ID, run: Run) {
    Downloaded(objects, max, id, run) && Transcoded(run) && run.put
  }

  function ObjectsAfter(objects: ObjectStore.Objects, max: nat, id: ID, run: Run): ObjectStore.Objects {
    if !Uploaded(objects, max, id, run) then objects
    else ObjectStore.AfterArchive(objects[VideoPath(id) := run.output], id, run.copy, run.remove)
  }

  function AfterClaim(r: Redis, id: ID, run: Run): Redis {
    if run.procSet then r.Put(id, MarkProcessing(Found(r, id, run.procGet), run.now), run.now) else r
  }

  function Finished(r: Redis, id: ID, artifacts: Artifacts, metadata: Option<Metadata>, run: Run): Redis {
    var published := r.PushFinished(ProcessedId(id));
    if run.doneSet
    then published.Put(id, MarkDone(Found(r, id, run.doneGet), run.now, artifacts, metadata), run.now)
    else published
  }

  /** The end of an attempt, from the moment it is known whether something has failed. */
  function AfterOutcome(r: Redis, id: ID, failure: Option<string>, artifacts: Artifacts, run: Run): Redis {
    AfterSettling(
      if failure.None? then Finished(r, id, artifacts, run.steps.analyze, run) else r,
      id, failure, run.settle, run.now)
  }

  /** The whole effect on Redis of taking `id` and working on it. */
  function RedisAfter(r: Redis, id: ID, failure: Option<string>, artifacts: Artifacts, run: Run): Redis {
    AfterOutcome(AfterClaim(r, id, run), id, failure, artifacts, run)
  }

  /** The job's record names a URL to report to. */
  predicate CallsBack(jobs: map<ID, Job>, id: ID) {
    id in jobs && jobs[id].callbackURL != ""
  }

  /** Which calls get through to the end, and which stage the others name as the one that failed. */
  lemma FirstFailure(objects: ObjectStore.Objects, max: nat, id: ID, run: Run)
    ensures var raw, failure := "raw/" + id, Failure(objects, max, id, run);
      var fetched := run.stat && run.read && raw in objects && |objects[raw]| <= max;
      var transcoded := run.steps.mkdir && run.steps.validate && run.steps.transcode;
      && (failure.None? <==> fetched && transcoded && run.put && run.publish)
      && (failure.Some? ==>
            failure.value ==
            (if !fetched then "failed to download video: "
             else if !transcoded then "failed to process video: "
             else if !run.put then "failed to upload video: "
             else "failed to publish success message: ") + run.error)
  {
    PathsOf(id);
    hide ObjectPath;
  }

  method ProcessNextMessage(queue: QueueClient, store: ObjectStore.VideoStore, run: Run)
    returns (artifacts: Artifacts, payload: Option<Notification.Payload>)
    modifies queue, store
    ensures (!run.consume || old(queue.main) == []) ==>
      queue.Value() == old(queue.Value()) && store.objects == old(store.objects) && payload.None?
    ensures run.consume && old(queue.main) != [] ==>
      var id := old(queue.main)[|old(queue.main)| - 1];
      var failure := Failure(old(store.objects), store.maxBytes, id, run);
      && store.objects == ObjectsAfter(old(store.objects), store.maxBytes, id, run)
      && queue.Value() == RedisAfter(old(queue.Value()).Take(), id, failure, artifacts, run)
      && (failure.None? ==> Reported(id, run, artifacts))
      && (payload.Some? <==>
            && CallsBack(queue.jobs, id)
            && (if failure.None? then run.hookGet else run.settle.failSet && queue.dead == [id] + old(queue.dead)))
      && (payload.Some? ==> Notification.Tells(payload.value, id, queue.jobs[id]))
      && (payload.Some? && failure.None? && run.doneSet ==> Announces(payload.value, id, run))
      && (payload.Some? && payload.value.success ==> failure.None?)
  {
    hide AfterSettling, Finished, ObjectsAfter, Failure, Reported, Announces, LRem;
    artifacts, payload := Artifacts("", "", "", "", ""), None;
    var message := queue.ConsumeMessage(run.consume);
    if message.None? {
      return;
    }
    var videoID := message.value;
    queue.SetJobProcessing(videoID, run.now, run.procGet, run.procSet);
    var jobErr: Option<string>;
    jobErr, artifacts, payload := Attempt(queue, store, videoID, run);
    ghost var before := queue.Value();
    var hook := queue.SettleAttempt(videoID, jobErr, run.now, run.settle);
    SettledRecord(before, videoID, jobErr, run.settle, run.now);
    FinishedLeavesDead(AfterClaim(old(queue.Value()).Take(), videoID, run), videoID, artifacts, run.steps.analyze, run);
    if hook.Some? {
      var p := Notification.NotifyWebhook(videoID, hook.value);
      payload := Some(p);
    }
  }

  lemma FinishedLeavesDead(r: Redis, id: ID, artifacts: Artifacts, metadata: Option<Metadata>, run: Run)
    ensures Finished(r, id, artifacts, metadata, run).dead == r.dead
  {
  }

  /** Settling a success leaves records and dead list alone; a job that is buried after its failure
      was written has that failure for its record. */
  lemma SettledRecord(r: Redis, id: ID, jobErr: Option<string>, a: Replies, now: nat)
    ensures var q := AfterSettling(r, id, jobErr, a, now);
      && (jobErr.None? ==> q.jobs == r.jobs && q.dead == r.dead)
      && (jobErr.Some? && a.failSet && q.dead == [id] + r.dead ==>
            var failed := MarkFailed(Found(r, id, a.failGet), now, jobErr.value);
            id in q.jobs && q.jobs[id].callbackURL == failed.callbackURL && q.jobs[id].status == Failed)
  {
    hide LRem, Seconds;
    if jobErr.Some? {
      SettlesOn(r, id, jobErr.value, a, now);
      assert |[id] + r.dead| == |r.dead| + 1;
    }
  }

  /** The record lists the video and, of the optional artifacts, those whose step succeeded. */
  predicate Reported(id: ID, run: Run, artifacts: Artifacts) {
    artifacts == Artifacts(
      "processed/" + id + "_processed",
      if run.steps.thumbnails then "thumbnails/" + id else "",
      if run.steps.audio then "audio/" + id + ".mp3" else "",
      if run.steps.preview then "preview/" + id + "_preview.mp4" else "",
      if run.steps.streaming then "hls/" + id else "")
  }

  /** What the callback learns of a success whose record was written. */
  predicate Announces(p: Notification.Payload, id: ID, run: Run) {
    && p.videoID == id && p.success
    && p.processedPath == "processed/" + id + "_processed"
    && p.previewPath == (if run.steps.preview then "preview/" + id + "_preview.mp4" else "")
    && p.hlsPath == (if run.steps.streaming then "hls/" + id else "")
    && p.audioPath == (if run.steps.audio then "audio/" + id + ".mp3" else "")
    && p.thumbnailPaths == (if run.steps.thumbnails then Notification.FivePaths("thumbnails/" + id) else [])
    && p.media == run.steps.analyze
  }

  const TEMP := "/tmp/processing"

  lemma ArtifactsPresent(steps: Pipeline.Outcomes)
    ensures var paths := Pipeline.Produced(TEMP, steps);
      && |paths| == 4
      && (paths[0] != "" <==> steps.thumbnails) && (paths[1] != "" <==> steps.audio)
      && (paths[2] != "" <==> steps.preview) && (paths[3] != "" <==> steps.streaming)
  {
    assert forall i :: 0 <= i < 4 ==> |Pipeline.ArtifactPaths(TEMP)[i]| > 0;
  }

  lemma ArtifactsReported(paths: seq<string>, id: ID, run: Run, artifacts: Artifacts)
    requires paths == Pipeline.Produced(TEMP, run.steps)
    requires |paths| == 4
    requires artifacts == Artifacts(
      "processed/" + ProcessedId(id),
      if paths[0] != "" then "thumbnails/" + id else "",
      if paths[1] != "" then "audio/" + id + ".mp3" else "",
      if paths[2] != "" then "preview/" + id + "_preview.mp4" else "",
      if paths[3] != "" then "hls/" + id else "")
    ensures Reported(id, run, artifacts)
  {
    ArtifactsPresent(run.steps);
    NotEmpty(id);
    assert "processed/" + (id + "_processed") == "processed/" + id + "_processed";
  }

  /** The payload made from a record with these artifacts. */
  lemma ReportedIsAnnounced(p: Notification.Payload, id: ID, run: Run, artifacts: Artifacts, state: Job)
    requires Notification.Tells(p, id, state) && Reported(id, run, artifacts)
    requires state.status == Done && state.artifacts == Some(artifacts) && state.metadata == run.steps.analyze
    ensures Announces(p, id, run)
  {
    hide Notification.FivePaths;
    NotEmpty(id);
  }

  lemma NotEmpty(id: ID)
    ensures "" != "thumbnails/" + id && "" != "audio/" + id + ".mp3"
    ensures "" != "preview/" + id + "_preview.mp4" && "" != "hls/" + id
  {
    assert |"thumbnails/" + id| > 0 && |"audio/" + id + ".mp3"| > 0;
    assert |"preview/" + id + "_preview.mp4"| > 0 && |"hls/" + id| > 0;
  }

  /** The goroutine up to its deferred function. */
  method Attempt(queue: QueueClient, store: ObjectStore.VideoStore, videoID: ID, run: Run)
    returns (jobErr: Option<string>, artifacts: Artifacts, payload: Option<Notification.Payload>)
    modifies queue, store
    ensures jobErr == Failure(old(store.objects), store.maxBytes, videoID, run)
    ensures store.objects == ObjectsAfter(old(store.objects), store.maxBytes, videoID, run)
    ensures queue.Value() ==
      if jobErr.None? then Finished(old(queue.Value()), videoID, artifacts, run.steps.analyze, run)
      else old(queue.Value())
    ensures payload.Some? <==> jobErr.None? && run.hookGet && CallsBack(queue.jobs, videoID)
    ensures payload.Some? ==> Notification.Tells(payload.value, videoID, queue.jobs[videoID])
    ensures payload.Some? && run.doneSet ==> Announces(payload.value, videoID, run)
    ensures jobErr.None? ==> Reported(videoID, run, artifacts)
  {
    hide AfterSettling, ObjectPath, ObjectStore.AfterArchive, Reported, Announces, MarkDone, LRem, Notification.Tells;
    jobErr, artifacts, payload := None, Artifacts("", "", "", "", ""), None;
    var input := store.DownloadVideo(Raw, videoID, run.stat, run.read);
    if input.None? {
      jobErr := Some("failed to download video: " + run.error);
      return;
    }
    var result, failed := Pipeline.ProcessVideo(TEMP, run.steps);
    if failed {
      jobErr := Some("failed to process video: " + run.error);
      return;
    }
    jobErr, artifacts, payload := Deliver(queue, store, result, videoID, run);
  }

  /** The processed video is stored, its source archived, and the job published. */
  method Deliver(queue: QueueClient, store: ObjectStore.VideoStore, result: Pipeline.ProcessingResult, videoID: ID,
      run: Run)
    returns (jobErr: Option<string>, artifacts: Artifacts, payload: Option<Notification.Payload>)
    requires result.Artifacts() == Pipeline.Produced(TEMP, run.steps) && result.metadata == run.steps.analyze
    modifies queue, store
    ensures jobErr == if !run.put then Some("failed to upload video: " + run.error)
      else if !run.publish then Some("failed to publish success message: " + run.error) else None
    ensures store.objects == if !run.put then old(store.objects)
      else ObjectStore.AfterArchive(old(store.objects)[VideoPath(videoID) := run.output], videoID, run.copy, run.remove)
    ensures queue.Value() ==
      if jobErr.None? then Finished(old(queue.Value()), videoID, artifacts, run.steps.analyze, run)
      else old(queue.Value())
    ensures payload.Some? <==> jobErr.None? && run.hookGet && CallsBack(queue.jobs, videoID)
    ensures payload.Some? ==> Notification.Tells(payload.value, videoID, queue.jobs[videoID])
    ensures payload.Some? && run.doneSet ==> Announces(payload.value, videoID, run)
    ensures jobErr.None? ==> Reported(videoID, run, artifacts)
  {
    hide AfterSettling, ObjectPath, ObjectStore.AfterArchive, Reported, Announces, MarkDone, LRem, Pipeline.Produced;
    hide Notification.Tells;
    jobErr, artifacts, payload := None, Artifacts("", "", "", "", ""), None;
    var processedID := videoID + "_processed";
    var uploaded := store.UploadVideo(run.output, Processed, processedID, run.put);
    if !uploaded {
      jobErr := Some("failed to upload video: " + run.error);
      return;
    }
    var archived := store.ArchiveRawVideo(videoID, run.copy, run.remove);
    queue.PublishSuccessMessage(processedID, run.publish);
    if !run.publish {
      jobErr := Some("failed to publish success message: " + run.error);
      return;
    }
    artifacts := Notification.BuildJobArtifacts(videoID, processedID, result);
    ArtifactsReported(result.Artifacts(), videoID, run, artifacts);
    payload := Report(queue, videoID, artifacts, result.metadata, run);
    if payload.Some? && run.doneSet {
      ReportedIsAnnounced(payload.value, videoID, run, artifacts, queue.jobs[videoID]);
    }
  }

  /** The final record, and the webhook if the record names one. */
  method Report(queue: QueueClient, videoID: ID, artifacts: Artifacts, metadata: Option<Metadata>, run: Run)
    returns (payload: Option<Notification.Payload>)
    modifies queue
    ensures queue.Value() ==
      if run.doneSet
      then old(queue.Value()).Put(videoID, MarkDone(Found(old(queue.Value()), videoID, run.doneGet), run.now,
          artifacts, metadata), run.now)
      else old(queue.Value())
    ensures payload.Some? <==> run.hookGet && CallsBack(queue.jobs, videoID)
    ensures payload.Some? ==> Notification.Tells(payload.value, videoID, queue.jobs[videoID])
    ensures run.doneSet ==>
      && videoID in queue.jobs && queue.jobs[videoID].status == Done
      && queue.jobs[videoID].artifacts == Some(artifacts) && queue.jobs[videoID].metadata == metadata
  {
    hide MarkDone, Seconds, Notification.Tells;
    payload := None;
    queue.SetJobDone(videoID, artifacts, metadata, run.now, run.doneGet, run.doneSet);
    var state := queue.GetJobState(videoID, run.hookGet);
    if state.Some? && state.value.callbackURL != "" {
      var p := Notification.NotifyWebhook(videoID, state.value);
      payload := Some(p);
    }
  }

  /* ---- what one call amounts to ---- */

  /** The retry count the attempt's failure will be written with. */
  function FailedCount(r: Redis, id: ID, run: Run): nat {
    MarkFailed(Found(AfterClaim(r, id, run), id, run.settle.failGet), run.now, run.error).retryCount
  }

  /** Whether the job's failure is recorded with retries to spare. */
  predicate Retries(r: Redis, id: ID, run: Run) {
    run.settle.failSet && FailedCount(r, id, run) <= MAX_JOB_RETRIES
  }

  /** A write or push needed to hand a failed job on is refused. */
  predicate Refused(r: Redis, id: ID, run: Run) {
    if Retries(r, id, run) then !run.settle.requeuePush || (run.settle.requeueGet && !run.settle.requeueSet)
    else !run.settle.bury
  }

  lemma TakenAndRemoved(r: Redis, id: ID)
    requires r.main != [] && r.main[|r.main| - 1] == id
    ensures LRem(r.Take().processing, id) == r.processing
  {
    assert ([id] + r.processing)[1..] == r.processing;
  }

  /** The list, if any, that has gained the job. */
  datatype Place = Finished_ | Main | Dead | Nowhere

  predicate Gained(r: Redis, t: Redis, id: ID, place: Place)
    requires r.main != []
  {
    && t.main == (if place.Main? then [id] else []) + r.main[..|r.main| - 1]
    && t.dead == (if place.Dead? then [id] else []) + r.dead
    && t.finished == (if place.Finished_? then [ProcessedId(id)] else []) + r.finished
  }

  lemma SettlesOn(r: Redis, id: ID, error: string, a: Replies, now: nat)
    ensures var t := AfterSettling(r, id, Some(error), a, now);
      var failed := MarkFailed(Found(r, id, a.failGet), now, error);
      var retry := a.failSet && failed.retryCount <= MAX_JOB_RETRIES;
      var refused := if retry then !a.requeuePush || (a.requeueGet && !a.requeueSet) else !a.bury;
      && t.main == (if retry && !refused then [id] else []) + r.main
      && t.dead == (if !retry && !refused then [id] else []) + r.dead
      && t.finished == r.finished
      && t.processing == if a.ack then LRem(r.processing, id) else r.processing
  {
    hide LRem, Stamp;
  }

  lemma ClaimedLists(r: Redis, id: ID, run: Run)
    ensures var c := AfterClaim(r, id, run);
      c.main == r.main && c.processing == r.processing && c.dead == r.dead && c.finished == r.finished
  {
    hide MarkProcessing, Stamp;
  }

  lemma FinishedLists(r: Redis, id: ID, artifacts: Artifacts, metadata: Option<Metadata>, run: Run)
    ensures var f := Finished(r, id, artifacts, metadata, run);
      && f.main == r.main && f.processing == r.processing && f.dead == r.dead
      && f.finished == [ProcessedId(id)] + r.finished
  {
    hide MarkDone, Stamp;
  }

  lemma SettlesDone(r: Redis, id: ID, a: Replies, now: nat)
    ensures var t := AfterSettling(r, id, None, a, now);
      && t.main == r.main && t.dead == r.dead && t.finished == r.finished
      && t.processing == if a.ack then LRem(r.processing, id) else r.processing
  {
    hide LRem;
  }

  /** An undisturbed call takes one job off the main list and puts it into exactly one of finished,
      main and dead, unless the write or push it needs there is refused; if its acknowledgement gets
      through, :processing is exactly what it was. */
  lemma OneMove(r: Redis, failure: Option<string>, artifacts: Artifacts, run: Run)
    requires r.main != []
    ensures var id := r.main[|r.main| - 1];
      var t := RedisAfter(r.Take(), id, failure, artifacts, run);
      && (run.settle.ack ==> t.processing == r.processing)
      && Gained(r, t, id,
           if failure.None? then Finished_
           else if Refused(r.Take(), id, run) then Nowhere
           else if Retries(r.Take(), id, run) then Main else Dead)
  {
    hide LRem, AfterClaim, Finished, AfterSettling, MarkFailed, Found;
    var id := r.main[|r.main| - 1];
    TakenAndRemoved(r, id);
    var claimed := AfterClaim(r.Take(), id, run);
    ClaimedLists(r.Take(), id, run);
    if failure.Some? {
      SettlesOn(claimed, id, failure.value, run.settle, run.now);
      CountWithoutReason(claimed, id, failure.value, run);
    } else {
      FinishedLists(claimed, id, artifacts, run.steps.analyze, run);
      SettlesDone(Finished(claimed, id, artifacts, run.steps.analyze, run), id, run.settle, run.now);
    }
  }

  /** The count does not depend on what has failed. */
  lemma CountWithoutReason(r: Redis, id: ID, error: string, run: Run)
    ensures var found := Found(r, id, run.settle.failGet);
      MarkFailed(found, run.now, error).retryCount == MarkFailed(found, run.now, run.error).retryCount
  {
  }

  /** Whatever fails, the source's bytes are still in raw/ or raw-archived/, and once they have left
      raw/ the processed video is there. */
  lemma SourceSurvives(objects: ObjectStore.Objects, max: nat, id: ID, run: Run)
    requires ObjectStore.RawPath(id) in objects
    ensures var q := ObjectsAfter(objects, max, id, run);
      var raw, archived := ObjectStore.RawPath(id), ObjectStore.ArchivedPath(id);
      && ((raw in q && q[raw] == objects[raw]) || (archived in q && q[archived] == objects[raw]))
      && (raw !in q ==> VideoPath(id) in q && q[VideoPath(id)] == run.output)
  {
    hide ObjectPath;
    var video := Object(Processed, ProcessedId(id));
    ObjectStore.Distinct(video, Object(Raw, id));
    ObjectStore.Distinct(video, Object(RawArchived, id));
    ObjectStore.ArchiveKeepsBytes(objects[VideoPath(id) := run.output], id, run.copy, run.remove, video);
  }

  /** A published job's processed video is in the bucket, as the transcoder left it ... */
  lemma PublishedIsStored(objects: ObjectStore.Objects, max: nat, id: ID, run: Run)
    requires Failure(objects, max, id, run).None?
    ensures var q := ObjectsAfter(objects, max, id, run);
      VideoPath(id) in q && q[VideoPath(id)] == run.output
  {
    hide ObjectPath;
    var video := Object(Processed, ProcessedId(id));
    ObjectStore.Distinct(video, Object(Raw, id));
    ObjectStore.Distinct(video, Object(RawArchived, id));
  }

  /** The path that the record and the webhook announce is where the video is, and an archived source
      is at its archive key, byte for byte. */
  lemma AnnouncedIsStored(objects: ObjectStore.Objects, max: nat, id: ID, run: Run, artifacts: Artifacts)
    requires Failure(objects, max, id, run).None? && Reported(id, run, artifacts)
    ensures var q := ObjectsAfter(objects, max, id, run);
      && artifacts.video in q && q[artifacts.video] == run.output
      && "raw/" + id in objects
      && (run.copy ==> "raw-archived/" + id in q && q["raw-archived/" + id] == objects["raw/" + id])
      && (run.copy && run.remove <==> "raw/" + id !in q)
  {
    PublishedIsStored(objects, max, id, run);
    PathsOf(id);
    hide ObjectPath, VideoPath, ObjectStore.RawPath, ObjectStore.ArchivedPath;
    KeysApart(id);
  }

  lemma PathsOf(id: ID)
    ensures VideoPath(id) == "processed/" + id + "_processed"
    ensures ObjectStore.RawPath(id) == "raw/" + id && ObjectStore.ArchivedPath(id) == "raw-archived/" + id
  {
    assert "processed" + "/" + (id + "_processed") == "processed/" + id + "_processed";
  }

  lemma KeysApart(id: ID)
    ensures VideoPath(id) != ObjectStore.RawPath(id) && VideoPath(id) != ObjectStore.ArchivedPath(id)
    ensures ObjectStore.RawPath(id) != ObjectStore.ArchivedPath(id)
  {
    hide ObjectPath;
    var video := Object(Processed, ProcessedId(id));
    ObjectStore.Distinct(video, Object(Raw, id));
    ObjectStore.Distinct(video, Object(RawArchived, id));
    ObjectStore.Distinct(Object(Raw, id), Object(RawArchived, id));
  }

  /** ... and cannot be published again: once a call has archived the source, every later one fails,
      until the source is uploaded anew. */
  lemma ArchivedCannotPublish(objects: ObjectStore.Objects, max: nat, id: ID, run: Run, again: Run)
    requires Uploaded(objects, max, id, run) && run.copy && run.remove
    ensures Failure(ObjectsAfter(objects, max, id, run), max, id, again) ==
            Some("failed to download video: " + again.error)
  {
    hide ObjectPath;
    ObjectStore.Distinct(Object(RawArchived, id), Object(Raw, id));
  }
}
