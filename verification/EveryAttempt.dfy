/** The converse of WholeAttempt: whatever an attempt that runs without interleaving meets, it leaves
    what some call of ProcessNextMessage leaves. */
module EveryAttempt {
  import opened Jobs
  import opened RedisStore
  import opened ObjectKeys
  import opened Protocol
  import opened Projection
  import opened Undisturbed
  import opened WholeAttempt
  import Queue
  import ObjectStore
  import Worker
  import Pipeline

  /** A sequence of an attempt's own steps on the client's two stores; steps after its end do nothing. */
  function Follow(r: Redis, objects: ObjectStore.Objects, now: nat, id: ID, pc: Pc, es: seq<Event>)
    : (Redis, ObjectStore.Objects, Pc)
    requires forall k :: 0 <= k < |es| ==> es[k].Step?
    decreases |es|
  {
    if |es| == 0 || pc == Ended then (r, objects, pc)
    else
      var (r', objects', pc') := Next(r, objects, now, id, pc, es[0].ok, es[0].note);
      Follow(r', objects', now, id, pc', es[1..])
  }

  lemma {:induction false} FollowRuns(s: State, r: Redis, objects: ObjectStore.Objects, now: nat, i: nat, id: ID,
      pc: Pc,
                                      es: seq<Event>)
    requires Agree(s, r, objects, now, i, id, pc) && OwnSteps(es, i)
    ensures var (r', objects', pc') := Follow(r, objects, now, id, pc, es);
      Agree(Exec(s, es), r', objects', now, i, id, pc')
    decreases |es|
  {
    hide Apply, Agree, Next;
    if |es| > 0 {
      assert es[0] == Step(i, es[0].ok, es[0].note);
      if pc == Ended {
        EndedStays(s, r, objects, now, i, id, es[0].ok, es[0].note);
        FollowRuns(Apply(s, es[0]), r, objects, now, i, id, pc, es[1..]);
      } else {
        StepRuns(s, r, objects, now, i, id, pc, es[0].ok, es[0].note);
        var (r', objects', pc') := Next(r, objects, now, id, pc, es[0].ok, es[0].note);
        FollowRuns(Apply(s, es[0]), r', objects', now, i, id, pc', es[1..]);
      }
    }
  }

  lemma EndedStays(s: State, r: Redis, objects: ObjectStore.Objects, now: nat, i: nat, id: ID, ok: bool, note: Note)
    requires Agree(s, r, objects, now, i, id, Ended)
    ensures Agree(Apply(s, Step(i, ok, note)), r, objects, now, i, id, Ended)
  {
    assert Apply(s, Step(i, ok, note)) == s;
  }

  predicate OnlySteps(es: seq<Event>) {
    forall k :: 0 <= k < |es| ==> es[k].Step?
  }

  /** The attempt is at its end after these steps. */
  predicate Ends(r: Redis, objects: ObjectStore.Objects, now: nat, id: ID, pc: Pc, es: seq<Event>) {
    OnlySteps(es) && Follow(r, objects, now, id, pc, es).2 == Ended
  }

  /** What it has then left in the two stores. */
  function Left(r: Redis, objects: ObjectStore.Objects, now: nat, id: ID, pc: Pc, es: seq<Event>)
    : (Redis, ObjectStore.Objects)
    requires OnlySteps(es)
  {
    var (r', objects', _) := Follow(r, objects, now, id, pc, es);
    (r', objects')
  }

  lemma Peel(r: Redis, objects: ObjectStore.Objects, now: nat, id: ID, pc: Pc, es: seq<Event>)
    requires Ends(r, objects, now, id, pc, es) && pc != Ended
    ensures |es| > 0 && es[0].Step?
    ensures var (r', objects', pc') := Next(r, objects, now, id, pc, es[0].ok, es[0].note);
      && Ends(r', objects', now, id, pc', es[1..])
      && Left(r, objects, now, id, pc, es) == Left(r', objects', now, id, pc', es[1..])
  {
    hide Next;
  }

  /** The same for commands that only concern Redis. */
  lemma PeelRedis(r: Redis, objects: ObjectStore.Objects, now: nat, id: ID, pc: Pc, es: seq<Event>)
    requires Ends(r, objects, now, id, pc, es) && (Undisturbed.Failing(pc) || Finishing(pc))
    ensures |es| > 0 && es[0].Step?
    ensures var (r', pc') := OnRedis(r, id, pc, es[0].ok, es[0].note, now);
      && Ends(r', objects, now, id, pc', es[1..])
      && Left(r, objects, now, id, pc, es) == Left(r', objects, now, id, pc', es[1..])
  {
    hide Next, OnRedis, Ends, Left;
    Peel(r, objects, now, id, pc, es);
    NextOnRedis(r, objects, now, id, pc, es[0].ok, es[0].note);
  }

  lemma EndedLeaves(r: Redis, objects: ObjectStore.Objects, now: nat, id: ID, es: seq<Event>)
    requires OnlySteps(es)
    ensures Left(r, objects, now, id, Ended, es) == (r, objects)
  {
  }

  /* ---- a failed attempt, from its end backwards ---- */

  lemma FromAck(r: Redis, objects: ObjectStore.Objects, now: nat, id: ID, why: Settled, es: seq<Event>)
    returns (ack: bool)
    requires Ends(r, objects, now, id, Ack(why), es)
    ensures Left(r, objects, now, id, Ack(why), es) == (if ack then r.Remove(id) else r, objects)
  {
    hide Ends, Left, Redis.Remove;
    PeelRedis(r, objects, now, id, Ack(why), es);
    ack := es[0].ok;
    assert OnlySteps(es[1..]) by { EndsAreSteps(if ack then r.Remove(id) else r, objects, now, id, Ended, es[1..]); }
    EndedLeaves(if ack then r.Remove(id) else r, objects, now, id, es[1..]);
  }

  lemma EndsAreSteps(r: Redis, objects: ObjectStore.Objects, now: nat, id: ID, pc: Pc, es: seq<Event>)
    requires Ends(r, objects, now, id, pc, es)
    ensures OnlySteps(es)
  {
  }

  lemma FromPush(r: Redis, objects: ObjectStore.Objects, now: nat, id: ID, es: seq<Event>) returns (a: Queue.Replies)
    requires Ends(r, objects, now, id, RequeuePush, es)
    ensures Left(r, objects, now, id, RequeuePush, es) ==
            (Acked(if a.requeuePush then r.PushMain(id) else r, id, a), objects)
  {
    hide Ends, Left, Redis.Remove, Redis.PushMain;
    PeelRedis(r, objects, now, id, RequeuePush, es);
    var push := es[0].ok;
    var why := if push then Settled.AfterRequeue else Settled.AfterLoss;
    var ack := FromAck(if push then r.PushMain(id) else r, objects, now, id, why, es[1..]);
    a := Queue.GOOD.(requeuePush := push, ack := ack);
  }

  lemma FromRequeueSet(r: Redis, objects: ObjectStore.Objects, now: nat, id: ID, job: Job, es: seq<Event>)
    returns (a: Queue.Replies)
    requires Ends(r, objects, now, id, RequeueSet(job), es)
    ensures Left(r, objects, now, id, RequeueSet(job), es) ==
            (Acked(if !a.requeueSet then r
                   else if a.requeuePush then r.Put(id, job, now).PushMain(id)
                       else r.Put(id, job, now), id, a), objects)
  {
    hide Ends, Left, Redis.Remove, Redis.PushMain, Redis.Put;
    PeelRedis(r, objects, now, id, RequeueSet(job), es);
    if es[0].ok {
      a := FromPush(r.Put(id, job, now), objects, now, id, es[1..]);
      a := a.(requeueSet := true);
    } else {
      var ack := FromAck(r, objects, now, id, Settled.AfterLoss, es[1..]);
      a := Queue.GOOD.(requeueSet := false, ack := ack);
    }
  }

  lemma FromRequeueGet(r: Redis, objects: ObjectStore.Objects, now: nat, id: ID, es: seq<Event>)
    returns (a: Queue.Replies)
    requires Ends(r, objects, now, id, RequeueGet, es)
    ensures Left(r, objects, now, id, RequeueGet, es) ==
            (Acked(Queue.AfterRequeueJob(r, id, a, now), id, a), objects)
  {
    hide Ends, Left, Redis.Remove, Redis.PushMain, Redis.Put, MarkRequeued, Queue.Found;
    PeelRedis(r, objects, now, id, RequeueGet, es);
    var found := Queue.Found(r, id, es[0].ok);
    if found.Some? {
      a := FromRequeueSet(r, objects, now, id, MarkRequeued(found.value), es[1..]);
    } else {
      a := FromPush(r, objects, now, id, es[1..]);
    }
    a := a.(requeueGet := es[0].ok);
  }

  lemma FromBury(r: Redis, objects: ObjectStore.Objects, now: nat, id: ID, failed: Option<Job>, es: seq<Event>)
    returns (a: Queue.Replies)
    requires Ends(r, objects, now, id, Bury(failed), es)
    ensures Left(r, objects, now, id, Bury(failed), es) ==
            (Acked(if a.bury then r.PushDead(id) else r, id, a), objects)
  {
    hide Ends, Left, Redis.Remove, Redis.PushDead;
    PeelRedis(r, objects, now, id, Bury(failed), es);
    var bury := es[0].ok;
    var why := if bury then Settled.AfterDeath else Settled.AfterLoss;
    var ack := FromAck(if bury then r.PushDead(id) else r, objects, now, id, why, es[1..]);
    a := Queue.GOOD.(bury := bury, ack := ack);
  }

  lemma FromFailSet(r: Redis, objects: ObjectStore.Objects, now: nat, id: ID, failed: Job, es: seq<Event>)
    returns (a: Queue.Replies)
    requires Ends(r, objects, now, id, FailSet(failed), es)
    ensures var written := if a.failSet then r.Put(id, failed, now) else r;
      Left(r, objects, now, id, FailSet(failed), es) ==
      (if Retried(failed, a) then Acked(Queue.AfterRequeueJob(written, id, a, now), id, a)
       else Acked(if a.bury then written.PushDead(id) else written, id, a), objects)
  {
    hide Ends, Left, Redis.PushDead, Redis.Put, Acked, Queue.AfterRequeueJob;
    PeelRedis(r, objects, now, id, FailSet(failed), es);
    if !es[0].ok {
      a := FromBury(r, objects, now, id, None, es[1..]);
    } else if failed.retryCount <= MAX_JOB_RETRIES {
      a := FromRequeueGet(r.Put(id, failed, now), objects, now, id, es[1..]);
    } else {
      a := FromBury(r.Put(id, failed, now), objects, now, id, Some(failed), es[1..]);
    }
    var ok := es[0].ok;
    SameReplies(r.Put(id, failed, now), id, a, a.(failSet := ok), now);
    a := a.(failSet := ok);
  }

  /** Whether the failure was written plays no part in what comes after. */
  lemma SameReplies(r: Redis, id: ID, a: Queue.Replies, b: Queue.Replies, now: nat)
    requires b == a.(failSet := b.failSet, failGet := b.failGet)
    ensures Queue.AfterRequeueJob(r, id, a, now) == Queue.AfterRequeueJob(r, id, b, now)
    ensures forall q: Redis :: Acked(q, id, a) == Acked(q, id, b)
  {
    hide MarkRequeued, Redis.Put, Redis.PushMain, Redis.Remove;
  }

  lemma FromFailGet(r: Redis, objects: ObjectStore.Objects, now: nat, id: ID, es: seq<Event>)
    returns (a: Queue.Replies, error: string)
    requires Ends(r, objects, now, id, FailGet, es)
    ensures Left(r, objects, now, id, FailGet, es) == (Queue.AfterSettling(r, id, Some(error), a, now), objects)
  {
    hide Ends, Left, Redis.PushDead, Redis.Put, Redis.Remove, Queue.AfterRequeueJob, MarkFailed, Queue.Found;
    PeelRedis(r, objects, now, id, FailGet, es);
    error := es[0].note.error;
    var get := es[0].ok;
    var failed := MarkFailed(Queue.Found(r, id, get), now, error);
    var b := FromFailSet(r, objects, now, id, failed, es[1..]);
    a := b.(failGet := get);
    SameReplies(if a.failSet then r.Put(id, failed, now) else r, id, b, a, now);
  }

  /* ---- the rest of an attempt, from its end backwards ---- */

  const RUN := Worker.Run(
    0, true, true, true, true, true, Pipeline.Outcomes(true, true, None, true, true, true, true, true), "",
    true, true, true, true, true, true, true, "", Queue.GOOD)

  /** Only these parts of a run matter once its outcome is known. */
  lemma SameOutcome(r: Redis, id: ID, failure: Option<string>, artifacts: Artifacts, a: Worker.Run, b: Worker.Run)
    requires a.now == b.now && a.settle == b.settle && a.steps.analyze == b.steps.analyze
    requires a.doneGet == b.doneGet && a.doneSet == b.doneSet
    ensures Worker.AfterOutcome(r, id, failure, artifacts, a) == Worker.AfterOutcome(r, id, failure, artifacts, b)
  {
    hide Queue.AfterSettling, MarkDone, Queue.Found, Redis.Put, Redis.PushFinished;
  }

  lemma FromFailure(r: Redis, objects: ObjectStore.Objects, now: nat, id: ID, es: seq<Event>)
    returns (run: Worker.Run, failure: Option<string>)
    requires Ends(r, objects, now, id, FailGet, es)
    ensures run.now == now && failure.Some?
    ensures forall artifacts ::
      Left(r, objects, now, id, FailGet, es) == (Worker.AfterOutcome(r, id, failure, artifacts, run), objects)
  {
    hide Ends, Left, Queue.AfterSettling, Worker.Finished;
    var a, error := FromFailGet(r, objects, now, id, es);
    run := RUN.(now := now, settle := a);
    failure := Some(error);
  }

  lemma FromDoneGet(r: Redis, objects: ObjectStore.Objects, now: nat, id: ID, es: seq<Event>)
    returns (run: Worker.Run, artifacts: Artifacts)
    requires Ends(r, objects, now, id, DoneGet, es)
    ensures run.now == now
    ensures var job := MarkDone(Queue.Found(r, id, run.doneGet), now, artifacts, run.steps.analyze);
      var done := if run.doneSet then r.Put(id, job, now) else r;
      Left(r, objects, now, id, DoneGet, es) == (if run.settle.ack then done.Remove(id) else done, objects)
  {
    hide Ends, Left, Redis.Put, Redis.Remove, MarkDone, Queue.Found;
    PeelRedis(r, objects, now, id, DoneGet, es);
    artifacts := es[0].note.artifacts;
    var job := MarkDone(Queue.Found(r, id, es[0].ok), now, artifacts, es[0].note.metadata);
    PeelRedis(r, objects, now, id, DoneSet(job), es[1..]);
    var done := if es[1..][0].ok then r.Put(id, job, now) else r;
    PeelRedis(done, objects, now, id, HookGet, es[1..][1..]);
    var ack := FromAck(done, objects, now, id, Settled.AfterSuccess, es[1..][1..][1..]);
    run := RUN.(now := now, doneGet := es[0].ok, doneSet := es[1..][0].ok, settle := Queue.GOOD.(ack := ack),
                steps := RUN.steps.(analyze := es[0].note.metadata));
  }

  lemma SuccessOutcome(r: Redis, id: ID, artifacts: Artifacts, run: Worker.Run)
    ensures var published := r.PushFinished(ProcessedId(id));
      var job := MarkDone(Queue.Found(published, id, run.doneGet), run.now, artifacts, run.steps.analyze);
      var done := if run.doneSet then published.Put(id, job, run.now) else published;
      Worker.AfterOutcome(r, id, None, artifacts, run) == if run.settle.ack then done.Remove(id) else done
  {
    hide MarkDone, Redis.Put, Redis.Remove;
  }

  lemma FromUploadArtifacts(r: Redis, objects: ObjectStore.Objects, now: nat, id: ID, es: seq<Event>)
    returns (run: Worker.Run, artifacts: Artifacts, failure: Option<string>)
    requires Ends(r, objects, now, id, UploadArtifacts, es)
    ensures run.now == now && (failure.None? <==> run.publish)
    ensures Left(r, objects, now, id, UploadArtifacts, es) ==
            (Worker.AfterOutcome(r, id, failure, artifacts, run), objects)
  {
    hide Ends, Left, MarkDone, Queue.Found, Redis.PushFinished, Redis.Put, Redis.Remove, Worker.AfterOutcome;
    PeelRedis(r, objects, now, id, UploadArtifacts, es);
    PeelRedis(r, objects, now, id, Publish, es[1..]);
    var rest := es[1..][1..];
    if es[1..][0].ok {
      run, artifacts := FromDoneGet(r.PushFinished(ProcessedId(id)), objects, now, id, rest);
      failure := None;
      SuccessOutcome(r, id, artifacts, run);
      SameOutcome(r, id, failure, artifacts, run, run.(publish := true));
      run := run.(publish := true);
    } else {
      artifacts := NOTHING_MADE;
      run, failure := FromFailure(r, objects, now, id, rest);
      SameOutcome(r, id, failure, artifacts, run, run.(publish := false));
      run := run.(publish := false);
    }
  }

  const NOTHING_MADE := Artifacts("", "", "", "", "")

  lemma FromCopy(r: Redis, objects: ObjectStore.Objects, now: nat, id: ID, es: seq<Event>)
    returns (run: Worker.Run, artifacts: Artifacts, failure: Option<string>)
    requires Ends(r, objects, now, id, Copy, es)
    ensures run.now == now && (failure.None? <==> run.publish)
    ensures Left(r, objects, now, id, Copy, es) ==
            (Worker.AfterOutcome(r, id, failure, artifacts, run), ObjectStore.AfterArchive(objects, id, run.copy,
                run.remove))
  {
    hide Ends, Left, Worker.AfterOutcome, ObjectPath;
    Peel(r, objects, now, id, Copy, es);
    var copy, remove := es[0].ok, false;
    if copy && ObjectStore.RawPath(id) in objects {
      var copied := ObjectStore.BucketAfter(objects, id, CopyRaw);
      Peel(r, copied, now, id, Drop, es[1..]);
      remove := es[1..][0].ok;
      var archived := ObjectStore.AfterArchive(objects, id, true, remove);
      run, artifacts, failure := FromUploadArtifacts(r, archived, now, id, es[1..][1..]);
    } else {
      run, artifacts, failure := FromUploadArtifacts(r, objects, now, id, es[1..]);
    }
    SameOutcome(r, id, failure, artifacts, run, run.(copy := copy, remove := remove));
    run := run.(copy := copy, remove := remove);
  }

  lemma FromUpload(r: Redis, objects: ObjectStore.Objects, now: nat, id: ID, es: seq<Event>)
    returns (run: Worker.Run, artifacts: Artifacts, failure: Option<string>)
    requires Ends(r, objects, now, id, Upload, es)
    ensures run.now == now && (failure.None? <==> run.put && run.publish)
    ensures var objects' := if !run.put then objects
        else ObjectStore.AfterArchive(objects[Worker.VideoPath(id) := run.output], id, run.copy, run.remove);
      Left(r, objects, now, id, Upload, es) == (Worker.AfterOutcome(r, id, failure, artifacts, run), objects')
  {
    hide Ends, Left, Worker.AfterOutcome, ObjectPath, ObjectStore.AfterArchive;
    Peel(r, objects, now, id, Upload, es);
    var put, output := es[0].ok, es[0].note.output;
    if put {
      run, artifacts, failure := FromCopy(r, objects[Worker.VideoPath(id) := output], now, id, es[1..]);
    } else {
      artifacts := NOTHING_MADE;
      run, failure := FromFailure(r, objects, now, id, es[1..]);
    }
    SameOutcome(r, id, failure, artifacts, run, run.(put := put, output := output));
    run := run.(put := put, output := output);
  }

  lemma FromProcess(r: Redis, objects: ObjectStore.Objects, now: nat, id: ID, es: seq<Event>)
    returns (run: Worker.Run, artifacts: Artifacts, failure: Option<string>)
    requires Ends(r, objects, now, id, Process, es)
    ensures run.now == now && (failure.None? <==> Worker.Transcoded(run) && run.put && run.publish)
    ensures var objects' := if !(Worker.Transcoded(run) && run.put) then objects
        else ObjectStore.AfterArchive(objects[Worker.VideoPath(id) := run.output], id, run.copy, run.remove);
      Left(r, objects, now, id, Process, es) == (Worker.AfterOutcome(r, id, failure, artifacts, run), objects')
  {
    hide Ends, Left, Worker.AfterOutcome, ObjectPath, ObjectStore.AfterArchive, Worker.VideoPath;
    Peel(r, objects, now, id, Process, es);
    var ok := es[0].ok;
    if ok {
      run, artifacts, failure := FromUpload(r, objects, now, id, es[1..]);
    } else {
      artifacts := NOTHING_MADE;
      run, failure := FromFailure(r, objects, now, id, es[1..]);
    }
    var steps := run.steps.(mkdir := true, validate := true, transcode := ok);
    SameOutcome(r, id, failure, artifacts, run, run.(steps := steps));
    run := run.(steps := steps);
  }

  /** The size limit is part of whether the first request of a download counts as good. */
  predicate WithinLimit(objects: ObjectStore.Objects, max: nat, id: ID) {
    ObjectStore.RawPath(id) in objects ==> |objects[ObjectStore.RawPath(id)]| <= max
  }

  lemma FromStat(r: Redis, objects: ObjectStore.Objects, max: nat, now: nat, id: ID, es: seq<Event>)
    returns (run: Worker.Run, artifacts: Artifacts, failure: Option<string>)
    requires Ends(r, objects, now, id, Stat, es) && WithinLimit(objects, max, id)
    ensures run.now == now && (failure.None? <==> Worker.Failure(objects, max, id, run).None?)
    ensures Left(r, objects, now, id, Stat, es) ==
            (Worker.AfterOutcome(r, id, failure, artifacts, run), Worker.ObjectsAfter(objects, max, id, run))
  {
    hide Ends, Left, Worker.AfterOutcome, ObjectPath, ObjectStore.AfterArchive, Worker.VideoPath, Worker.Transcoded;
    Peel(r, objects, now, id, Stat, es);
    var stat, read := es[0].ok, false;
    var there := ObjectStore.RawPath(id) in objects;
    if stat && there {
      Peel(r, objects, now, id, Read, es[1..]);
      read := es[1..][0].ok;
      if read {
        run, artifacts, failure := FromProcess(r, objects, now, id, es[1..][1..]);
      } else {
        artifacts := NOTHING_MADE;
        run, failure := FromFailure(r, objects, now, id, es[1..][1..]);
      }
    } else {
      artifacts := NOTHING_MADE;
      run, failure := FromFailure(r, objects, now, id, es[1..]);
    }
    SameOutcome(r, id, failure, artifacts, run, run.(stat := stat, read := read));
    SameTranscoding(run, run.(stat := stat, read := read));
    run := run.(stat := stat, read := read);
  }

  lemma SameTranscoding(a: Worker.Run, b: Worker.Run)
    requires a.steps == b.steps
    ensures Worker.Transcoded(a) == Worker.Transcoded(b)
  {
  }

  /** The claim plays no part in what is downloaded, made and stored. */
  lemma SameWork(objects: ObjectStore.Objects, max: nat, id: ID, a: Worker.Run, b: Worker.Run)
    requires b == a.(procGet := b.procGet, procSet := b.procSet)
    ensures Worker.Failure(objects, max, id, a) == Worker.Failure(objects, max, id, b)
    ensures Worker.ObjectsAfter(objects, max, id, a) == Worker.ObjectsAfter(objects, max, id, b)
  {
    hide ObjectPath, ObjectStore.AfterArchive;
  }

  lemma ClaimCommands(r: Redis, objects: ObjectStore.Objects, now: nat, id: ID, ok: bool, note: Note, job: Job)
    ensures Next(r, objects, now, id, ProcGet, ok, note) ==
            (r, objects, ProcSet(MarkProcessing(Queue.Found(r, id, ok), now)))
    ensures Next(r, objects, now, id, ProcSet(job), ok, note) ==
            (if ok then r.Put(id, job, now) else r, objects, Stat)
  {
    hide MarkProcessing, Redis.Put, ObjectStore.RawOf;
  }

  lemma FromProcGet(r: Redis, objects: ObjectStore.Objects, max: nat, now: nat, id: ID, es: seq<Event>)
    returns (run: Worker.Run, artifacts: Artifacts, failure: Option<string>)
    requires Ends(r, objects, now, id, ProcGet, es) && WithinLimit(objects, max, id)
    ensures run.now == now && (failure.None? <==> Worker.Failure(objects, max, id, run).None?)
    ensures Left(r, objects, now, id, ProcGet, es) ==
            (Worker.RedisAfter(r, id, failure, artifacts, run), Worker.ObjectsAfter(objects, max, id, run))
  {
    hide Ends, Left, Worker.AfterOutcome, Worker.ObjectsAfter, Worker.Failure, MarkProcessing, WithinLimit, Next;
    hide Redis.Put;
    hide Queue.Found;
    Peel(r, objects, now, id, ProcGet, es);
    var procGet := es[0].ok;
    var job := MarkProcessing(Queue.Found(r, id, procGet), now);
    ClaimCommands(r, objects, now, id, procGet, es[0].note, job);
    Peel(r, objects, now, id, ProcSet(job), es[1..]);
    var procSet := es[1..][0].ok;
    ClaimCommands(r, objects, now, id, procSet, es[1..][0].note, job);
    var claimed := if procSet then r.Put(id, job, now) else r;
    run, artifacts, failure := FromStat(claimed, objects, max, now, id, es[1..][1..]);
    SameOutcome(claimed, id, failure, artifacts, run, run.(procGet := procGet, procSet := procSet));
    SameWork(objects, max, id, run, run.(procGet := procGet, procSet := procSet));
    run := run.(procGet := procGet, procSet := procSet);
  }

  /** Every attempt that consumes and then runs to its end without interleaving, whatever its commands
      answer, leaves in both stores what ProcessNextMessage leaves for some answers; only the wording
      of its error is its own.  The size limit is one that the source keeps. */
  lemma EveryAttemptIsACall(s: State, objects: ObjectStore.Objects, max: nat, es: seq<Event>)
    returns (run: Worker.Run, artifacts: Artifacts, failure: Option<string>)
    requires ObjectStore.Holds(s, objects) && s.redis.main != []
    requires WithinLimit(objects, max, s.redis.main[|s.redis.main| - 1])
    requires OwnSteps(es, |s.attempts|)
    requires On(Exec(s, [Consume] + es), |s.attempts|, s.redis.main[|s.redis.main| - 1], Ended)
    ensures var id := s.redis.main[|s.redis.main| - 1];
      var t := Exec(s, [Consume] + es);
      && run.now == s.now
      && (failure.None? <==> Worker.Failure(objects, max, id, run).None?)
      && t.redis == Worker.RedisAfter(s.redis.Take(), id, failure, artifacts, run)
      && ObjectStore.Holds(t, Worker.ObjectsAfter(objects, max, id, run))
  {
    hide Apply, Exec, Agree, Follow, Redis.Take, ObjectStore.Holds, On, Worker.RedisAfter, Worker.ObjectsAfter;
    hide WithinLimit;
    hide Worker.Failure;
    var i, id, r := |s.attempts|, s.redis.main[|s.redis.main| - 1], s.redis.Take();
    Consumes(s, objects);
    ExecCons(s, Consume, es);
    FollowRuns(Apply(s, Consume), r, objects, s.now, i, id, ProcGet, es);
    var (r', objects', pc') := Follow(r, objects, s.now, id, ProcGet, es);
    Agreed(Exec(s, [Consume] + es), r', objects', s.now, i, id, pc');
    OnlyOnePc(Exec(s, [Consume] + es), i, id, pc');
    run, artifacts, failure := FromProcGet(r, objects, max, s.now, id, es);
  }

  lemma OnlyOnePc(s: State, i: nat, id: ID, pc: Pc)
    requires On(s, i, id, pc) && On(s, i, id, Ended)
    ensures pc == Ended
  {
  }
}
