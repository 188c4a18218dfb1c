/** An attempt of the step machine, run without interleaving from its first command to its last, does
    what ProcessNextMessage does. */
module WholeAttempt {
  import opened Jobs
  import opened RedisStore
  import opened ObjectKeys
  import opened Protocol
  import opened Projection
  import opened Undisturbed
  import Queue
  import ObjectStore
  import Worker

  /** The machine and the client agree on both stores, and attempt `i` is at `pc`. */
  ghost predicate Agree(s: State, r: Redis, objects: ObjectStore.Objects, now: nat, i: nat, id: ID, pc: Pc) {
    s.redis == r && s.now == now && ObjectStore.Holds(s, objects) && On(s, i, id, pc)
  }

  /** What an attempt's next command depends on. */
  function SightOf(r: Redis, objects: ObjectStore.Objects, id: ID): View {
    View(0, 0, 0, 0, r.Find(id), ObjectStore.RawOf(objects, id), None, None, NOTHING)
  }

  /** One command on the client's two stores, and where the attempt goes next. */
  function Next(r: Redis, objects: ObjectStore.Objects, now: nat, id: ID, pc: Pc, ok: bool, note: Note)
    : (Redis, ObjectStore.Objects, Pc)
  {
    var (c, a) := NextAttempt(SightOf(r, objects, id), Attempt(id, pc, None), ok, note, now);
    (RedisAfter(r, id, c, now), ObjectStore.BucketAfter(objects, id, c), a.pc)
  }

  lemma SameSight(x: View, y: View, a: Attempt, ok: bool, note: Note, now: nat)
    requires x.job == y.job && x.raw == y.raw
    ensures NextAttempt(x, a, ok, note, now) == NextAttempt(y, a, ok, note, now)
  {
    hide MarkProcessing, MarkDone, MarkFailed, MarkRequeued;
  }

  lemma WhenWrittenSettling(x: View, a: Attempt, ok: bool, note: Note, now: nat)
    requires Undisturbed.Failing(a.pc) || Finishing(a.pc)
    ensures var (c, b), (d, e) := NextAttempt(x, a, ok, note, now), NextAttempt(x, a.(wrote := None), ok, note, now);
      c == d && b.pc == e.pc
  {
    hide MarkDone, MarkFailed, MarkRequeued, Fetch;
  }

  lemma WhenWrittenBefore(x: View, a: Attempt, ok: bool, note: Note, now: nat)
    requires !Undisturbed.Failing(a.pc) && !Finishing(a.pc)
    ensures var (c, b), (d, e) := NextAttempt(x, a, ok, note, now), NextAttempt(x, a.(wrote := None), ok, note, now);
      c == d && b.pc == e.pc
  {
    hide MarkProcessing, Fetch;
  }

  lemma WhenWritten(x: View, a: Attempt, ok: bool, note: Note, now: nat)
    ensures var (c, b), (d, e) := NextAttempt(x, a, ok, note, now), NextAttempt(x, a.(wrote := None), ok, note, now);
      c == d && b.pc == e.pc
  {
    hide *;
    if Undisturbed.Failing(a.pc) || Finishing(a.pc) {
      WhenWrittenSettling(x, a, ok, note, now);
    } else {
      WhenWrittenBefore(x, a, ok, note, now);
    }
  }

  lemma NextOnRedis(r: Redis, objects: ObjectStore.Objects, now: nat, id: ID, pc: Pc, ok: bool, note: Note)
    requires Undisturbed.Failing(pc) || Finishing(pc)
    ensures var (r', pc') := OnRedis(r, id, pc, ok, note, now);
      Next(r, objects, now, id, pc, ok, note) == (r', objects, pc')
  {
    hide NextAttempt, RedisAfter, OnRedis, ObjectStore.RawOf;
    var x, a := SightOf(r, objects, id), Attempt(id, pc, None);
    if Undisturbed.Failing(pc) {
      FailingOnRedis(x, r, a, ok, note, now);
    } else {
      FinishingOnRedis(x, r, a, ok, note, now);
    }
  }

  lemma FinishRuns(s: State, r: Redis, objects: ObjectStore.Objects, now: nat, i: nat, id: ID, pc: Pc, ok: bool,
      note: Note)
    requires Agree(s, r, objects, now, i, id, pc) && Finishing(pc)
    ensures var (r', pc') := OnRedis(r, id, pc, ok, note, now);
      Agree(Apply(s, Step(i, ok, note)), r', objects, now, i, id, pc')
  {
    hide Apply, Agree, Next, OnRedis;
    StepRuns(s, r, objects, now, i, id, pc, ok, note);
    NextOnRedis(r, objects, now, id, pc, ok, note);
  }

  /** A step of the machine does what the command does to the stores. */
  lemma StepRuns(s: State, r: Redis, objects: ObjectStore.Objects, now: nat, i: nat, id: ID, pc: Pc, ok: bool,
      note: Note)
    requires Agree(s, r, objects, now, i, id, pc) && pc != Ended
    ensures var (r', objects', pc') := Next(r, objects, now, id, pc, ok, note);
      Agree(Apply(s, Step(i, ok, note)), r', objects', now, i, id, pc')
  {
    hide NextAttempt, RedisAfter, ObjectsAfter, TallyAfter, TallyOf, ObjectPath, ObjectStore.Holds;
    hide ObjectStore.BucketAfter;
    hide ObjectStore.RawOf;
    var a, x := s.attempts[i], ViewOf(s, id);
    var c := NextAttempt(x, a, ok, note, now).0;
    ObjectStore.HoldsRaw(s, objects, id);
    SameSight(x, SightOf(r, objects, id), a, ok, note, now);
    WhenWritten(SightOf(r, objects, id), a, ok, note, now);
    NextAttemptKeeps(x, a, ok, note, now);
    ObjectStore.BucketHolds(s, Apply(s, Step(i, ok, note)), objects, id, c);
  }

  /* ---- after the outcome is known ---- */

  predicate Settling(pc: Pc) {
    pc == FailGet || pc.FailSet? || pc == RequeueGet || pc.RequeueSet? || pc == RequeuePush || pc.Bury? ||
        pc.Ack? || pc == Ended
  }

  lemma SettlingStep(x: View, a: Attempt, ok: bool, note: Note, now: nat)
    requires Settling(a.pc)
    ensures var (c, a') := NextAttempt(x, a, ok, note, now);
      Settling(a'.pc) && !c.PutProcessed? && !c.CopyRaw? && !c.DropRaw?
  {
  }

  lemma SettlingLeavesBucket(s: State, i: nat, ok: bool, note: Note)
    requires i < |s.attempts| && Settling(s.attempts[i].pc)
    ensures var t := Apply(s, Step(i, ok, note));
      t.objects == s.objects && i < |t.attempts| && Settling(t.attempts[i].pc)
  {
    hide NextAttempt, ViewOf, RedisAfter, TallyAfter, TallyOf;
    SettlingStep(ViewOf(s, s.attempts[i].id), s.attempts[i], ok, note, s.now);
  }

  lemma {:induction false} SettlesOutsideBucket(s: State, es: seq<Event>, i: nat)
    requires i < |s.attempts| && Settling(s.attempts[i].pc)
    requires forall k :: 0 <= k < |es| ==> es[k].Step? && es[k].attempt == i
    ensures Exec(s, es).objects == s.objects
    decreases |es|
  {
    hide Apply, Settling;
    if |es| > 0 {
      SettlingLeavesBucket(s, i, es[0].ok, es[0].note);
      assert es[0] == Step(i, es[0].ok, es[0].note);
      SettlesOutsideBucket(Apply(s, es[0]), es[1..], i);
    }
  }

  predicate OwnSteps(es: seq<Event>, i: nat) {
    forall k :: 0 <= k < |es| ==> es[k].Step? && es[k].attempt == i
  }

  lemma OwnCons(i: nat, ok: bool, note: Note, es: seq<Event>)
    requires OwnSteps(es, i)
    ensures OwnSteps([Step(i, ok, note)] + es, i)
  {
  }

  lemma OneOwnStep(i: nat, ok: bool, note: Note)
    ensures OwnSteps([Step(i, ok, note)], i)
  {
  }

  lemma FailureSteps(r: Redis, i: nat, id: ID, a: Queue.Replies, note: Note, now: nat)
    ensures OwnSteps(FailureEvents(r, i, id, a, note, now), i)
  {
    hide MarkFailed;
    var failed := MarkFailed(Queue.Found(r, id, a.failGet), now, note.error);
    hide Queue.Found, Stamp;
    assert OwnSteps(RequeueEvents(r.Put(id, failed, now), i, id, a, note), i);
  }

  lemma Fails(s: State, r: Redis, objects: ObjectStore.Objects, i: nat, id: ID, error: string, a: Queue.Replies)
    returns (es: seq<Event>)
    requires Agree(s, r, objects, s.now, i, id, FailGet)
    ensures Agree(Exec(s, es), Queue.AfterSettling(r, id, Some(error), a, s.now), objects, s.now, i, id, Ended)
    ensures OwnSteps(es, i)
  {
    hide Apply, Exec, Queue.AfterSettling, ObjectPath, FailureEvents;
    var note := Note(error, "", Artifacts("", "", "", "", ""), None);
    es := FailureEvents(r, i, id, a, note, s.now);
    FailureRuns(s, i, id, a, note);
    FailureSteps(r, i, id, a, note, s.now);
    SettlesOutsideBucket(s, es, i);
  }

  /* ---- putting them together ---- */

  /** From the second record update to the acknowledgement. */
  lemma Succeeds(s: State, r: Redis, objects: ObjectStore.Objects, i: nat, id: ID, artifacts: Artifacts,
      run: Worker.Run)
    returns (es: seq<Event>)
    requires Agree(s, r, objects, run.now, i, id, DoneGet)
    ensures var done := if run.doneSet
        then r.Put(id, MarkDone(Queue.Found(r, id, run.doneGet), run.now, artifacts, run.steps.analyze),
            run.now) else r;
      Agree(Exec(s, es), Queue.AfterSettling(done, id, None, run.settle, run.now), objects, run.now, i, id, Ended)
    ensures OwnSteps(es, i)
  {
    hide Apply, Exec, MarkDone, Stamp, Agree, OwnSteps, Next;
    var note := Note("", "", artifacts, run.steps.analyze);
    var get, set_, hook, ack :=
      Step(i, run.doneGet, note), Step(i, run.doneSet, note), Step(i, run.hookGet, note), Step(i, run.settle.ack, note);
    var s1 := Apply(s, get);
    var s2 := Apply(s1, set_);
    var s3 := Apply(s2, hook);
    var job := MarkDone(Queue.Found(r, id, run.doneGet), run.now, artifacts, run.steps.analyze);
    var done := if run.doneSet then r.Put(id, job, run.now) else r;
    FinishRuns(s, r, objects, run.now, i, id, DoneGet, run.doneGet, note);
    FinishRuns(s1, r, objects, run.now, i, id, DoneSet(job), run.doneSet, note);
    FinishRuns(s2, done, objects, run.now, i, id, HookGet, run.hookGet, note);
    FinishRuns(s3, done, objects, run.now, i, id, Ack(AfterSuccess), run.settle.ack, note);
    es := [get] + ([set_] + ([hook] + [ack]));
    OneOwnStep(i, run.settle.ack, note);
    OwnCons(i, run.hookGet, note, [ack]);
    OwnCons(i, run.doneSet, note, [hook] + [ack]);
    OwnCons(i, run.doneGet, note, [set_] + ([hook] + [ack]));
    ExecCons(s, get, [set_] + ([hook] + [ack]));
    ExecCons(s1, set_, [hook] + [ack]);
    ExecCons(s2, hook, [ack]);
    ExecOne(s3, ack);
  }

  /** The archive steps do to the bucket what ArchiveRawVideo does, and nothing to Redis. */
  lemma Archives(s: State, r: Redis, objects: ObjectStore.Objects, i: nat, id: ID, run: Worker.Run)
    returns (es: seq<Event>)
    requires Agree(s, r, objects, run.now, i, id, Copy)
    ensures Agree(Exec(s, es), r, ObjectStore.AfterArchive(objects, id, run.copy, run.remove), run.now, i, id,
        UploadArtifacts)
    ensures OwnSteps(es, i)
  {
    hide Exec, Apply, ObjectPath, Agree;
    var note := Note("", "", Artifacts("", "", "", "", ""), None);
    var copy, remove := Step(i, run.copy, note), Step(i, run.remove, note);
    var copied := ObjectStore.BucketAfter(objects, id, CopyRaw);
    var s1 := Apply(s, copy);
    StepRuns(s, r, objects, run.now, i, id, Copy, run.copy, note);
    if run.copy && ObjectStore.RawPath(id) in objects {
      es := [copy] + [remove];
      StepRuns(s1, r, copied, run.now, i, id, Drop, run.remove, note);
      ExecCons(s, copy, [remove]);
      ExecOne(s1, remove);
    } else {
      es := [copy];
      ExecOne(s, copy);
    }
  }

  /** From publishing on. */
  lemma PublishPart(s: State, r: Redis, objects: ObjectStore.Objects, i: nat, id: ID, artifacts: Artifacts,
      run: Worker.Run)
    returns (es: seq<Event>)
    requires Agree(s, r, objects, run.now, i, id, UploadArtifacts)
    ensures var failure := if run.publish then None else Some("failed to publish success message: " + run.error);
      Agree(Exec(s, es), Worker.AfterOutcome(r, id, failure, artifacts, run), objects, run.now, i, id, Ended)
    ensures OwnSteps(es, i)
  {
    hide Apply, Exec, Agree, Queue.AfterSettling, Stamp, MarkDone;
    var note := Note("", "", artifacts, None);
    var upload, publish := Step(i, true, note), Step(i, run.publish, note);
    var s1 := Apply(s, upload);
    var s2 := Apply(s1, publish);
    FinishRuns(s, r, objects, run.now, i, id, UploadArtifacts, true, note);
    FinishRuns(s1, r, objects, run.now, i, id, Publish, run.publish, note);
    var rest: seq<Event>;
    if run.publish {
      rest := Succeeds(s2, r.PushFinished(ProcessedId(id)), objects, i, id, artifacts, run);
    } else {
      AgreeNow(s2, r, objects, run.now, i, id, FailGet);
      rest := Fails(s2, r, objects, i, id, "failed to publish success message: " + run.error, run.settle);
    }
    es := [upload] + ([publish] + rest);
    ExecCons(s, upload, [publish] + rest);
    ExecCons(s1, publish, rest);
  }

  lemma Agreed(s: State, r: Redis, objects: ObjectStore.Objects, now: nat, i: nat, id: ID, pc: Pc)
    requires Agree(s, r, objects, now, i, id, pc)
    ensures s.redis == r && ObjectStore.Holds(s, objects) && On(s, i, id, pc)
  {
  }

  lemma AgreeNow(s: State, r: Redis, objects: ObjectStore.Objects, now: nat, i: nat, id: ID, pc: Pc)
    requires Agree(s, r, objects, now, i, id, pc)
    ensures s.now == now
  {
  }

  /** From transcoding on, for a downloaded source. */
  lemma StorePart(s: State, r: Redis, objects: ObjectStore.Objects, max: nat, i: nat, id: ID, artifacts: Artifacts,
      run: Worker.Run)
    returns (es: seq<Event>)
    requires Agree(s, r, objects, run.now, i, id, Process) && Worker.Downloaded(objects, max, id, run)
    ensures var failure := Worker.Failure(objects, max, id, run);
      Agree(Exec(s, es), Worker.AfterOutcome(r, id, failure, artifacts, run), Worker.ObjectsAfter(objects, max, id,
          run),
            run.now, i, id, Ended)
    ensures OwnSteps(es, i)
  {
    hide Apply, Exec, Agree, Queue.AfterSettling, Worker.Downloaded, Worker.Transcoded, Worker.Finished,
         ObjectStore.AfterArchive, ObjectPath;
    var note := Note("", run.output, artifacts, None);
    var process, put := Step(i, Worker.Transcoded(run), note), Step(i, run.put, note);
    var s1 := Apply(s, process);
    StepRuns(s, r, objects, run.now, i, id, Process, Worker.Transcoded(run), note);
    if !Worker.Transcoded(run) {
      AgreeNow(s1, r, objects, run.now, i, id, FailGet);
      var rest := Fails(s1, r, objects, i, id, "failed to process video: " + run.error, run.settle);
      es := [process] + rest;
      ExecCons(s, process, rest);
    } else {
      var s2 := Apply(s1, put);
      StepRuns(s1, r, objects, run.now, i, id, Upload, run.put, note);
      ghost var rest: seq<Event>;
      if !run.put {
        AgreeNow(s2, r, objects, run.now, i, id, FailGet);
        rest := Fails(s2, r, objects, i, id, "failed to upload video: " + run.error, run.settle);
      } else {
        rest := ArchivePart(s2, r, objects[Worker.VideoPath(id) := run.output], i, id, artifacts, run);
      }
      es := [process] + ([put] + rest);
      ExecCons(s, process, [put] + rest);
      ExecCons(s1, put, rest);
    }
  }

  lemma ArchivePart(s: State, r: Redis, objects: ObjectStore.Objects, i: nat, id: ID, artifacts: Artifacts,
      run: Worker.Run)
    returns (es: seq<Event>)
    requires Agree(s, r, objects, run.now, i, id, Copy)
    ensures var failure := if run.publish then None else Some("failed to publish success message: " + run.error);
      Agree(Exec(s, es), Worker.AfterOutcome(r, id, failure, artifacts, run),
            ObjectStore.AfterArchive(objects, id, run.copy, run.remove), run.now, i, id, Ended)
    ensures OwnSteps(es, i)
  {
    hide Apply, Exec, Agree, Worker.AfterOutcome, ObjectStore.AfterArchive;
    var archive := Archives(s, r, objects, i, id, run);
    var rest := PublishPart(Exec(s, archive), r, ObjectStore.AfterArchive(objects, id, run.copy, run.remove),
                            i, id, artifacts, run);
    es := archive + rest;
    ExecSplit(s, archive, rest);
  }

  /** From the download on; the size limit is part of whether the first request counts as good. */
  lemma DownloadPart(s: State, r: Redis, objects: ObjectStore.Objects, max: nat, i: nat, id: ID,
      artifacts: Artifacts, run: Worker.Run)
    returns (es: seq<Event>)
    requires Agree(s, r, objects, run.now, i, id, Stat)
    ensures var failure := Worker.Failure(objects, max, id, run);
      Agree(Exec(s, es), Worker.AfterOutcome(r, id, failure, artifacts, run), Worker.ObjectsAfter(objects, max, id,
          run),
            run.now, i, id, Ended)
    ensures OwnSteps(es, i)
  {
    hide Apply, Exec, Agree, Queue.AfterSettling, Worker.Transcoded, Worker.Finished, ObjectStore.AfterArchive,
         Worker.VideoPath, ObjectPath;
    var note := Note("", "", artifacts, None);
    var raw := ObjectStore.RawPath(id);
    var fits := run.stat && raw in objects && |objects[raw]| <= max;
    var stat, read := Step(i, fits, note), Step(i, run.read, note);
    var s1 := Apply(s, stat);
    StepRuns(s, r, objects, run.now, i, id, Stat, fits, note);
    ghost var rest: seq<Event>;
    if !fits {
      AgreeNow(s1, r, objects, run.now, i, id, FailGet);
      rest := Fails(s1, r, objects, i, id, "failed to download video: " + run.error, run.settle);
    } else {
      var s2 := Apply(s1, read);
      StepRuns(s1, r, objects, run.now, i, id, Read, run.read, note);
      ghost var last: seq<Event>;
      if run.read {
        last := StorePart(s2, r, objects, max, i, id, artifacts, run);
      } else {
        AgreeNow(s2, r, objects, run.now, i, id, FailGet);
        last := Fails(s2, r, objects, i, id, "failed to download video: " + run.error, run.settle);
      }
      rest := [read] + last;
      ExecCons(s1, read, last);
    }
    es := [stat] + rest;
    ExecCons(s, stat, rest);
  }

  /** Taken from the main list by this very attempt. */
  lemma Consumes(s: State, objects: ObjectStore.Objects)
    requires ObjectStore.Holds(s, objects) && s.redis.main != []
    ensures Agree(Apply(s, Consume), s.redis.Take(), objects, s.now, |s.attempts|,
        s.redis.main[|s.redis.main| - 1], ProcGet)
  {
    hide ObjectPath, TallyOf, RunningOn;
  }

  /** For every outcome of every command there is a run of the machine, from consuming to
      acknowledging, that leaves in both stores exactly what ProcessNextMessage leaves. */
  lemma AttemptRuns(s: State, objects: ObjectStore.Objects, max: nat, artifacts: Artifacts, run: Worker.Run)
    returns (es: seq<Event>)
    requires ObjectStore.Holds(s, objects) && s.redis.main != [] && run.now == s.now
    ensures var id := s.redis.main[|s.redis.main| - 1];
      var t := Exec(s, [Consume] + es);
      && OwnSteps(es, |s.attempts|)
      && t.redis == Worker.RedisAfter(s.redis.Take(), id, Worker.Failure(objects, max, id, run), artifacts, run)
      && ObjectStore.Holds(t, Worker.ObjectsAfter(objects, max, id, run))
      && On(t, |s.attempts|, id, Ended)
  {
    hide Apply, Exec, Worker.AfterOutcome, MarkProcessing, Stamp, OwnSteps, Agree, ObjectStore.Holds, On, Redis.Take;
    hide Worker.Failure, Worker.ObjectsAfter;
    var i, id, r := |s.attempts|, s.redis.main[|s.redis.main| - 1], s.redis.Take();
    var note := Note("", "", artifacts, None);
    var get, set_ := Step(i, run.procGet, note), Step(i, run.procSet, note);
    var s1 := Apply(s, Consume);
    var s2 := Apply(s1, get);
    var s3 := Apply(s2, set_);
    var job := MarkProcessing(Queue.Found(r, id, run.procGet), run.now);
    Consumes(s, objects);
    StepRuns(s1, r, objects, run.now, i, id, ProcGet, run.procGet, note);
    StepRuns(s2, r, objects, run.now, i, id, ProcSet(job), run.procSet, note);
    var rest := DownloadPart(s3, Worker.AfterClaim(r, id, run), objects, max, i, id, artifacts, run);
    es := [get] + ([set_] + rest);
    OwnCons(i, run.procSet, note, rest);
    OwnCons(i, run.procGet, note, [set_] + rest);
    Agreed(Exec(s3, rest), Worker.RedisAfter(r, id, Worker.Failure(objects, max, id, run), artifacts, run),
           Worker.ObjectsAfter(objects, max, id, run), run.now, i, id, Ended);
    ExecCons(s, Consume, es);
    ExecCons(s1, get, [set_] + rest);
    ExecCons(s2, set_, rest);
  }
}
