/** A finished job declared dead: one crash between its publication and its last record update is
    enough, with everything else going well. */
module DeadAfterDone {
  import opened Jobs
  import opened RedisLists
  import opened RedisStore
  import opened ObjectKeys
  import opened Protocol
  import opened Projection
  import opened Witnesses
  import Queue
  import Undisturbed
  import WholeAttempt

  /** No crash, no fault, no expiry, no second submission and no second upload. */
  predicate Uneventful(e: Event) {
    && !e.Crash? && !e.Expire? && !e.LoopDies? && !e.UploadRaw?
    && !e.PublishSet? && !e.PublishPush? && !e.PushBare?
    && (e.Step? ==> e.ok) && (e.Sweep? ==> e.ok)
  }

  predicate AllUneventful(es: seq<Event>) {
    forall e <- es :: Uneventful(e)
  }

  predicate NoTicks(es: seq<Event>) {
    forall e <- es :: !e.Tick?
  }

  predicate NoSource(s: State, id: ID) {
    ViewOf(s, id).raw.None?
  }

  lemma StaysGoneOnce(s: State, e: Event, id: ID)
    requires NoSource(s, id) && !e.UploadRaw?
    ensures NoSource(Apply(s, e), id)
  {
    hide Apply, ViewOf, NextAttempt, NextLoop, TallyAfter, RunningOn;
    Projects(s, e, id);
  }

  lemma {:induction false} StaysGone(s: State, es: seq<Event>, id: ID)
    requires NoSource(s, id) && forall e <- es :: !e.UploadRaw?
    ensures NoSource(Exec(s, es), id)
    decreases |es|
  {
    hide Apply, NoSource;
    if |es| > 0 {
      StaysGoneOnce(s, es[0], id);
      StaysGone(Apply(s, es[0]), es[1..], id);
    }
  }

  /* ---- the attempt that succeeds ---- */

  predicate Working(pc: Pc) {
    pc == Stat || pc == Read || pc == Process || pc == Upload || pc == Copy || pc == Drop
  }

  /** Up to its publication an attempt leaves the lists and the record as it claimed them. */
  lemma KeepsWork(s: State, i: nat, id: ID, k: nat, pc: Pc)
    requires AtWork(s, id, k) && Undisturbed.On(s, i, id, pc) && Working(pc)
    ensures var t := Apply(s, Step(i, true, NOTE));
      && AtWork(t, id, k) && t.redis == s.redis && t.loops == s.loops
      && |t.attempts| == |s.attempts|
  {
    hide Apply, ViewOf, Seconds;
    Undisturbed.Stepped(s, i, true, NOTE);
    Moves(s, Step(i, true, NOTE));
  }

  predicate Succession(pc: Pc, next: Pc) {
    (pc == Stat && next == Read) || (pc == Read && next == Process) || (pc == Process && next == Upload) ||
    (pc == Upload && next == Copy) || (pc == Copy && next == Drop)
  }

  /** An attempt with its source at hand, everything else being as it was in `s`. */
  predicate Onward(s: State, t: State, i: nat, id: ID, pc: Pc, source: Content) {
    AtWork(t, id, 0) && SourceAt(t, i, id, pc, Some(source)) && t.redis == s.redis && t.loops == s.loops
  }

  lemma GoesOn(s: State, t: State, i: nat, id: ID, pc: Pc, next: Pc, source: Content)
    requires Onward(s, t, i, id, pc, source) && Succession(pc, next)
    ensures Onward(s, Apply(t, Step(i, true, NOTE)), i, id, next, source)
  {
    hide Apply, ViewOf, AtWork;
    Views(t, i, id, pc);
    KeepsWork(t, i, id, 0, pc);
  }

  lemma Begins(s: State, i: nat, id: ID, source: Content)
    requires AtWork(s, id, 0) && Undisturbed.On(s, i, id, Stat)
    ensures Onward(s, Apply(s, UploadRaw(id, source)), i, id, Stat, source)
  {
    hide ViewOf, RemovingOn, Seconds;
    var e := UploadRaw(id, source);
    assert Apply(s, e).redis == s.redis && Apply(s, e).now == s.now;
    hide Apply;
    SourceUploaded(s, i, id, Stat, source);
    Moves(s, e);
  }

  lemma Archived(s: State, t: State, i: nat, id: ID, source: Content)
    requires Onward(s, t, i, id, Drop, source)
    ensures var u := Apply(t, Step(i, true, NOTE));
      && AtWork(u, id, 0) && u.redis == s.redis && u.loops == s.loops
      && Undisturbed.On(u, i, id, UploadArtifacts) && NoSource(u, id)
  {
    hide Apply, ViewOf, AtWork;
    Views(t, i, id, Drop);
    KeepsWork(t, i, id, 0, Drop);
  }

  /** From the claim to the archived source, after the six steps that follow the upload. */
  lemma Processes(s: State, i: nat, id: ID, source: Content) returns (es: seq<Event>)
    requires AtWork(s, id, 0) && Undisturbed.On(s, i, id, Stat)
    ensures var t := Exec(s, [UploadRaw(id, source)] + es);
      && AtWork(t, id, 0) && t.redis == s.redis && t.loops == s.loops
      && Undisturbed.On(t, i, id, UploadArtifacts) && NoSource(t, id)
    ensures AllUneventful(es)
  {
    hide Apply, Exec, Onward, AtWork, NoSource;
    var first, step := UploadRaw(id, source), Step(i, true, NOTE);
    var s1 := Apply(s, first);
    var s2 := Apply(s1, step);
    var s3 := Apply(s2, step);
    var s4 := Apply(s3, step);
    var s5 := Apply(s4, step);
    var s6 := Apply(s5, step);
    Begins(s, i, id, source);
    GoesOn(s, s1, i, id, Stat, Read, source);
    GoesOn(s, s2, i, id, Read, Process, source);
    GoesOn(s, s3, i, id, Process, Upload, source);
    GoesOn(s, s4, i, id, Upload, Copy, source);
    GoesOn(s, s5, i, id, Copy, Drop, source);
    Archived(s, s6, i, id, source);
    es := [step] + ([step] + ([step] + ([step] + ([step] + [step]))));
    Undisturbed.ExecCons(s, first, es);
    Undisturbed.ExecCons(s1, step, [step] + ([step] + ([step] + ([step] + [step]))));
    Undisturbed.ExecCons(s2, step, [step] + ([step] + ([step] + [step])));
    Undisturbed.ExecCons(s3, step, [step] + ([step] + [step]));
    Undisturbed.ExecCons(s4, step, [step] + [step]);
    Undisturbed.ExecCons(s5, step, [step]);
    Undisturbed.ExecOne(s6, step);
  }

  /** The publication, and then the crash. */
  lemma PublishesAndDies(s: State, i: nat, id: ID)
    requires AtWork(s, id, 0) && s.loops == [Waiting] && |s.redis.finished| == 0
    requires Undisturbed.On(s, i, id, UploadArtifacts) && NoSource(s, id)
    ensures var step := Step(i, true, NOTE);
      var t := Exec(s, [step] + ([step] + [Crash(i)]));
      && AtWork(t, id, 0) && t.loops == [Waiting] && NoSource(t, id)
      && t.redis.finished == [ProcessedId(id)]
  {
    hide Apply, Exec, ViewOf, Seconds;
    var step := Step(i, true, NOTE);
    var s1 := Apply(s, step);
    var s2 := Apply(s1, step);
    Undisturbed.StepsOnRedis(s, i, id, UploadArtifacts, true, NOTE);
    Undisturbed.StepsOnRedis(s1, i, id, Publish, true, NOTE);
    Moves(s, step);
    Moves(s1, step);
    Dies(s2, id, 0, i);
    StaysGone(s, [step] + ([step] + [Crash(i)]), id);
    Undisturbed.ExecCons(s, step, [step] + [Crash(i)]);
    Undisturbed.ExecCons(s1, step, [Crash(i)]);
    Undisturbed.ExecOne(s2, Crash(i));
  }

  /* ---- the attempts that fail ---- */

  lemma NothingToDownload(s: State, i: nat, id: ID, k: nat)
    requires AtWork(s, id, k) && Undisturbed.On(s, i, id, Stat) && NoSource(s, id)
    ensures var t := Apply(s, Step(i, true, NOTE));
      AtWork(t, id, k) && t.redis == s.redis && Undisturbed.On(t, i, id, FailGet) && NoSource(t, id)
  {
    hide Apply, ViewOf, AtWork;
    Views(s, i, id, Stat);
    KeepsWork(s, i, id, k, Stat);
  }

  /** Taken again, an archived job gets no further than its download. */
  lemma Disappointed(s: State, id: ID, k: nat)
    requires OnMain(s, id, k) && NoSource(s, id)
    ensures var i := |s.attempts|;
      var es := ClaimEvents(i) + [Step(i, true, NOTE)];
      var t := Exec(s, es);
      && AtWork(t, id, k) && t.redis.finished == s.redis.finished
      && Undisturbed.On(t, i, id, FailGet) && NoSource(t, id) && AllUneventful(es) && NoTicks(es)
  {
    hide Apply, Exec, OnMain, AtWork, NoSource;
    var i := |s.attempts|;
    var step := Step(i, true, NOTE);
    var t := Exec(s, ClaimEvents(i));
    Claims(s, id, k);
    StaysGone(s, ClaimEvents(i), id);
    NothingToDownload(t, i, id, k);
    ExecSplit(s, ClaimEvents(i), [step]);
    Undisturbed.ExecOne(t, step);
  }

  lemma GoodSteps(r: Redis, i: nat, id: ID, note: Note, now: nat)
    ensures var es := Undisturbed.FailureEvents(r, i, id, Queue.GOOD, note, now);
      AllUneventful(es) && NoTicks(es)
  {
    hide MarkFailed, Queue.Found, Stamp;
  }

  lemma FailsAgain(s: State, id: ID, k: nat) returns (es: seq<Event>)
    requires OnMain(s, id, k) && NoSource(s, id) && k < 3
    ensures var t := Exec(s, es);
      OnMain(t, id, k + 1) && NoSource(t, id) && t.redis.finished == s.redis.finished
    ensures AllUneventful(es) && NoTicks(es)
  {
    hide Apply, Exec, OnMain, NoSource, Undisturbed.FailureEvents, Seconds;
    var i := |s.attempts|;
    var claim := ClaimEvents(i) + [Step(i, true, NOTE)];
    var s1 := Exec(s, claim);
    Disappointed(s, id, k);
    var fail := Undisturbed.FailureEvents(s1.redis, i, id, Queue.GOOD, NOTE, s1.now);
    Undisturbed.FailureRuns(s1, i, id, Queue.GOOD, NOTE);
    GoodSteps(s1.redis, i, id, NOTE, s1.now);
    StaysGone(s1, fail, id);
    BackOnMain(s1, Exec(s1, fail), id, k);
    es := claim + fail;
    ExecSplit(s, claim, fail);
  }

  lemma BackOnMain(s: State, t: State, id: ID, k: nat)
    requires AtWork(s, id, k) && k < 3
    requires t.redis == Queue.AfterSettling(s.redis, id, Some(NOTE.error), Queue.GOOD, s.now)
    ensures OnMain(t, id, k + 1) && t.redis.finished == s.redis.finished
  {
    hide Seconds, Queue.AfterSettling;
    Queue.RetriesGoBack(s.redis, id, NOTE.error, s.now);
    Queue.SettlesElsewhere(s.redis, id, Some(NOTE.error), Queue.GOOD, s.now);
    assert LRem([id], id) == [];
  }

  /** The commands of an attempt that fails for the last time. */
  lemma LastCommands(x: View, a: Attempt, now: nat)
    ensures a.pc == FailGet ==>
      NextAttempt(x, a, true, NOTE, now) == (Nothing, a.(pc := FailSet(MarkFailed(x.job, now, NOTE.error))))
    ensures a.pc.FailSet? && a.pc.job.retryCount > MAX_JOB_RETRIES ==>
      NextAttempt(x, a, true, NOTE, now) == (Write(a.pc.job), a.(pc := Bury(Some(a.pc.job))))
    ensures a.pc.Bury? && a.pc.failed.Some? && a.pc.failed.value.callbackURL != "" ==>
      NextAttempt(x, a, true, NOTE, now) ==
          (Entomb(Some(a.pc.failed.value.retryCount), true), a.(pc := Ack(AfterDeath)))
    ensures a.pc.Ack? ==> NextAttempt(x, a, true, NOTE, now) == (Unlist, a.(pc := Ended))
  {
    hide MarkFailed;
  }

  lemma BuriedView(x: View, failed: Job, now: nat)
    requires x.main == 0 && x.processing == 1 && x.dead == 0 && failed.status == Failed
    ensures var count := failed.retryCount;
      var y := PerformView(PerformView(PerformView(PerformView(x, Nothing, now), Write(failed), now),
                                       Entomb(Some(count), true), now), Unlist, now);
      && y.main == 0 && y.processing == 0 && y.dead == 1 && y.finished == x.finished
      && y.job.Some? && y.job.value.status == Failed && false in y.log.hooks
  {
    hide Seconds;
  }

  lemma AtWorkView(s: State, id: ID, k: nat)
    requires AtWork(s, id, k)
    ensures var x := ViewOf(s, id);
      && x.main == 0 && x.processing == 1 && x.dead == 0
      && x.job.Some? && x.job.value.retryCount == k && x.job.value.callbackURL == CALLBACK
  {
  }

  /** The attempt that uses up the retries. */
  lemma Buries(s: State, i: nat, id: ID)
    requires AtWork(s, id, 3) && Undisturbed.On(s, i, id, FailGet)
    ensures var step := Step(i, true, NOTE);
      var x, y := ViewOf(s, id), ViewOf(Exec(s, [step] + ([step] + ([step] + [step]))), id);
      && y.main == 0 && y.processing == 0 && y.dead == 1 && y.finished == x.finished
      && y.job.Some? && y.job.value.status == Failed && false in y.log.hooks
  {
    hide Apply, Exec, ViewOf, AtWork, NextAttempt, PerformView;
    var step := Step(i, true, NOTE);
    var s1 := Apply(s, step);
    var s2 := Apply(s1, step);
    var s3 := Apply(s2, step);
    var x := ViewOf(s, id);
    var failed := MarkFailed(x.job, s.now, NOTE.error);
    AtWorkView(s, id, 3);
    Moves(s, step);
    Moves(s1, step);
    Moves(s2, step);
    LastCommands(x, s.attempts[i], s.now);
    Views(s, i, id, FailGet);
    LastCommands(ViewOf(s1, id), s1.attempts[i], s1.now);
    Views(s1, i, id, FailSet(failed));
    LastCommands(ViewOf(s2, id), s2.attempts[i], s2.now);
    Views(s2, i, id, Bury(Some(failed)));
    LastCommands(ViewOf(s3, id), s3.attempts[i], s3.now);
    Views(s3, i, id, Ack(AfterDeath));
    BuriedView(x, failed, s.now);
    Undisturbed.ExecCons(s, step, [step] + ([step] + [step]));
    Undisturbed.ExecCons(s1, step, [step] + [step]);
    Undisturbed.ExecCons(s2, step, [step]);
    Undisturbed.ExecOne(s3, step);
  }

  lemma FailsForGood(s: State, id: ID) returns (es: seq<Event>)
    requires OnMain(s, id, 3) && NoSource(s, id)
    ensures var y := ViewOf(Exec(s, es), id);
      && y.main == 0 && y.processing == 0 && y.dead == 1 && y.finished == ViewOf(s, id).finished
      && y.job.Some? && y.job.value.status == Failed && false in y.log.hooks
    ensures AllUneventful(es) && NoTicks(es)
  {
    hide Apply, Exec, OnMain, AtWork, NoSource, ViewOf;
    var i := |s.attempts|;
    var step := Step(i, true, NOTE);
    var claim := ClaimEvents(i) + [step];
    var s1 := Exec(s, claim);
    Disappointed(s, id, 3);
    FinishedSame(s, s1, id);
    Buries(s1, i, id);
    es := claim + ([step] + ([step] + ([step] + [step])));
    ExecSplit(s, claim, [step] + ([step] + ([step] + [step])));
  }

  lemma FinishedSame(s: State, t: State, id: ID)
    requires s.redis.finished == t.redis.finished
    ensures ViewOf(s, id).finished == ViewOf(t, id).finished
  {
  }

  lemma FinishedOnce(s: State, id: ID)
    requires s.redis.finished == [ProcessedId(id)]
    ensures ViewOf(s, id).finished == 1
  {
  }

  /* ---- the whole run ---- */

  /** Recovered once and failed three times over a source that is archived, a published job ends in
      the dead list, its record says failed, and its callback is told so. */
  lemma FinishedJobDies(stuck: nat, id: ID, source: Content) returns (before: seq<Event>, after: seq<Event>)
    ensures AllUneventful(before) && AllUneventful(after)
    ensures var es := Submission(id) + (ClaimEvents(0) + ([UploadRaw(id, source)] + (before + ([Crash(0)] + after))));
      var x := ViewOf(Exec(Init(1, stuck), es), id);
      && x.finished == 1 && x.dead == 1 && x.main == 0 && x.processing == 0
      && x.job.Some? && x.job.value.status == Failed && false in x.log.hooks
  {
    hide Apply, Exec, Init, OnMain, AtWork, NoSource, ViewOf, Submission, Uneventful;
    Submitted(1, stuck, id);
    var s := Exec(Init(1, stuck), Submission(id));
    Claims(s, id, 0);
    var s1 := Exec(s, ClaimEvents(0));
    var upload := [UploadRaw(id, source)];
    var work := Processes(s1, 0, id, source);
    var s2 := Exec(s1, upload + work);
    var step := Step(0, true, NOTE);
    PublishesAndDies(s2, 0, id);
    before := work + ([step] + [step]);
    assert Uneventful(step) by { GoodStep(0); }
    var s3 := Exec(s2, [step] + ([step] + [Crash(0)]));
    after := Dwindles(s3, id);
    Chain(s1, upload, work, step, Crash(0), after);
    ExecSplit(Init(1, stuck), Submission(id), ClaimEvents(0) + (upload + (before + ([Crash(0)] + after))));
    ExecSplit(s, ClaimEvents(0), upload + (before + ([Crash(0)] + after)));
  }

  lemma GoodStep(i: nat)
    ensures Uneventful(Step(i, true, NOTE))
  {
  }

  lemma Chain(s: State, upload: seq<Event>, work: seq<Event>, step: Event, crash: Event, after: seq<Event>)
    ensures Exec(s, upload + (work + ([step] + [step]) + ([crash] + after))) ==
            Exec(Exec(Exec(s, upload + work), [step] + ([step] + [crash])), after)
  {
    hide Apply, Exec;
    var last := [step] + ([step] + [crash]);
    assert upload + (work + ([step] + [step]) + ([crash] + after)) == (upload + work) + (last + after);
    ExecSplit(s, upload + work, last + after);
    ExecSplit(Exec(s, upload + work), last, after);
  }

  /** One recovery and three failed attempts. */
  lemma Dwindles(s: State, id: ID) returns (es: seq<Event>)
    requires AtWork(s, id, 0) && s.loops == [Waiting] && NoSource(s, id) && s.redis.finished == [ProcessedId(id)]
    ensures var x := ViewOf(Exec(s, es), id);
      && x.finished == 1 && x.dead == 1 && x.main == 0 && x.processing == 0
      && x.job.Some? && x.job.value.status == Failed && false in x.log.hooks
    ensures AllUneventful(es)
  {
    hide Apply, Exec, OnMain, AtWork, NoSource, ViewOf;
    var recovery := Recovers(s, id, 0);
    var s1 := Exec(s, recovery);
    StaysGone(s, recovery, id);
    var first := FailsAgain(s1, id, 1);
    var s2 := Exec(s1, first);
    var second := FailsAgain(s2, id, 2);
    var s3 := Exec(s2, second);
    FinishedOnce(s3, id);
    var last := FailsForGood(s3, id);
    es := recovery + (first + (second + last));
    ExecSplit(s, recovery, first + (second + last));
    ExecSplit(s1, first, second + last);
    ExecSplit(s2, second, last);
  }
}
