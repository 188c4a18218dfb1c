/** That the two ends of a job are reached: runs from the start in which nothing goes wrong but the
    job itself, and one in which nothing goes wrong at all. */
module Outcomes {
  import opened Jobs
  import opened RedisLists
  import opened RedisStore
  import opened ObjectKeys
  import opened Protocol
  import opened Projection
  import opened Witnesses
  import opened DeadAfterDone
  import Exclusion
  import Retries
  import FourAttempts
  import Undisturbed

  /* ---- uneventful runs are untroubled ---- */

  predicate Spotless(x: View) {
    && x.log.submitted <= 1 && x.log.getFaults == 0 && x.log.setFaults == 0 && x.log.expiries == 0
    && x.log.crashes == 0 && x.log.losses == 0
  }

  lemma GoodCommand(x: View, a: Attempt, note: Note, now: nat)
    ensures var c := NextAttempt(x, a, true, note, now).0;
      !c.GetFault? && !c.SetFault? && !c.FailFault? && !c.Lose? && !c.LoseWrite?
  {
  }

  lemma GoodLoopCommand(x: View, l: Loop)
    requires Subject(l).Some?
    ensures var c := NextLoop(x, l, true).0;
      !c.GetFault? && !c.SetFault? && !c.FailFault? && !c.Lose? && !c.LoseWrite?
  {
  }

  lemma StaysSpotlessOnce(s: State, e: Event, id: ID)
    requires Spotless(ViewOf(s, id)) && Uneventful(e)
    ensures Spotless(ViewOf(Apply(s, e), id))
  {
    hide Apply, ViewOf, NextAttempt, NextLoop, TallyAfter, RunningOn;
    Projects(s, e, id);
    var x := ViewOf(s, id);
    match e
    case Step(i, ok, note) =>
      if Steps(s, i, id) {
        GoodCommand(x, s.attempts[i], note, s.now);
        TallyMoves(x.log, NextAttempt(x, s.attempts[i], ok, note, s.now).0);
      }
    case Sweep(l, ok) =>
      if Sweeps(s, l, id) {
        GoodLoopCommand(x, s.loops[l]);
        TallyMoves(x.log, NextLoop(x, s.loops[l], ok).0);
      }
    case _ =>
  }

  lemma {:induction false} StaysSpotless(s: State, es: seq<Event>, id: ID)
    requires Spotless(ViewOf(s, id)) && AllUneventful(es) && NoTicks(es)
    ensures Spotless(ViewOf(Exec(s, es), id)) && Exec(s, es).late == s.late
    decreases |es|
  {
    hide Apply, ViewOf, Spotless, Uneventful;
    if |es| > 0 {
      StaysSpotlessOnce(s, es[0], id);
      Moves(s, es[0]);
      StaysSpotless(Apply(s, es[0]), es[1..], id);
    }
  }

  lemma SubmissionSpotless(stuck: nat, id: ID)
    ensures var s := Exec(Init(1, stuck), Submission(id));
      Spotless(ViewOf(s, id)) && s.late == {} && ViewOf(s, id).finished == 0
  {
    var set_, push := PublishSet(id, CALLBACK, true), PublishPush(id, true);
    var s := Init(1, stuck);
    assert Spotless(ViewOf(s, id)) && ViewOf(s, id).log.submitted == 0;
    hide Apply, Init, ViewOf;
    var s1 := Apply(s, set_);
    InitIsIdle(1, stuck, id);
    Projects(s, set_, id);
    Moves(s, set_);
    Projects(s1, push, id);
    Moves(s1, push);
    Undisturbed.ExecCons(s, set_, [push]);
    Undisturbed.ExecOne(s1, push);
    assert [set_] + [push] == Submission(id);
  }

  lemma NothingUploaded(stuck: nat, id: ID)
    ensures NoSource(Exec(Init(1, stuck), Submission(id)), id)
  {
    hide Apply, Init, ViewOf;
    InitIsIdle(1, stuck, id);
    StaysGone(Init(1, stuck), Submission(id), id);
  }

  /** An ID without a source, published once and met by no fault or crash, is taken four times, fails
      four times and ends dead, with its callback told. */
  lemma AlwaysFailing(stuck: nat, id: ID) returns (es: seq<Event>)
    ensures AllUneventful(es) && NoTicks(es)
    ensures var s := Exec(Init(1, stuck), Submission(id) + es);
      var x := ViewOf(s, id);
      && FourAttempts.Untroubled(s, id)
      && x.dead == 1 && x.finished == 0 && x.main == 0 && x.processing == 0
      && x.log.consumed == x.log.failures == 4
      && x.job.Some? && x.job.value.status == Failed && false in x.log.hooks
  {
    hide Apply, Exec, Init, OnMain, NoSource, ViewOf, Submission, Spotless;
    Submitted(1, stuck, id);
    SubmissionSpotless(stuck, id);
    NothingUploaded(stuck, id);
    var s0 := Exec(Init(1, stuck), Submission(id));
    es := DiesSlowly(s0, id);
    StaysSpotless(s0, es, id);
    ExecSplit(Init(1, stuck), Submission(id), es);
    var s := Exec(s0, es);
    assert FourAttempts.Untroubled(s, id) by { SpotlessIsUntroubled(s, id); }
    FourAttempts.ExhaustedAfterFour(1, stuck, Submission(id) + es, id);
  }

  lemma SpotlessIsUntroubled(s: State, id: ID)
    requires Spotless(ViewOf(s, id)) && s.late == {}
    ensures FourAttempts.Untroubled(s, id)
  {
    hide ViewOf;
  }

  lemma DiesSlowly(s: State, id: ID) returns (es: seq<Event>)
    requires OnMain(s, id, 0) && NoSource(s, id)
    ensures AllUneventful(es) && NoTicks(es)
    ensures var y := ViewOf(Exec(s, es), id);
      && y.main == 0 && y.processing == 0 && y.dead == 1 && y.finished == ViewOf(s, id).finished
      && y.job.Some? && y.job.value.status == Failed && false in y.log.hooks
  {
    hide Apply, Exec, OnMain, NoSource, ViewOf;
    var first := FailsAgain(s, id, 0);
    var s1 := Exec(s, first);
    var second := FailsAgain(s1, id, 1);
    var s2 := Exec(s1, second);
    var third := FailsAgain(s2, id, 2);
    var s3 := Exec(s2, third);
    var last := FailsForGood(s3, id);
    FinishedSame(s, s3, id);
    es := first + (second + (third + last));
    ExecSplit(s, first, second + (third + last));
    ExecSplit(s1, second, third + last);
    ExecSplit(s2, third, last);
  }

  /* ---- success, and the webhook that tells of it ---- */

  /** Webhooks come from two commands only.  After a publication one is sent exactly when the record
      read back names a callback, and says success exactly when that record says done; after a burial
      one is sent exactly when the failure was written and its record names a callback. */
  lemma HookTellsStatus(x: View, a: Attempt, ok: bool, note: Note, now: nat)
    ensures var y := PerformView(x, NextAttempt(x, a, ok, note, now).0, now);
      y.log.hooks == x.log.hooks +
        match a.pc
        case HookGet =>
          if ok && x.job.Some? && x.job.value.callbackURL != "" then [x.job.value.status == Done] else []
        case Bury(failed) => if ok && failed.Some? && failed.value.callbackURL != "" then [false] else []
        case _ => []
  {
    hide MarkDone, MarkFailed, MarkProcessing, MarkRequeued, Stamp;
  }

  /** The download fails exactly when a request does or the source is not, or no longer, there; nothing
      is copied unless it is there; and only what was copied is removed. */
  lemma NeedsItsSource(x: View, a: Attempt, ok: bool, note: Note, now: nat)
    ensures var (c, a') := NextAttempt(x, a, ok, note, now);
      && (a.pc.Stat? || a.pc.Read? ==> (a'.pc == FailGet <==> !ok || x.raw.None?))
      && (a'.pc == Process <==> a.pc == Read && ok && x.raw.Some?)
      && (a'.pc == Drop <==> a.pc == Copy && ok && x.raw.Some?) && (a'.pc == Drop <==> c == CopyRaw)
      && (c == DropRaw <==> a.pc == Drop && ok)
  {
    hide MarkDone, MarkFailed, MarkProcessing, MarkRequeued;
  }

  /** The commands from the publication on. */
  lemma FinalCommands(x: View, a: Attempt, now: nat)
    ensures a.pc == UploadArtifacts ==> NextAttempt(x, a, true, NOTE, now) == (Nothing, a.(pc := Publish))
    ensures a.pc == Publish ==> NextAttempt(x, a, true, NOTE, now) == (Finish, a.(pc := DoneGet))
    ensures a.pc == DoneGet ==>
      NextAttempt(x, a, true, NOTE, now) ==
      (Nothing, a.(pc := DoneSet(MarkDone(x.job, now, NOTE.artifacts, NOTE.metadata))))
    ensures a.pc.DoneSet? ==> NextAttempt(x, a, true, NOTE, now) == (Write(a.pc.job), a.(pc := HookGet))
    ensures a.pc == HookGet && x.job.Some? && x.job.value.callbackURL != "" ==>
      NextAttempt(x, a, true, NOTE, now) == (Notify(x.job.value.status == Done), a.(pc := Ack(AfterSuccess)))
    ensures a.pc.Ack? ==> NextAttempt(x, a, true, NOTE, now) == (Unlist, a.(pc := Ended))
  {
    hide MarkDone;
  }

  lemma FinishedView(x: View, now: nat)
    requires x.main == 0 && x.processing == 1 && x.dead == 0 && x.job.Some? && x.job.value.callbackURL == CALLBACK
    ensures var job := MarkDone(x.job, now, NOTE.artifacts, NOTE.metadata);
      var y := PerformView(PerformView(x, Finish, now), Write(job), now);
      var z := PerformView(PerformView(y, Notify(true), now), Unlist, now);
      && y.job.Some? && y.job.value.status == Done && y.job.value.callbackURL == CALLBACK
      && z.main == 0 && z.processing == 0 && z.dead == 0 && z.finished == x.finished + 1
      && z.job == y.job && true in z.log.hooks && z.processed == x.processed && z.archived == x.archived
  {
    hide Seconds;
  }

  /** Published, recorded, reported and acknowledged. */
  lemma Concludes(s: State, i: nat, id: ID)
    requires AtWork(s, id, 0) && Undisturbed.On(s, i, id, UploadArtifacts)
    ensures var step := Step(i, true, NOTE);
      var x, y := ViewOf(s, id), ViewOf(Exec(s, [step] + ([step] + ([step] + ([step] + ([step] + [step]))))), id);
      && y.main == 0 && y.processing == 0 && y.dead == 0 && y.finished == x.finished + 1
      && y.job.Some? && y.job.value.status == Done && true in y.log.hooks
  {
    hide Apply, Exec, ViewOf, AtWork, NextAttempt, PerformView;
    var step := Step(i, true, NOTE);
    var s1 := Apply(s, step);
    var s2 := Apply(s1, step);
    var s3 := Apply(s2, step);
    var s4 := Apply(s3, step);
    var s5 := Apply(s4, step);
    var x := ViewOf(s, id);
    AtWorkView(s, id, 0);
    SameNow(s, step);
    SameNow(s1, step);
    SameNow(s2, step);
    SameNow(s3, step);
    SameNow(s4, step);
    var y1 := PerformView(x, Nothing, s.now);
    assert y1 == x by { NothingChanges(x, s.now); }
    FinalCommands(x, s.attempts[i], s.now);
    Views(s, i, id, UploadArtifacts);
    FinalCommands(x, s1.attempts[i], s.now);
    Views(s1, i, id, Publish);
    var y2 := PerformView(x, Finish, s.now);
    var job := MarkDone(x.job, s.now, NOTE.artifacts, NOTE.metadata);
    assert y2.job == x.job by { FinishKeepsJob(x, s.now); }
    NothingChanges(y2, s.now);
    FinalCommands(y2, s2.attempts[i], s.now);
    Views(s2, i, id, DoneGet);
    FinalCommands(y2, s3.attempts[i], s.now);
    Views(s3, i, id, DoneSet(job));
    FinishedView(x, s.now);
    FinalCommands(ViewOf(s4, id), s4.attempts[i], s.now);
    Views(s4, i, id, HookGet);
    FinalCommands(ViewOf(s5, id), s5.attempts[i], s.now);
    Views(s5, i, id, Ack(AfterSuccess));
    Undisturbed.ExecCons(s, step, [step] + ([step] + ([step] + ([step] + [step]))));
    Undisturbed.ExecCons(s1, step, [step] + ([step] + ([step] + [step])));
    Undisturbed.ExecCons(s2, step, [step] + ([step] + [step]));
    Undisturbed.ExecCons(s3, step, [step] + [step]);
    Undisturbed.ExecCons(s4, step, [step]);
    Undisturbed.ExecOne(s5, step);
  }

  lemma SameNow(s: State, e: Event)
    requires e.Step?
    ensures Apply(s, e).now == s.now
  {
    hide Apply;
    Moves(s, e);
  }

  lemma NothingChanges(x: View, now: nat)
    ensures PerformView(x, Nothing, now) == x
  {
  }

  lemma FinishKeepsJob(x: View, now: nat)
    ensures PerformView(x, Finish, now).job == x.job
  {
  }

  /** A job with a source and a callback, met by no fault or crash, is finished once, its record says
      done, and its callback is told of the success. */
  lemma Succeeding(stuck: nat, id: ID, source: Content) returns (work: seq<Event>)
    ensures AllUneventful(work)
    ensures var es := Submission(id) + (ClaimEvents(0) + ([UploadRaw(id, source)] + work));
      var x := ViewOf(Exec(Init(1, stuck), es), id);
      && x.finished == 1 && x.dead == 0 && x.main == 0 && x.processing == 0
      && x.job.Some? && x.job.value.status == Done && true in x.log.hooks
  {
    hide Apply, Exec, Init, OnMain, AtWork, NoSource, ViewOf, Submission;
    Submitted(1, stuck, id);
    SubmissionSpotless(stuck, id);
    var s := Exec(Init(1, stuck), Submission(id));
    Claims(s, id, 0);
    var s1 := Exec(s, ClaimEvents(0));
    var upload := [UploadRaw(id, source)];
    var first := Processes(s1, 0, id, source);
    var s2 := Exec(s1, upload + first);
    FinishedSame(s, s2, id);
    var step := Step(0, true, NOTE);
    var last := [step] + ([step] + ([step] + ([step] + ([step] + [step]))));
    Concludes(s2, 0, id);
    work := first + last;
    assert upload + work == upload + first + last;
    ExecSplit(s1, upload + first, last);
    ExecSplit(Init(1, stuck), Submission(id), ClaimEvents(0) + (upload + work));
    ExecSplit(s, ClaimEvents(0), upload + work);
  }
}
