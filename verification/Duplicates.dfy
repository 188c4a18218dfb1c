/** Without overlapping attempts, a job is published again only for another source, or after a failed
    archive. */
module Duplicates {
  import opened Counting
  import opened Jobs
  import opened Protocol
  import opened Projection
  import Ledger

  /** Attempts that have seen the raw object and not yet finished archiving it. */
  function WithSource(id: ID): Attempt -> bool {
    (a: Attempt) =>
      a.id == id &&
      (a.pc == Read || a.pc == Process || a.pc == Upload || a.pc == Copy || a.pc == Drop)
  }

  /** No attempt began while another was running. */
  predicate Orderly(x: View) {
    !x.log.overlapped
  }

  /** Each upload is archived once at most; when all are, nothing is left to work on. */
  predicate OnceOk(x: View, running: int, withSource: int) {
    Orderly(x) ==>
      && running <= 1
      && x.log.archives <= x.log.uploads
      && (x.log.archives == x.log.uploads ==> x.raw.None? && withSource == 0)
  }

  predicate Once(s: State, id: ID) {
    OnceOk(ViewOf(s, id), Count(s.attempts, RunningOf(id)), Count(s.attempts, WithSource(id)))
  }

  lemma SourceStepOnce(x: View, a: Attempt, ok: bool, note: Note, now: nat, running: nat, withSource: nat)
    requires OnceOk(x, running, withSource) && Ledger.SourceOk(x) && Ledger.AttemptOk(x, a)
    requires withSource <= running && WithSource(a.id)(a)
    requires WithSource(a.id)(a) ==> withSource >= 1
    ensures var (c, a') := NextAttempt(x, a, ok, note, now);
      OnceOk(PerformView(x, c, now),
             running + Bit(RunningOf(a.id)(a')) - Bit(RunningOf(a.id)(a)),
             withSource + Bit(WithSource(a.id)(a')) - Bit(WithSource(a.id)(a)))
  {
    hide TallyAfter, MarkProcessing, MarkDone, MarkFailed, MarkRequeued, Stamp;
    TallyMoves(x.log, NextAttempt(x, a, ok, note, now).0);
  }

  lemma EarlierStepOnce(x: View, a: Attempt, ok: bool, note: Note, now: nat, running: nat, withSource: nat)
    requires OnceOk(x, running, withSource) && Ledger.SourceOk(x) && Ledger.AttemptOk(x, a)
    requires withSource <= running && !WithSource(a.id)(a) && Running(a)
    requires WithSource(a.id)(a) ==> withSource >= 1
    ensures var (c, a') := NextAttempt(x, a, ok, note, now);
      OnceOk(PerformView(x, c, now),
             running + Bit(RunningOf(a.id)(a')) - Bit(RunningOf(a.id)(a)),
             withSource + Bit(WithSource(a.id)(a')) - Bit(WithSource(a.id)(a)))
  {
    hide TallyAfter, MarkProcessing, MarkDone, MarkFailed, MarkRequeued, Stamp;
    TallyMoves(x.log, NextAttempt(x, a, ok, note, now).0);
  }

  lemma SettlingStepOnce(x: View, a: Attempt, ok: bool, note: Note, now: nat, running: nat, withSource: nat)
    requires OnceOk(x, running, withSource) && Ledger.SourceOk(x) && Ledger.AttemptOk(x, a)
    requires withSource <= running && !Running(a)
    requires WithSource(a.id)(a) ==> withSource >= 1
    ensures var (c, a') := NextAttempt(x, a, ok, note, now);
      OnceOk(PerformView(x, c, now),
             running + Bit(RunningOf(a.id)(a')) - Bit(RunningOf(a.id)(a)),
             withSource + Bit(WithSource(a.id)(a')) - Bit(WithSource(a.id)(a)))
  {
    hide TallyAfter, MarkProcessing, MarkDone, MarkFailed, MarkRequeued, Stamp;
    TallyMoves(x.log, NextAttempt(x, a, ok, note, now).0);
  }

  lemma StepOnce(x: View, a: Attempt, ok: bool, note: Note, now: nat, running: nat, withSource: nat)
    requires OnceOk(x, running, withSource) && Ledger.SourceOk(x) && Ledger.AttemptOk(x, a)
    requires withSource <= running
    requires WithSource(a.id)(a) ==> withSource >= 1
    ensures var (c, a') := NextAttempt(x, a, ok, note, now);
      OnceOk(PerformView(x, c, now),
             running + Bit(RunningOf(a.id)(a')) - Bit(RunningOf(a.id)(a)),
             withSource + Bit(WithSource(a.id)(a')) - Bit(WithSource(a.id)(a)))
  {
    hide *;
    if WithSource(a.id)(a) {
      SourceStepOnce(x, a, ok, note, now, running, withSource);
    } else if Running(a) {
      EarlierStepOnce(x, a, ok, note, now, running, withSource);
    } else {
      SettlingStepOnce(x, a, ok, note, now, running, withSource);
    }
  }

  lemma SweepOnce(x: View, l: Loop, ok: bool, now: nat, running: nat, withSource: nat)
    requires OnceOk(x, running, withSource) && Subject(l).Some?
    ensures OnceOk(PerformView(x, NextLoop(x, l, ok).0, now), running, withSource)
  {
    hide TallyAfter;
    TallyMoves(x.log, NextLoop(x, l, ok).0);
  }

  lemma NoneRunning(s: State, id: ID)
    requires !RunningOn(s, id)
    ensures Count(s.attempts, RunningOf(id)) == 0
  {
    CountZero(s.attempts, RunningOf(id));
  }

  /** Events other than the ID's own steps and sweeps. */
  lemma OthersOnce(s: State, e: Event, id: ID)
    requires Once(s, id) && Ledger.Inv(s, id)
    requires !(e.Step? && Steps(s, e.attempt, id)) && !(e.Sweep? && Sweeps(s, e.loop, id))
    ensures Once(Apply(s, e), id)
  {
    hide Apply, ViewOf, NextAttempt, NextLoop, PerformView, Count, RunningOn, RemovingOn, Seconds;
    hide Ledger.AttemptsOk, Ledger.CountsOk, Ledger.FaultsOk, Ledger.LoopOk;
    Projects(s, e, id);
    AttemptCounts(s, e, id, RunningOf(id));
    AttemptCounts(s, e, id, WithSource(id));
    if e.Consume? && !RunningOn(s, id) {
      NoneRunning(s, id);
    }
  }

  lemma KeepsOnce(s: State, e: Event, id: ID)
    requires Once(s, id) && Ledger.Inv(s, id)
    ensures Once(Apply(s, e), id)
  {
    hide Apply, ViewOf, NextAttempt, NextLoop, PerformView, Count, OnceOk, Ledger.Inv;
    if e.Step? && Steps(s, e.attempt, id) {
      Projects(s, e, id);
      AttemptCounts(s, e, id, RunningOf(id));
      AttemptCounts(s, e, id, WithSource(id));
      StepsOnce(s, e.attempt, e.ok, e.note, id);
    } else if e.Sweep? && Sweeps(s, e.loop, id) {
      Projects(s, e, id);
      AttemptCounts(s, e, id, RunningOf(id));
      AttemptCounts(s, e, id, WithSource(id));
      SweepOnce(ViewOf(s, id), s.loops[e.loop], e.ok, s.now,
                Count(s.attempts, RunningOf(id)), Count(s.attempts, WithSource(id)));
    } else {
      OthersOnce(s, e, id);
    }
  }

  lemma StepsOnce(s: State, i: nat, ok: bool, note: Note, id: ID)
    requires Once(s, id) && Ledger.Inv(s, id) && Steps(s, i, id)
    ensures var x := ViewOf(s, id);
      var a := s.attempts[i];
      var (c, a') := NextAttempt(x, a, ok, note, s.now);
      && OnceOk(PerformView(x, c, s.now),
             Count(s.attempts, RunningOf(id)) + Bit(RunningOf(id)(a')) - Bit(RunningOf(id)(a)),
             Count(s.attempts, WithSource(id)) + Bit(WithSource(id)(a')) - Bit(WithSource(id)(a)))
  {
    hide ViewOf, NextAttempt, PerformView, Count, Ledger.AttemptOk, Ledger.CountsOk, Ledger.FaultsOk, Ledger.JobOk;
    hide OnceOk;
    var a := s.attempts[i];
    CountSubset(s.attempts, WithSource(id), RunningOf(id));
    Ledger.JobHasSource(ViewOf(s, id));
    if WithSource(id)(a) {
      CountMember(s.attempts, i, WithSource(id));
    }
    StepOnce(ViewOf(s, id), a, ok, note, s.now,
             Count(s.attempts, RunningOf(id)), Count(s.attempts, WithSource(id)));
  }

  lemma {:induction false} AlwaysOnce(s: State, es: seq<Event>, id: ID)
    requires Once(s, id) && Ledger.Inv(s, id)
    ensures Once(Exec(s, es), id)
    decreases |es|
  {
    hide Once, Ledger.Inv, Apply;
    if es != [] {
      KeepsOnce(s, es[0], id);
      Ledger.Keeps(s, es[0], id);
      AlwaysOnce(Apply(s, es[0]), es[1..], id);
    }
  }

  /** A job whose attempts never overlap is published at most once per uploaded source and failed
      archive: an attempt that starts after a successful archive finds nothing to download. */
  lemma PublishedPerUpload(loops: nat, stuck: nat, es: seq<Event>, id: ID)
    ensures var x := ViewOf(Exec(Init(loops, stuck), es), id);
      Orderly(x) ==> x.finished <= x.log.uploads + x.log.archiveFaults
  {
    hide Apply;
    Ledger.Starts(loops, stuck, id);
    Ledger.KeepsAlways(Init(loops, stuck), es, id);
    AlwaysOnce(Init(loops, stuck), es, id);
  }

  /** With one source, that is once more than archiving has failed. */
  lemma PublishedOnce(loops: nat, stuck: nat, es: seq<Event>, id: ID)
    ensures var x := ViewOf(Exec(Init(loops, stuck), es), id);
      Orderly(x) && x.log.uploads <= 1 ==> x.finished <= 1 + x.log.archiveFaults
  {
    hide Init, Exec, ViewOf, Orderly;
    PublishedPerUpload(loops, stuck, es, id);
  }
}
