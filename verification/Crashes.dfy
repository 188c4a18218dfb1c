/** What recovery costs: in a regular run every recovery of a job uses up a crash of one of its
    attempts, so crashes bound how often the job is taken. */
module Crashes {
  import opened Counting
  import opened Jobs
  import opened Protocol
  import opened Projection
  import Ledger
  import Exclusion
  import Retries
  import FourAttempts

  function MarkingOf(id: ID): Loop -> bool {
    (l: Loop) => l.Marking? && l.id == id
  }

  /** The record says processing, and nobody is left to change that but a sweep yet to come. */
  predicate Abandoned(x: View, live: nat, marking: nat) {
    !Exclusion.NotProcessing(x) && live == 0 && marking == 0
  }

  predicate PaidFor(x: View, live: nat, marking: nat) {
    x.log.recoveries + marking + Bit(Abandoned(x, live, marking)) <= x.log.crashes
  }

  predicate Paid(s: State, id: ID) {
    var x := ViewOf(s, id);
    && PaidFor(x, Count(s.attempts, Exclusion.LiveOf(id)), Count(s.loops, MarkingOf(id)))
    && FourAttempts.OutcomesOk(x, s.attempts, id)
  }

  /** A live attempt leaves the job in processing only by crashing. */
  lemma LivePays(x: View, a: Attempt, ok: bool, note: Note, now: nat)
    requires Live(a) && Ledger.AttemptOk(x, a) && FourAttempts.OutcomeOk(x, a)
    ensures var (c, a') := NextAttempt(x, a, ok, note, now);
      var y := PerformView(x, c, now);
      && y.log.recoveries == x.log.recoveries && y.log.crashes == x.log.crashes
      && (Retries.Clean(y) ==>
            FourAttempts.OutcomeOk(y, a') && (!Live(a') ==> Exclusion.NotProcessing(y)))
  {
    hide TallyAfter, Base;
    TallyMoves(x.log, NextAttempt(x, a, ok, note, now).0);
  }

  lemma IdlePays(x: View, a: Attempt, ok: bool, note: Note, now: nat)
    requires a.pc == Ack(AfterRequeue)
    ensures var (c, a') := NextAttempt(x, a, ok, note, now);
      var y := PerformView(x, c, now);
      a'.pc == Ended && y.job == x.job && y.log == x.log
  {
  }

  lemma MarkingHolds(loops: seq<Loop>, id: ID)
    ensures Count(loops, MarkingOf(id)) <= Count(loops, Exclusion.HoldingOf(id))
  {
    CountSubset(loops, MarkingOf(id), Exclusion.HoldingOf(id));
  }

  lemma PaidOnStep(s: State, e: Event, id: ID)
    requires e.Step? && Steps(s, e.attempt, id)
    requires Paid(s, id) && Exclusion.Exclusive(s, id) && Ledger.Inv(s, id)
    requires Retries.Clean(ViewOf(Apply(s, e), id))
    ensures Paid(Apply(s, e), id)
  {
    hide Apply, ViewOf, NextAttempt, NextLoop, PerformView, Count, Live, Exclusion.ViewOk, Exclusion.OwnersOk;
    hide Exclusion.HolderOk, Ledger.AttemptOk, Ledger.CountsOk, Ledger.FaultsOk, Ledger.JobOk, Retries.Clean;
    hide FourAttempts.OutcomeOk;
    var i, x := e.attempt, ViewOf(s, id);
    var a := s.attempts[i];
    var (c, a') := NextAttempt(x, a, e.ok, e.note, s.now);
    var y := PerformView(x, c, s.now);
    Projects(s, e, id);
    Moves(s, e);
    AttemptCounts(s, e, id, Exclusion.LiveOf(id));
    LoopCounts(s, e, id, MarkingOf(id));
    NextAttemptKeeps(x, a, e.ok, e.note, s.now);
    assert ViewOf(Apply(s, e), id) == y;
    if Live(a) {
      CountMember(s.attempts, i, Exclusion.LiveOf(id));
      Exclusion.OnlyHolder(x, Count(s.attempts, Exclusion.LiveOf(id)), Count(s.loops, Exclusion.HoldingOf(id)));
      MarkingHolds(s.loops, id);
      LivePays(x, a, e.ok, e.note, s.now);
      FourAttempts.OneLiveOutcome(y, s.attempts, i, a', id);
    } else {
      FourAttempts.IdleStates(a);
      IdlePays(x, a, e.ok, e.note, s.now);
      FourAttempts.IdleStates(a');
      FourAttempts.OutcomesSame(x, y, s.attempts, id);
      assert FourAttempts.OutcomeOk(y, a') by { FourAttempts.FreshOutcome(y); }
    }
  }

  lemma SweepPays(x: View, l: Loop, ok: bool, now: nat, live: nat, id: ID)
    requires Subject(l) == Some(id) && PaidFor(x, live, Bit(MarkingOf(id)(l))) && Ledger.LoopOk(l)
    requires MarkingOf(id)(l) || (l.Scanning? && x.job.Some? && Stuck(x.job.value, l.threshold)) ==> live == 0
    ensures var (c, l') := NextLoop(x, l, ok);
      var y := PerformView(x, c, now);
      && (Retries.Clean(y) ==> PaidFor(y, live, Bit(MarkingOf(id)(l'))))
      && (live > 0 ==> y.job == x.job)
  {
    hide TallyAfter;
    TallyMoves(x.log, NextLoop(x, l, ok).0);
  }

  lemma SoleMarking(loops: seq<Loop>, id: ID)
    requires |loops| == 1
    ensures Count(loops, MarkingOf(id)) == Bit(MarkingOf(id)(loops[0]))
  {
    assert |loops[..0]| == 0;
  }

  lemma PaidOnSweep(s: State, e: Event, id: ID)
    requires e.Sweep? && Sweeps(s, e.loop, id) && |s.loops| <= 1
    requires Paid(s, id) && Exclusion.Exclusive(s, id) && Exclusion.ClockOk(s) && id !in s.late && Ledger.Inv(s, id)
    requires Retries.Clean(ViewOf(Apply(s, e), id))
    ensures Paid(Apply(s, e), id)
  {
    hide Apply, NextAttempt, NextLoop, PerformView, Count, PaidFor, TallyOf, Stuck, Retries.Clean;
    hide Exclusion.OwnersOk, Exclusion.HolderOk, Exclusion.ClockOk, Exclusion.ViewOk;
    hide Ledger.CountsOk, Ledger.FaultsOk, Ledger.JobOk, Ledger.AttemptsOk, Ledger.LoopOk, FourAttempts.OutcomeOk;
    var x, t := ViewOf(s, id), Apply(s, e);
    var l := s.loops[0];
    var (c, l') := NextLoop(x, l, e.ok);
    var y := PerformView(x, c, s.now);
    var live := Count(s.attempts, Exclusion.LiveOf(id));
    Projects(s, e, id);
    Moves(s, e);
    AttemptCounts(s, e, id, Exclusion.LiveOf(id));
    assert ViewOf(t, id) == y;
    SoleMarking(s.loops, id);
    assert t.loops == [l'];
    SoleMarking(t.loops, id);
    if l.Scanning? && x.job.Some? && Stuck(x.job.value, l.threshold) {
      Exclusion.StuckHasNoOwner(s, 0, id);
    }
    if MarkingOf(id)(l) && live > 0 {
      MarkingHolds(s.loops, id);
      Exclusion.OnlyHolder(x, live, Count(s.loops, Exclusion.HoldingOf(id)));
    }
    hide ViewOf;
    SweepPays(x, l, e.ok, s.now, live, id);
    if live > 0 {
      FourAttempts.OutcomesSame(x, y, s.attempts, id);
    } else {
      FourAttempts.NoLiveOutcomes(y, s.attempts, id);
    }
  }

  lemma PaymentsOnOthers(s: State, e: Event, id: ID)
    requires !(e.Step? && Steps(s, e.attempt, id)) && !(e.Sweep? && Sweeps(s, e.loop, id))
    requires Paid(s, id) && Retries.Clean(ViewOf(Apply(s, e), id))
    ensures var t := Apply(s, e);
      PaidFor(ViewOf(t, id), Count(t.attempts, Exclusion.LiveOf(id)), Count(t.loops, MarkingOf(id)))
  {
    hide Apply, ViewOf, NextAttempt, NextLoop, PerformView, Count, RunningOn, RemovingOn, Seconds, Live;
    hide FourAttempts.OutcomesOk;
    Projects(s, e, id);
    AttemptCounts(s, e, id, Exclusion.LiveOf(id));
    LoopCounts(s, e, id, MarkingOf(id));
    if e.LoopDies? && e.loop < |s.loops| && MarkingOf(id)(s.loops[e.loop]) {
      CountMember(s.loops, e.loop, MarkingOf(id));
    }
  }

  lemma OutcomesOnOthers(s: State, e: Event, id: ID)
    requires !(e.Step? && Steps(s, e.attempt, id)) && !(e.Sweep? && Sweeps(s, e.loop, id))
    requires Paid(s, id) && Exclusion.Exclusive(s, id)
    requires Retries.Clean(ViewOf(Apply(s, e), id))
    ensures FourAttempts.OutcomesOk(ViewOf(Apply(s, e), id), Apply(s, e).attempts, id)
  {
    hide Apply, ViewOf, NextAttempt, NextLoop, PerformView, Count, RunningOn, RemovingOn, Threshold, Seconds, PaidFor;
    hide FourAttempts.OutcomeOk, Exclusion.OwnersOk, Exclusion.HolderOk;
    var x, y := ViewOf(s, id), ViewOf(Apply(s, e), id);
    Projects(s, e, id);
    Moves(s, e);
    FourAttempts.FreshOutcome(y);
    if e.PublishSet? && e.id == id && e.ok {
      FourAttempts.NoLiveOutcomes(y, s.attempts, id);
    } else {
      FourAttempts.OutcomesSame(x, y, s.attempts, id);
    }
    if e.Step? && e.attempt < |s.attempts| {
      var a := s.attempts[e.attempt];
      NextAttemptKeeps(ViewOf(s, a.id), a, e.ok, e.note, s.now);
    }
  }

  predicate Inv(s: State, id: ID) {
    Retries.Regular(s, id) ==> Paid(s, id)
  }

  lemma Keeps(s: State, e: Event, id: ID)
    requires Inv(s, id) && Exclusion.Inv(s, id) && Ledger.Inv(s, id)
    ensures Inv(Apply(s, e), id)
  {
    hide Apply, ViewOf, Retries.Clean, Exclusion.Exclusive, Exclusion.ClockOk, Exclusion.Punctual, Ledger.Inv;
    hide PaidFor, FourAttempts.OutcomesOk, Count;
    if Retries.Regular(Apply(s, e), id) {
      Retries.RegularBefore(s, e, id);
      FourAttempts.NotLate(s, id);
      if e.Step? && Steps(s, e.attempt, id) {
        PaidOnStep(s, e, id);
      } else if e.Sweep? && Sweeps(s, e.loop, id) {
        PaidOnSweep(s, e, id);
      } else {
        PaymentsOnOthers(s, e, id);
        OutcomesOnOthers(s, e, id);
      }
    }
  }

  lemma {:induction false} KeepsAlways(s: State, es: seq<Event>, id: ID)
    requires Inv(s, id) && Exclusion.Inv(s, id) && Ledger.Inv(s, id)
    ensures Inv(Exec(s, es), id)
    decreases |es|
  {
    hide Inv, Exclusion.Inv, Ledger.Inv, Apply;
    if es != [] {
      Keeps(s, es[0], id);
      Exclusion.Keeps(s, es[0], id);
      Ledger.Keeps(s, es[0], id);
      KeepsAlways(Apply(s, es[0]), es[1..], id);
    }
  }

  lemma Starts(loops: nat, stuck: nat, id: ID)
    ensures Inv(Init(loops, stuck), id)
  {
    var s := Init(loops, stuck);
    hide Init, ViewOf, Count, Exclusion.LiveOf, Retries.Regular;
    InitIsIdle(loops, stuck, id);
    CountZero(s.loops, MarkingOf(id));
    CountZero(s.attempts, Exclusion.LiveOf(id));
  }

  /** In a regular run a job is recovered at most as often as its attempts have crashed, and taken at
      most four times more often than that. */
  lemma RecoveredPerCrash(loops: nat, stuck: nat, es: seq<Event>, id: ID)
    requires loops <= 1
    ensures var s := Exec(Init(loops, stuck), es);
      var x := ViewOf(s, id);
      Retries.Regular(s, id) ==>
        x.log.recoveries <= x.log.crashes && x.log.consumed <= 4 + x.log.crashes
  {
    hide Apply, Init, Exec, ViewOf, Exclusion.Inv, Ledger.Inv, Retries.Regular, Retries.Inv, Count;
    hide FourAttempts.OutcomesOk;
    Starts(loops, stuck, id);
    Retries.Starts(loops, stuck, id);
    KeepsAlways(Init(loops, stuck), es, id);
    Retries.BoundedTakes(loops, stuck, es, id);
  }
}
