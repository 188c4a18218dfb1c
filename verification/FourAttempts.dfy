/** Exhaustion, exactly: without crashes or faults an ID that never succeeds is attempted
    1 + MaxJobRetries = 4 times and ends in the dead list. */
module FourAttempts {
  import opened Counting
  import opened Jobs
  import opened Protocol
  import opened Projection
  import Ledger
  import Exclusion
  import Retries

  /** Attempts that have not yet published, requeued, buried or lost the job. */
  predicate Open(a: Attempt) {
    Running(a) || a.pc == RequeueGet || a.pc.RequeueSet? || a.pc == RequeuePush || a.pc.Bury?
  }

  function OpenOf(id: ID): Attempt -> bool {
    (a: Attempt) => a.id == id && Open(a)
  }

  predicate Smooth(x: View) {
    x.log.crashes == 0 && x.log.losses == 0
  }

  predicate Untroubled(s: State, id: ID) {
    Retries.Regular(s, id) && Smooth(ViewOf(s, id))
  }

  /** Recovery never touches the job, every take ends in a failure, a success or a running
      attempt, and every publication is in exactly one place. */
  predicate BooksOk(x: View, live: int, holding: int, running: int, open: int) {
    && holding == 0 && x.log.recoveries == 0 && x.log.handbacks == 0
    && (!Exclusion.NotProcessing(x) ==> live >= 1)
    && x.log.consumed == x.log.failures + x.finished + running
    && x.log.published == x.main + open + x.dead + x.finished
    && x.log.published + x.log.publishing <= x.log.submitted
  }

  /** Once its outcome is written, an attempt no longer shows the job as being processed. */
  predicate OutcomeOk(x: View, a: Attempt) {
    (a.pc == RequeueGet || a.pc.RequeueSet? || a.pc == RequeuePush || a.pc.Bury? || a.pc == HookGet ||
     (a.pc.Ack? && a.pc != Ack(AfterRequeue))) ==>
      Exclusion.NotProcessing(x)
  }

  predicate OutcomesOk(x: View, attempts: seq<Attempt>, id: ID) {
    forall i :: 0 <= i < |attempts| && attempts[i].id == id ==> OutcomeOk(x, attempts[i])
  }

  predicate Booked(s: State, id: ID) {
    var x := ViewOf(s, id);
    && BooksOk(x, Count(s.attempts, Exclusion.LiveOf(id)), Count(s.loops, Exclusion.HoldingOf(id)),
               Count(s.attempts, RunningOf(id)), Count(s.attempts, OpenOf(id)))
    && OutcomesOk(x, s.attempts, id)
  }

  lemma LiveRunningStep(x: View, a: Attempt, ok: bool, note: Note, now: nat, running: int, open: int)
    requires Live(a) && Running(a) && Ledger.AttemptOk(x, a) && OutcomeOk(x, a)
    requires BooksOk(x, 1, 0, running, open)
    ensures var (c, a') := NextAttempt(x, a, ok, note, now);
      var y := PerformView(x, c, now);
      Smooth(y) && Retries.Clean(y) ==>
        && BooksOk(y, Bit(Live(a')), 0,
                   running + Bit(Running(a')) - Bit(Running(a)),
                   open + Bit(Open(a')) - Bit(Open(a)))
        && OutcomeOk(y, a')
  {
    hide TallyAfter;
    TallyMoves(x.log, NextAttempt(x, a, ok, note, now).0);
  }

  lemma LiveSettlingStep(x: View, a: Attempt, ok: bool, note: Note, now: nat, running: int, open: int)
    requires Live(a) && !Running(a) && Ledger.AttemptOk(x, a) && OutcomeOk(x, a)
    requires BooksOk(x, 1, 0, running, open)
    ensures var (c, a') := NextAttempt(x, a, ok, note, now);
      var y := PerformView(x, c, now);
      Smooth(y) && Retries.Clean(y) ==>
        && BooksOk(y, Bit(Live(a')), 0,
                   running + Bit(Running(a')) - Bit(Running(a)),
                   open + Bit(Open(a')) - Bit(Open(a)))
        && OutcomeOk(y, a')
  {
    hide TallyAfter;
    TallyMoves(x.log, NextAttempt(x, a, ok, note, now).0);
  }

  lemma LiveStep(x: View, a: Attempt, ok: bool, note: Note, now: nat, running: int, open: int)
    requires Live(a) && Ledger.AttemptOk(x, a) && OutcomeOk(x, a)
    requires BooksOk(x, 1, 0, running, open)
    ensures var (c, a') := NextAttempt(x, a, ok, note, now);
      var y := PerformView(x, c, now);
      Smooth(y) && Retries.Clean(y) ==>
        && BooksOk(y, Bit(Live(a')), 0,
                   running + Bit(Running(a')) - Bit(Running(a)),
                   open + Bit(Open(a')) - Bit(Open(a)))
        && OutcomeOk(y, a')
  {
    hide *;
    if Running(a) {
      LiveRunningStep(x, a, ok, note, now, running, open);
    } else {
      LiveSettlingStep(x, a, ok, note, now, running, open);
    }
  }

  lemma IdleStep(x: View, a: Attempt, ok: bool, note: Note, now: nat, live: int, running: int, open: int)
    requires a.pc == Ack(AfterRequeue) && BooksOk(x, live, 0, running, open)
    ensures var (c, a') := NextAttempt(x, a, ok, note, now);
      var y := PerformView(x, c, now);
      && a'.pc == Ended && y.job == x.job && OutcomeOk(y, a')
      && BooksOk(y, live, 0, running, open)
  {
  }

  lemma OutcomesSame(x: View, y: View, attempts: seq<Attempt>, id: ID)
    requires y.job == x.job && OutcomesOk(x, attempts, id)
    ensures OutcomesOk(y, attempts, id)
  {
  }

  lemma NoLiveOutcomes(y: View, attempts: seq<Attempt>, id: ID)
    requires Count(attempts, Exclusion.LiveOf(id)) == 0
    ensures OutcomesOk(y, attempts, id)
  {
    forall i | 0 <= i < |attempts| && attempts[i].id == id
      ensures OutcomeOk(y, attempts[i])
    {
      if Live(attempts[i]) {
        CountMember(attempts, i, Exclusion.LiveOf(id));
      }
    }
  }

  lemma OneLiveOutcome(y: View, attempts: seq<Attempt>, i: nat, a': Attempt, id: ID)
    requires i < |attempts| && attempts[i].id == id && Live(attempts[i]) && a'.id == id
    requires Count(attempts, Exclusion.LiveOf(id)) == 1 && OutcomeOk(y, a')
    ensures OutcomesOk(y, attempts[i := a'], id)
  {
    var moved := attempts[i := a'];
    forall j | 0 <= j < |moved| && moved[j].id == id
      ensures OutcomeOk(y, moved[j])
    {
      if j != i && Live(attempts[j]) {
        CountPair(attempts, if i < j then i else j, if i < j then j else i, Exclusion.LiveOf(id));
      }
    }
  }

  lemma BookedOnStep(s: State, e: Event, id: ID)
    requires e.Step? && Steps(s, e.attempt, id)
    requires Booked(s, id) && Exclusion.Exclusive(s, id) && Ledger.Inv(s, id)
    requires Smooth(ViewOf(Apply(s, e), id)) && Retries.Clean(ViewOf(Apply(s, e), id))
    ensures Booked(Apply(s, e), id)
  {
    hide Apply, ViewOf, NextAttempt, NextLoop, PerformView, Count, OutcomeOk, BooksOk, Smooth, Retries.Clean;
    hide Live, Running, Open;
    hide Ledger.AttemptOk, Ledger.CountsOk, Ledger.JobOk, Exclusion.OwnersOk, Exclusion.HolderOk;
    var i, x := e.attempt, ViewOf(s, id);
    var a := s.attempts[i];
    var (c, a') := NextAttempt(x, a, e.ok, e.note, s.now);
    var y := PerformView(x, c, s.now);
    Projects(s, e, id);
    Moves(s, e);
    AttemptCounts(s, e, id, Exclusion.LiveOf(id));
    AttemptCounts(s, e, id, RunningOf(id));
    AttemptCounts(s, e, id, OpenOf(id));
    LoopCounts(s, e, id, Exclusion.HoldingOf(id));
    NextAttemptKeeps(x, a, e.ok, e.note, s.now);
    assert ViewOf(Apply(s, e), id) == y;
    var running, open := Count(s.attempts, RunningOf(id)), Count(s.attempts, OpenOf(id));
    BookedHolding(s, id);
    if Live(a) {
      CountMember(s.attempts, i, Exclusion.LiveOf(id));
      LiveStep(x, a, e.ok, e.note, s.now, running, open);
      OneLiveOutcome(y, s.attempts, i, a', id);
    } else {
      IdleStates(a);
      IdleStep(x, a, e.ok, e.note, s.now, Count(s.attempts, Exclusion.LiveOf(id)), running, open);
      IdleStates(a');
      OutcomesSame(x, y, s.attempts, id);
    }
  }

  lemma BookedHolding(s: State, id: ID)
    requires Booked(s, id)
    ensures Count(s.loops, Exclusion.HoldingOf(id)) == 0
  {
  }

  lemma IdleStates(a: Attempt)
    requires !Live(a) || a.pc == Ended
    ensures a.pc == Ended || a.pc == Ack(AfterRequeue)
    ensures !Live(a) && !Running(a) && !Open(a)
  {
  }

  /** A sweep never finds the job stale: only a live attempt leaves it in processing. */
  lemma BookedOnSweep(s: State, e: Event, id: ID)
    requires e.Sweep? && Sweeps(s, e.loop, id) && |s.loops| <= 1
    requires Booked(s, id) && Exclusion.Exclusive(s, id) && Exclusion.ClockOk(s) && id !in s.late
    ensures Booked(Apply(s, e), id)
  {
    hide Apply, NextAttempt, NextLoop, PerformView, Count, OutcomeOk, TallyOf;
    hide Exclusion.OwnersOk, Exclusion.HolderOk, Exclusion.ClockOk;
    var x := ViewOf(s, id);
    var l := s.loops[0];
    var y := PerformView(x, NextLoop(x, l, e.ok).0, s.now);
    Projects(s, e, id);
    Moves(s, e);
    AttemptCounts(s, e, id, Exclusion.LiveOf(id));
    AttemptCounts(s, e, id, RunningOf(id));
    AttemptCounts(s, e, id, OpenOf(id));
    LoopCounts(s, e, id, Exclusion.HoldingOf(id));
    assert ViewOf(Apply(s, e), id) == y;
    Exclusion.SoleLoop(s.loops, id);
    assert l.Scanning?;
    if x.job.Some? && Stuck(x.job.value, l.threshold) {
      Exclusion.StuckHasNoOwner(s, 0, id);
      assert false;
    }
    hide ViewOf;
    QuietSweep(x, l, e.ok, s.now);
    OutcomesSame(x, y, s.attempts, id);
  }

  lemma QuietSweep(x: View, l: Loop, ok: bool, now: nat)
    requires l.Scanning? && Subject(l).Some? && !(x.job.Some? && Stuck(x.job.value, l.threshold))
    ensures var (c, l') := NextLoop(x, l, ok);
      var y := PerformView(x, c, now);
      && l'.Scanning? && y == x.(log := y.log) && y.log == x.log.(getFaults := y.log.getFaults)
  {
  }

  lemma BookedOnOthers(s: State, e: Event, id: ID)
    requires !(e.Step? && Steps(s, e.attempt, id)) && !(e.Sweep? && Sweeps(s, e.loop, id))
    requires Booked(s, id) && Exclusion.Exclusive(s, id)
    requires Smooth(ViewOf(Apply(s, e), id)) && Retries.Clean(ViewOf(Apply(s, e), id))
    ensures Booked(Apply(s, e), id)
  {
    hide Apply, ViewOf, NextAttempt, NextLoop, Count, RunningOn, Threshold;
    hide Exclusion.OwnersOk, Exclusion.HolderOk, OutcomesOk;
    var x, y := ViewOf(s, id), ViewOf(Apply(s, e), id);
    Projects(s, e, id);
    AttemptCounts(s, e, id, Exclusion.LiveOf(id));
    AttemptCounts(s, e, id, RunningOf(id));
    AttemptCounts(s, e, id, OpenOf(id));
    LoopCounts(s, e, id, Exclusion.HoldingOf(id));
    OutcomesOnOthers(s, e, id);
  }

  lemma OutcomesOnOthers(s: State, e: Event, id: ID)
    requires !(e.Step? && Steps(s, e.attempt, id)) && !(e.Sweep? && Sweeps(s, e.loop, id))
    requires Booked(s, id) && Exclusion.Exclusive(s, id)
    requires Retries.Clean(ViewOf(Apply(s, e), id))
    ensures OutcomesOk(ViewOf(Apply(s, e), id), Apply(s, e).attempts, id)
  {
    hide Apply, ViewOf, NextAttempt, NextLoop, Count, RunningOn, Threshold, OutcomeOk;
    hide Exclusion.OwnersOk, Exclusion.HolderOk;
    var x, y := ViewOf(s, id), ViewOf(Apply(s, e), id);
    Projects(s, e, id);
    Moves(s, e);
    FreshOutcome(y);
    if e.PublishSet? && e.id == id && e.ok {
      NoLiveOutcomes(y, s.attempts, id);
    } else {
      OutcomesSame(x, y, s.attempts, id);
    }
    if e.Step? && e.attempt < |s.attempts| {
      var a := s.attempts[e.attempt];
      NextAttemptKeeps(ViewOf(s, a.id), a, e.ok, e.note, s.now);
    }
  }

  lemma FreshOutcome(y: View)
    ensures forall a: Attempt :: a.pc == Ended || a.pc == ProcGet ==> OutcomeOk(y, a)
  {
  }

  lemma SmoothBefore(s: State, e: Event, id: ID)
    ensures Smooth(ViewOf(Apply(s, e), id)) ==> Smooth(ViewOf(s, id))
  {
    hide Apply, ViewOf, NextAttempt, NextLoop, TallyAfter, RunningOn;
    Projects(s, e, id);
    match e
    case Step(i, ok, note) =>
      if Steps(s, i, id) {
        TallyMoves(ViewOf(s, id).log, NextAttempt(ViewOf(s, id), s.attempts[i], ok, note, s.now).0);
      }
    case Sweep(l, ok) =>
      if Sweeps(s, l, id) {
        TallyMoves(ViewOf(s, id).log, NextLoop(ViewOf(s, id), s.loops[l], ok).0);
      }
    case _ =>
  }

  predicate Inv(s: State, id: ID) {
    Untroubled(s, id) ==> Booked(s, id)
  }

  lemma Keeps(s: State, e: Event, id: ID)
    requires Inv(s, id) && Exclusion.Inv(s, id) && Ledger.Inv(s, id)
    ensures Inv(Apply(s, e), id)
  {
    hide Apply, ViewOf, Booked, Smooth, Retries.Clean;
    hide Exclusion.Exclusive, Exclusion.ClockOk, Exclusion.Punctual, Ledger.Inv;
    if Untroubled(Apply(s, e), id) {
      Retries.RegularBefore(s, e, id);
      SmoothBefore(s, e, id);
      assert id !in s.late by { NotLate(s, id); }
      if e.Step? && Steps(s, e.attempt, id) {
        BookedOnStep(s, e, id);
      } else if e.Sweep? && Sweeps(s, e.loop, id) {
        BookedOnSweep(s, e, id);
      } else {
        BookedOnOthers(s, e, id);
      }
    }
  }

  lemma NotLate(s: State, id: ID)
    requires Exclusion.Punctual(s, id)
    ensures id !in s.late
  {
  }

  lemma {:induction false} KeepsAlways(s: State, es: seq<Event>, id: ID)
    requires Inv(s, id) && Exclusion.Inv(s, id) && Ledger.Inv(s, id)
    ensures Inv(Exec(s, es), id)
    decreases |es|
  {
    hide Inv, Exclusion.Inv, Ledger.Inv, Apply;
    if es != [] {
      Keeps(s, es[0], id);
      Exclusion.Keeps(s, es[0], id);
      Ledger.Keeps(s, es[0], id);
      KeepsAlways(Apply(s, es[0]), es[1..], id);
    }
  }

  lemma Starts(loops: nat, stuck: nat, id: ID)
    requires loops <= 1
    ensures Inv(Init(loops, stuck), id)
  {
    var s := Init(loops, stuck);
    hide Init, ViewOf, Count, Exclusion.LiveOf, Exclusion.HoldingOf, RunningOf, OpenOf, Untroubled;
    InitIsIdle(loops, stuck, id);
    CountZero(s.loops, Exclusion.HoldingOf(id)) by { IdleLoops(s, id); }
    CountZero(s.attempts, RunningOf(id));
    CountZero(s.attempts, OpenOf(id));
    CountZero(s.attempts, Exclusion.LiveOf(id));
  }

  lemma IdleLoops(s: State, id: ID)
    requires forall l :: 0 <= l < |s.loops| ==> s.loops[l] == Waiting
    ensures forall l :: 0 <= l < |s.loops| ==> !Exclusion.HoldingOf(id)(s.loops[l])
  {
  }

  /** In an untroubled run no job is ever recovered, each is taken at most four times, and a dead
      one exactly four; and once a published job that has not succeeded is neither waiting nor
      being worked on, it is dead.  (docs/GETTING_STARTED.md says three.) */
  lemma ExhaustedAfterFour(loops: nat, stuck: nat, es: seq<Event>, id: ID)
    requires loops <= 1
    ensures var s := Exec(Init(loops, stuck), es);
      var x := ViewOf(s, id);
      Untroubled(s, id) ==>
        && x.log.recoveries == 0
        && x.log.consumed <= 4
        && (x.dead > 0 ==> x.dead == 1 && x.finished == 0 && x.log.consumed == x.log.failures == 4)
        && (x.log.published > 0 && x.finished == 0 && x.main == 0 && Count(s.attempts, OpenOf(id)) == 0 ==>
              x.dead == 1)
  {
    hide Apply, Init, Exec, ViewOf, Exclusion.Inv, Retries.Counted, Count, Ledger.AttemptsOk;
    var s := Exec(Init(loops, stuck), es);
    Starts(loops, stuck, id);
    Retries.Starts(loops, stuck, id);
    KeepsAlways(Init(loops, stuck), es, id);
    Retries.KeepsAlways(Init(loops, stuck), es, id);
    if Untroubled(s, id) {
      Exhausted(ViewOf(s, id), Count(s.attempts, Exclusion.LiveOf(id)), Count(s.loops, Exclusion.HoldingOf(id)),
                Count(s.attempts, RunningOf(id)), Count(s.attempts, OpenOf(id))) by {
        assert Retries.CounterOk(ViewOf(s, id)) by { CountedCounter(s, id); }
      }
    }
  }

  lemma CountedCounter(s: State, id: ID)
    requires Retries.Counted(s, id)
    ensures Retries.CounterOk(ViewOf(s, id))
  {
  }

  lemma Exhausted(x: View, live: nat, holding: nat, running: nat, open: nat)
    requires Ledger.JobOk(x) && Retries.CounterOk(x) && BooksOk(x, live, holding, running, open)
    requires x.log.submitted <= 1
    ensures x.log.recoveries == 0 && x.log.consumed <= 4
    ensures x.dead > 0 ==>
              x.dead == 1 && x.finished == 0 && x.log.consumed == x.log.failures == 4
    ensures x.log.published > 0 && x.finished == 0 && x.main == 0 && open == 0 ==> x.dead == 1
  {
  }
}
