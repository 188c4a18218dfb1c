/** The retry counter: exact although every update is a GET and a later SET, because of the
    exclusion; and what it limits. */
module Retries {
  import opened Counting
  import opened Jobs
  import opened Protocol
  import opened Projection
  import Ledger
  import Exclusion

  /** Published once; every read and write of the record has succeeded and it has not expired. */
  predicate Clean(x: View) {
    x.log.submitted <= 1 && x.log.getFaults == 0 && x.log.setFaults == 0 && x.log.expiries == 0
  }

  /** The stored count; an ID submitted by a bare LPUSH has no record at first, and counts from 0. */
  function StoredCount(x: View): nat {
    CountOf(x.job)
  }

  predicate CounterOk(x: View) {
    && StoredCount(x) == x.log.failures + x.log.recoveries
    && (x.log.submitted > x.log.bare ==> x.job.Some?)
    && (x.log.submitted == 0 ==> x.log.failures + x.log.recoveries == 0)
    && x.log.requeues <= StoredCount(x)
    && x.log.requeues <= MAX_JOB_RETRIES
    && (x.dead > 0 ==> StoredCount(x) > MAX_JOB_RETRIES)
  }

  /** What an attempt has read is still what is stored. */
  predicate ReadOk(x: View, a: Attempt) {
    match a.pc
    case ProcSet(job) => job.retryCount == StoredCount(x)
    case DoneSet(job) => job.retryCount == StoredCount(x)
    case FailSet(job) => job.retryCount == StoredCount(x) + 1
    case RequeueGet => Retriable(x)
    case RequeueSet(job) => Retriable(x) && job.retryCount == x.job.value.retryCount
    case RequeuePush => Retriable(x)
    case Bury(failed) =>
      x.job.Some? && failed.Some? && failed.value.retryCount == x.job.value.retryCount
    case _ => true
  }

  predicate Retriable(x: View) {
    x.job.Some? && x.log.requeues < x.job.value.retryCount <= MAX_JOB_RETRIES
  }

  predicate MarkOk(x: View, l: Loop, id: ID) {
    l.Marking? && l.id == id ==> x.job.Some? && l.job.retryCount == x.job.value.retryCount + 1
  }

  predicate ReadsOk(x: View, attempts: seq<Attempt>, id: ID) {
    forall i :: 0 <= i < |attempts| && attempts[i].id == id ==> ReadOk(x, attempts[i])
  }

  predicate Counted(s: State, id: ID) {
    var x := ViewOf(s, id);
    && CounterOk(x)
    && ReadsOk(x, s.attempts, id)
    && forall l :: 0 <= l < |s.loops| ==> MarkOk(x, s.loops[l], id)
  }

  predicate Regular(s: State, id: ID) {
    Exclusion.Punctual(s, id) && Clean(ViewOf(s, id))
  }

  lemma RunningStep(x: View, a: Attempt, ok: bool, note: Note, now: nat)
    requires Running(a) && CounterOk(x) && ReadOk(x, a) && Ledger.AttemptOk(x, a) && x.log.submitted > 0
    ensures var (c, a') := NextAttempt(x, a, ok, note, now);
      var y := PerformView(x, c, now);
      Clean(y) ==> CounterOk(y) && ReadOk(y, a')
  {
    hide TallyAfter;
    TallyMoves(x.log, NextAttempt(x, a, ok, note, now).0);
  }

  lemma SettlingStep(x: View, a: Attempt, ok: bool, note: Note, now: nat)
    requires !Running(a) && CounterOk(x) && ReadOk(x, a) && Ledger.AttemptOk(x, a) && x.log.submitted > 0
    ensures var (c, a') := NextAttempt(x, a, ok, note, now);
      var y := PerformView(x, c, now);
      Clean(y) ==> CounterOk(y) && ReadOk(y, a')
  {
    hide TallyAfter;
    TallyMoves(x.log, NextAttempt(x, a, ok, note, now).0);
  }

  lemma SweepStep(x: View, l: Loop, ok: bool, now: nat, id: ID)
    requires Subject(l) == Some(id) && CounterOk(x) && MarkOk(x, l, id)
    requires x.job.Some? ==> x.log.submitted > 0
    ensures var (c, l') := NextLoop(x, l, ok);
      var y := PerformView(x, c, now);
      CounterOk(y) && MarkOk(y, l', id)
  {
    hide TallyAfter;
    TallyMoves(x.log, NextLoop(x, l, ok).0);
  }

  lemma ReadsSame(x: View, y: View, attempts: seq<Attempt>, id: ID)
    requires y.job == x.job && y.log.requeues == x.log.requeues && ReadsOk(x, attempts, id)
    ensures ReadsOk(y, attempts, id)
  {
  }

  lemma NoLiveReads(y: View, attempts: seq<Attempt>, id: ID)
    requires Count(attempts, Exclusion.LiveOf(id)) == 0
    ensures ReadsOk(y, attempts, id)
  {
    forall i | 0 <= i < |attempts| && attempts[i].id == id
      ensures ReadOk(y, attempts[i])
    {
      if Live(attempts[i]) {
        CountMember(attempts, i, Exclusion.LiveOf(id));
      }
    }
  }

  lemma OneLiveRead(y: View, attempts: seq<Attempt>, i: nat, a': Attempt, id: ID)
    requires i < |attempts| && attempts[i].id == id && Live(attempts[i]) && a'.id == id
    requires Count(attempts, Exclusion.LiveOf(id)) == 1 && ReadOk(y, a')
    ensures ReadsOk(y, attempts[i := a'], id)
  {
    var moved := attempts[i := a'];
    forall j | 0 <= j < |moved| && moved[j].id == id
      ensures ReadOk(y, moved[j])
    {
      if j != i && Live(attempts[j]) {
        CountPair(attempts, if i < j then i else j, if i < j then j else i, Exclusion.LiveOf(id));
      }
    }
  }

  lemma NoMarks(y: View, loops: seq<Loop>, id: ID)
    requires Count(loops, Exclusion.HoldingOf(id)) == 0
    ensures forall l :: 0 <= l < |loops| ==> MarkOk(y, loops[l], id)
  {
    forall l | 0 <= l < |loops|
      ensures MarkOk(y, loops[l], id)
    {
      if Exclusion.HoldingOf(id)(loops[l]) {
        CountMember(loops, l, Exclusion.HoldingOf(id));
      }
    }
  }

  lemma CountedOnStep(s: State, e: Event, id: ID)
    requires e.Step? && Steps(s, e.attempt, id)
    requires Counted(s, id) && Exclusion.Exclusive(s, id) && Ledger.Inv(s, id)
    requires Clean(ViewOf(Apply(s, e), id))
    ensures Counted(Apply(s, e), id)
  {
    hide Apply, ViewOf, NextAttempt, NextLoop, PerformView, Count, ReadOk, MarkOk, CounterOk, Clean;
    hide Ledger.AttemptOk, Ledger.CountsOk, Ledger.JobOk, Exclusion.OwnersOk, Exclusion.HolderOk;
    var i, x := e.attempt, ViewOf(s, id);
    var a := s.attempts[i];
    var (c, a') := NextAttempt(x, a, e.ok, e.note, s.now);
    var y := PerformView(x, c, s.now);
    Projects(s, e, id);
    Moves(s, e);
    NextAttemptKeeps(x, a, e.ok, e.note, s.now);
    assert ViewOf(Apply(s, e), id) == y;
    if Live(a) {
      CountMember(s.attempts, i, Exclusion.LiveOf(id));
      if Running(a) {
        RunningStep(x, a, e.ok, e.note, s.now);
      } else {
        SettlingStep(x, a, e.ok, e.note, s.now);
      }
      OneLiveRead(y, s.attempts, i, a', id);
      NoMarks(y, s.loops, id);
    } else {
      IdleStep(x, a, e.ok, e.note, s.now, s.loops, id);
      ReadsSame(x, y, s.attempts, id);
      assert ReadOk(y, a') by { EndedReads(y); }
    }
  }

  lemma IdleStep(x: View, a: Attempt, ok: bool, note: Note, now: nat, loops: seq<Loop>, id: ID)
    requires a.pc == Ack(AfterRequeue) && CounterOk(x) && forall l :: 0 <= l < |loops| ==> MarkOk(x, loops[l], id)
    ensures var (c, a') := NextAttempt(x, a, ok, note, now);
      var y := PerformView(x, c, now);
      && a'.pc == Ended && y.job == x.job && y.log.requeues == x.log.requeues && CounterOk(y)
      && forall l :: 0 <= l < |loops| ==> MarkOk(y, loops[l], id)
  {
  }

  lemma EndedReads(y: View)
    ensures forall a: Attempt :: a.pc == Ended || a.pc == ProcGet ==> ReadOk(y, a)
  {
  }

  lemma CountedOnSweep(s: State, e: Event, id: ID)
    requires e.Sweep? && Sweeps(s, e.loop, id) && |s.loops| <= 1
    requires Counted(s, id) && Exclusion.Exclusive(s, id)
    ensures Counted(Apply(s, e), id)
  {
    hide Apply, ViewOf, NextAttempt, NextLoop, PerformView, Count, ReadOk, MarkOk, CounterOk;
    hide Exclusion.OwnersOk, Exclusion.HolderOk;
    var x := ViewOf(s, id);
    var l := s.loops[0];
    var y := PerformView(x, NextLoop(x, l, e.ok).0, s.now);
    Projects(s, e, id);
    Moves(s, e);
    assert ViewOf(Apply(s, e), id) == y;
    SweepStep(x, l, e.ok, s.now, id);
    Exclusion.SoleLoop(s.loops, id);
    if l.Marking? {
      NoLiveReads(y, s.attempts, id);
    } else {
      SweepReads(x, l, e.ok, s.now);
      ReadsSame(x, y, s.attempts, id);
    }
  }

  lemma SweepReads(x: View, l: Loop, ok: bool, now: nat)
    requires Subject(l).Some? && !l.Marking?
    ensures var y := PerformView(x, NextLoop(x, l, ok).0, now);
      y.job == x.job && y.log.requeues == x.log.requeues
  {
  }

  lemma CounterOnOthers(s: State, e: Event, id: ID)
    requires !(e.Step? && Steps(s, e.attempt, id)) && !(e.Sweep? && Sweeps(s, e.loop, id))
    requires Counted(s, id) && Exclusion.Exclusive(s, id)
    requires Clean(ViewOf(Apply(s, e), id))
    ensures CounterOk(ViewOf(Apply(s, e), id))
  {
    hide Apply, ViewOf, NextAttempt, NextLoop, PerformView, Count, ReadsOk, MarkOk, RunningOn, RemovingOn, Seconds;
    hide Exclusion.OwnersOk, Exclusion.HolderOk;
    Projects(s, e, id);
  }

  lemma ReadsOnOthers(s: State, e: Event, id: ID)
    requires !(e.Step? && Steps(s, e.attempt, id)) && !(e.Sweep? && Sweeps(s, e.loop, id))
    requires Counted(s, id) && Exclusion.Exclusive(s, id)
    requires Clean(ViewOf(Apply(s, e), id))
    ensures ReadsOk(ViewOf(Apply(s, e), id), Apply(s, e).attempts, id)
  {
    hide Apply, ViewOf, NextAttempt, NextLoop, PerformView, Count, ReadOk, RunningOn, RemovingOn, CounterOk;
    hide MarkOk, Seconds;
    hide Exclusion.OwnersOk, Exclusion.HolderOk;
    var x, y := ViewOf(s, id), ViewOf(Apply(s, e), id);
    Projects(s, e, id);
    Moves(s, e);
    EndedReads(y);
    if e.PublishSet? && e.id == id && e.ok {
      NoLiveReads(y, s.attempts, id);
    } else {
      ReadsSame(x, y, s.attempts, id);
    }
    if e.Step? && e.attempt < |s.attempts| {
      var a := s.attempts[e.attempt];
      NextAttemptKeeps(ViewOf(s, a.id), a, e.ok, e.note, s.now);
    }
  }

  lemma FreshMarks(y: View, l: Loop, id: ID)
    requires !l.Marking? || l.id != id
    ensures MarkOk(y, l, id)
  {
  }

  lemma MarksSame(x: View, y: View, loops: seq<Loop>, id: ID)
    requires y.job == x.job && forall l :: 0 <= l < |loops| ==> MarkOk(x, loops[l], id)
    ensures forall l :: 0 <= l < |loops| ==> MarkOk(y, loops[l], id)
  {
  }

  lemma MarksOnOthers(s: State, e: Event, id: ID)
    requires !(e.Step? && Steps(s, e.attempt, id)) && !(e.Sweep? && Sweeps(s, e.loop, id))
    requires Counted(s, id) && Exclusion.Exclusive(s, id)
    requires Clean(ViewOf(Apply(s, e), id))
    ensures var t := Apply(s, e);
      forall l :: 0 <= l < |t.loops| ==> MarkOk(ViewOf(t, id), t.loops[l], id)
  {
    hide Apply, ViewOf, NextAttempt, PerformView, Count, ReadsOk, RunningOn, RemovingOn, CounterOk, MarkOk;
    hide Threshold, Seconds;
    hide Exclusion.OwnersOk, Exclusion.HolderOk;
    var x, t := ViewOf(s, id), Apply(s, e);
    var y := ViewOf(t, id);
    Projects(s, e, id);
    Moves(s, e);
    if e.PublishSet? && e.id == id && e.ok {
      NoMarks(y, s.loops, id);
    } else {
      MarksSame(x, y, s.loops, id);
    }
    forall l | 0 <= l < |t.loops|
      ensures MarkOk(y, t.loops[l], id)
    {
      if !(t.loops[l].Marking? && t.loops[l].id == id) {
        FreshMarks(y, t.loops[l], id);
      }
    }
  }

  lemma CountedOnOthers(s: State, e: Event, id: ID)
    requires !(e.Step? && Steps(s, e.attempt, id)) && !(e.Sweep? && Sweeps(s, e.loop, id))
    requires Counted(s, id) && Exclusion.Exclusive(s, id)
    requires Clean(ViewOf(Apply(s, e), id))
    ensures Counted(Apply(s, e), id)
  {
    CounterOnOthers(s, e, id);
    ReadsOnOthers(s, e, id);
    MarksOnOthers(s, e, id);
    hide Apply, ViewOf, CounterOk, ReadsOk, MarkOk, Exclusion.Exclusive;
  }

  lemma FaultsGrow(s: State, e: Event, id: ID)
    ensures Clean(ViewOf(Apply(s, e), id)) ==> Clean(ViewOf(s, id))
  {
    hide Apply, ViewOf, NextAttempt, NextLoop, TallyAfter, RunningOn;
    Projects(s, e, id);
    match e
    case Step(i, ok, note) =>
      if Steps(s, i, id) {
        TallyMoves(ViewOf(s, id).log, NextAttempt(ViewOf(s, id), s.attempts[i], ok, note, s.now).0);
      }
    case Sweep(l, ok) =>
      if Sweeps(s, l, id) {
        TallyMoves(ViewOf(s, id).log, NextLoop(ViewOf(s, id), s.loops[l], ok).0);
      }
    case _ =>
  }

  lemma RegularBefore(s: State, e: Event, id: ID)
    requires Regular(Apply(s, e), id)
    ensures Regular(s, id)
  {
    hide Apply, ViewOf, Clean;
    FaultsGrow(s, e, id);
    Exclusion.SubmissionsGrow(s, e, id);
    Moves(s, e);
  }

  predicate Inv(s: State, id: ID) {
    Regular(s, id) ==> Counted(s, id)
  }

  lemma Keeps(s: State, e: Event, id: ID)
    requires Inv(s, id) && Exclusion.Inv(s, id) && Ledger.Inv(s, id)
    ensures Inv(Apply(s, e), id)
  {
    hide Apply, ViewOf, Clean, Counted, Exclusion.Exclusive, Exclusion.ClockOk, Exclusion.Punctual, Ledger.Inv;
    if Regular(Apply(s, e), id) {
      RegularBefore(s, e, id);
      if e.Step? && Steps(s, e.attempt, id) {
        CountedOnStep(s, e, id);
      } else if e.Sweep? && Sweeps(s, e.loop, id) {
        CountedOnSweep(s, e, id);
      } else {
        CountedOnOthers(s, e, id);
      }
    }
  }

  lemma {:induction false} KeepsAlways(s: State, es: seq<Event>, id: ID)
    requires Inv(s, id) && Exclusion.Inv(s, id) && Ledger.Inv(s, id)
    ensures Inv(Exec(s, es), id) && Exclusion.Inv(Exec(s, es), id) && Ledger.Inv(Exec(s, es), id)
    decreases |es|
  {
    hide Inv, Exclusion.Inv, Ledger.Inv, Apply;
    if es != [] {
      Keeps(s, es[0], id);
      Exclusion.Keeps(s, es[0], id);
      Ledger.Keeps(s, es[0], id);
      KeepsAlways(Apply(s, es[0]), es[1..], id);
    }
  }

  lemma Starts(loops: nat, stuck: nat, id: ID)
    requires loops <= 1
    ensures var s := Init(loops, stuck);
      Inv(s, id) && Exclusion.Inv(s, id) && Ledger.Inv(s, id)
  {
    hide Exclusion.Inv, Ledger.Inv, Init, ViewOf, Regular;
    Exclusion.Starts(loops, stuck, id);
    InitIsIdle(loops, stuck, id);
  }

  /** In every regular run the stored count is exactly the failures recorded by attempts plus the
      recoveries, no job is requeued by its workers more than MaxJobRetries times, and only an
      exhausted job is in the dead list. */
  lemma ExactCount(loops: nat, stuck: nat, es: seq<Event>, id: ID)
    requires loops <= 1
    ensures var s := Exec(Init(loops, stuck), es);
      var x := ViewOf(s, id);
      Regular(s, id) ==>
        && StoredCount(x) == x.log.failures + x.log.recoveries
        && (x.log.submitted > x.log.bare ==> x.job.Some?)
        && x.log.requeues <= 3
        && (id in s.redis.dead ==> StoredCount(x) >= 4)
  {
    hide Apply, Init, Exec, Exclusion.Inv, Ledger.Inv, Regular;
    Starts(loops, stuck, id);
    KeepsAlways(Init(loops, stuck), es, id);
    var s := Exec(Init(loops, stuck), es);
    assert ViewOf(s, id).dead > 0 <==> id in s.redis.dead;
    hide ViewOf;
  }

  lemma {:induction false} CountersGrow(s: State, es: seq<Event>, id: ID)
    ensures var x, y := ViewOf(s, id), ViewOf(Exec(s, es), id);
      x.log.failures <= y.log.failures && x.log.recoveries <= y.log.recoveries && x.log.submitted <= y.log.submitted
    ensures Regular(Exec(s, es), id) ==> Regular(s, id)
    decreases |es|
  {
    hide Apply, ViewOf, Regular;
    if es != [] {
      CountersGrowOnce(s, es[0], id);
      CountersGrow(Apply(s, es[0]), es[1..], id);
      if Regular(Apply(s, es[0]), id) {
        RegularBefore(s, es[0], id);
      }
    }
  }

  lemma CountersGrowOnce(s: State, e: Event, id: ID)
    ensures var x, y := ViewOf(s, id), ViewOf(Apply(s, e), id);
      x.log.failures <= y.log.failures && x.log.recoveries <= y.log.recoveries && x.log.submitted <= y.log.submitted
  {
    hide Apply, ViewOf, NextAttempt, NextLoop, TallyAfter, RunningOn;
    Projects(s, e, id);
    match e
    case Step(i, ok, note) =>
      if Steps(s, i, id) {
        TallyMoves(ViewOf(s, id).log, NextAttempt(ViewOf(s, id), s.attempts[i], ok, note, s.now).0);
      }
    case Sweep(l, ok) =>
      if Sweeps(s, l, id) {
        TallyMoves(ViewOf(s, id).log, NextLoop(ViewOf(s, id), s.loops[l], ok).0);
      }
    case _ =>
  }

  /** No update is lost: the stored count never goes down. */
  lemma CountNeverDrops(loops: nat, stuck: nat, es: seq<Event>, fs: seq<Event>, id: ID)
    requires loops <= 1
    requires Regular(Exec(Init(loops, stuck), es + fs), id)
    ensures var x := ViewOf(Exec(Init(loops, stuck), es), id);
      var y := ViewOf(Exec(Init(loops, stuck), es + fs), id);
      StoredCount(x) <= StoredCount(y)
  {
    hide Apply, Init, Exec, ViewOf, Exclusion.Inv, Ledger.Inv, Regular;
    ExecSplit(Init(loops, stuck), es, fs);
    CountersGrow(Exec(Init(loops, stuck), es), fs, id);
    ExactCount(loops, stuck, es, id);
    ExactCount(loops, stuck, es + fs, id);
  }

  /** A job is taken at most once more than it may be retried and has been recovered; recoveries
      alone have no bound. */
  lemma BoundedTakes(loops: nat, stuck: nat, es: seq<Event>, id: ID)
    requires loops <= 1
    ensures var s := Exec(Init(loops, stuck), es);
      var x := ViewOf(s, id);
      Regular(s, id) ==> x.log.consumed <= 4 + x.log.recoveries
  {
    hide Apply, Init, Exec, ViewOf, Counted, Ledger.AttemptsOk, Ledger.SourceOk, Count;
    Starts(loops, stuck, id);
    KeepsAlways(Init(loops, stuck), es, id);
    ExactCount(loops, stuck, es, id);
  }
}
