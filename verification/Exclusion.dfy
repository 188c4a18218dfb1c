/** With one recovery loop, a job published once has at most one holder at a time, as long as no
    attempt is still running `stuck` after its SetJobProcessing write. */
module Exclusion {
  import opened Counting
  import opened Jobs
  import opened Protocol
  import opened Projection
  import Ledger

  function LiveOf(id: ID): Attempt -> bool {
    (a: Attempt) => a.id == id && Live(a)
  }

  /** A loop that has decided to recover the job and has not pushed it back yet. */
  function HoldingOf(id: ID): Loop -> bool {
    (l: Loop) => (l.Marking? || l.Unlisting? || l.Returning?) && l.id == id
  }

  /** Who may act on a job: its publisher, the main list, a live attempt, or recovery. */
  function Holders(x: View, live: int, holding: int): int {
    x.log.publishing + x.main + live + holding
  }

  predicate NotProcessing(x: View) {
    x.job.Some? ==> x.job.value.status != Processing
  }

  /** Only an attempt that is past its own SetJobProcessing write finds the job in processing, and
      then the record carries the second of that write. */
  predicate OwnerOk(x: View, a: Attempt) {
    match a.pc
    case ProcGet => NotProcessing(x)
    case ProcSet(_) => NotProcessing(x)
    case RequeueGet => NotProcessing(x)
    case RequeueSet(_) => NotProcessing(x)
    case RequeuePush => NotProcessing(x)
    case Ended => true
    case Ack(why) => why == AfterRequeue || MarkedBy(x, a)
    case _ => MarkedBy(x, a)
  }

  predicate MarkedBy(x: View, a: Attempt) {
    NotProcessing(x) || (a.wrote.Some? && x.job.value.updatedAt == Seconds(a.wrote.value))
  }

  predicate ViewOk(x: View, live: int, holding: int) {
    && Holders(x, live, holding) <= 1
    && (x.log.publishing > 0 || x.main > 0 ==> NotProcessing(x))
    && (x.log.submitted == 0 ==> Holders(x, live, holding) == 0 && x.job == None)
  }

  predicate HolderOk(x: View, l: Loop, id: ID) {
    (l.Unlisting? || l.Returning?) && l.id == id ==> NotProcessing(x)
  }

  predicate ThresholdOk(l: Loop, now: nat, stuck: nat) {
    !l.Waiting? ==> l.threshold <= Threshold(now, stuck)
  }

  predicate Punctual(s: State, id: ID) {
    ViewOf(s, id).log.submitted <= 1 && id !in s.late
  }

  predicate OwnersOk(x: View, attempts: seq<Attempt>, id: ID) {
    forall i :: 0 <= i < |attempts| && attempts[i].id == id ==> OwnerOk(x, attempts[i])
  }

  predicate Exclusive(s: State, id: ID) {
    var x := ViewOf(s, id);
    && ViewOk(x, Count(s.attempts, LiveOf(id)), Count(s.loops, HoldingOf(id)))
    && OwnersOk(x, s.attempts, id)
    && (forall l :: 0 <= l < |s.loops| ==> HolderOk(x, s.loops[l], id))
  }

  /** Nobody outstays the deadline unnoticed, and no sweep works with a cut-off from the future. */
  predicate ClockOk(s: State) {
    && (forall i :: 0 <= i < |s.attempts| && Overdue(s.attempts[i], s.now, s.stuck) ==> s.attempts[i].id in s.late)
    && (forall l :: 0 <= l < |s.loops| ==> ThresholdOk(s.loops[l], s.now, s.stuck))
  }

  predicate Inv(s: State, id: ID) {
    && |s.loops| <= 1
    && ClockOk(s)
    && (Punctual(s, id) ==> Exclusive(s, id))
  }

  /* ---- the clock ---- */

  lemma KeepsClock(s: State, e: Event)
    requires ClockOk(s)
    ensures ClockOk(Apply(s, e))
  {
    hide Apply, ViewOf, NextAttempt, NextLoop, Threshold, ThresholdOk, Overdue;
    Moves(s, e);
    var t := Apply(s, e);
    match e {
    case Tick(elapsed) => TickLate(s, e);
    case Consume => NotOverdue(s.now, s.stuck);
    case Crash(_) => NotOverdue(s.now, s.stuck);
    case Step(i, ok, note) =>
      if i < |s.attempts| && s.attempts[i].pc != Ended {
        StepNotOverdue(ViewOf(s, s.attempts[i].id), s.attempts[i], ok, note, s.now, s.stuck);
      }
    case Sweep(l, ok) =>
      if l < |s.loops| && Subject(s.loops[l]).Some? {
        NextLoopThreshold(ViewOf(s, Subject(s.loops[l]).value), s.loops[l], ok, s.now, s.stuck);
      }
    case _ =>
    }
    forall l | 0 <= l < |t.loops|
      ensures ThresholdOk(t.loops[l], t.now, t.stuck)
    {
      if l < |s.loops| {
        assert ThresholdOk(s.loops[l], s.now, s.stuck);
        ThresholdGrows(s.loops[l], s.now, t.now, s.stuck);
      }
      FreshThreshold(s, t.loops[l]);
    }
  }

  lemma TickLate(s: State, e: Event)
    requires e.Tick?
    ensures var t := Apply(s, e);
      forall i :: 0 <= i < |t.attempts| && Overdue(t.attempts[i], t.now, t.stuck) ==> t.attempts[i].id in t.late
  {
  }

  lemma NotOverdue(now: nat, stuck: nat)
    ensures forall a: Attempt :: a.pc == Ended || a.wrote == None ==> !Overdue(a, now, stuck)
  {
  }

  lemma StepNotOverdue(x: View, a: Attempt, ok: bool, note: Note, now: nat, stuck: nat)
    requires a.pc != Ended
    ensures Overdue(NextAttempt(x, a, ok, note, now).1, now, stuck) ==> Overdue(a, now, stuck)
    ensures NextAttempt(x, a, ok, note, now).1.id == a.id
  {
    hide MarkProcessing, MarkDone, MarkFailed, MarkRequeued;
  }

  lemma NextLoopThreshold(x: View, l: Loop, ok: bool, now: nat, stuck: nat)
    requires Subject(l).Some? && ThresholdOk(l, now, stuck)
    ensures ThresholdOk(NextLoop(x, l, ok).1, now, stuck)
  {
  }

  lemma ThresholdGrows(l: Loop, now: nat, then_: nat, stuck: nat)
    requires ThresholdOk(l, now, stuck) && now <= then_
    ensures ThresholdOk(l, then_, stuck)
  {
    SecondsMonotone(now - stuck, then_ - stuck);
  }

  lemma FreshThreshold(s: State, l: Loop)
    ensures l == Waiting || l == Scanning(s.redis.processing, Threshold(s.now, s.stuck)) ==>
            ThresholdOk(l, s.now, s.stuck)
  {
  }

  /* ---- one attempt moves ---- */

  lemma LiveRunningStep(x: View, a: Attempt, ok: bool, note: Note, now: nat, holding: int)
    requires Live(a) && Running(a) && OwnerOk(x, a) && Ledger.AttemptOk(x, a)
    requires ViewOk(x, 1, holding) && holding >= 0
    ensures var (c, a') := NextAttempt(x, a, ok, note, now);
      var y := PerformView(x, c, now);
      ViewOk(y, Bit(Live(a')), holding) && OwnerOk(y, a')
  {
    hide TallyAfter;
    TallyMoves(x.log, NextAttempt(x, a, ok, note, now).0);
  }

  lemma LiveSettlingStep(x: View, a: Attempt, ok: bool, note: Note, now: nat, holding: int)
    requires Live(a) && !Running(a) && OwnerOk(x, a) && Ledger.AttemptOk(x, a)
    requires ViewOk(x, 1, holding) && holding >= 0
    ensures var (c, a') := NextAttempt(x, a, ok, note, now);
      var y := PerformView(x, c, now);
      ViewOk(y, Bit(Live(a')), holding) && OwnerOk(y, a')
  {
    hide TallyAfter;
    TallyMoves(x.log, NextAttempt(x, a, ok, note, now).0);
  }

  /** A live attempt is the only holder, so it may write what it likes. */
  lemma LiveStep(x: View, a: Attempt, ok: bool, note: Note, now: nat, holding: int)
    requires Live(a) && OwnerOk(x, a) && Ledger.AttemptOk(x, a)
    requires ViewOk(x, 1, holding) && holding >= 0
    ensures var (c, a') := NextAttempt(x, a, ok, note, now);
      var y := PerformView(x, c, now);
      ViewOk(y, Bit(Live(a')), holding) && OwnerOk(y, a')
  {
    hide *;
    if Running(a) {
      LiveRunningStep(x, a, ok, note, now, holding);
    } else {
      LiveSettlingStep(x, a, ok, note, now, holding);
    }
  }

  lemma IdleStep(x: View, a: Attempt, ok: bool, note: Note, now: nat)
    requires a.pc == Ack(AfterRequeue)
    ensures var (c, a') := NextAttempt(x, a, ok, note, now);
      var y := PerformView(x, c, now);
      && a'.pc == Ended && y.job == x.job && y.main == x.main
      && y.log.submitted == x.log.submitted && y.log.publishing == x.log.publishing
  {
  }

  lemma OwnersSameJob(x: View, y: View, attempts: seq<Attempt>, id: ID)
    requires x.job == y.job && OwnersOk(x, attempts, id)
    ensures OwnersOk(y, attempts, id)
  {
  }

  /** Attempts that are not live own nothing, so any view suits them. */
  lemma NoLiveOwners(y: View, attempts: seq<Attempt>, id: ID)
    requires Count(attempts, LiveOf(id)) == 0
    ensures OwnersOk(y, attempts, id)
  {
    forall i | 0 <= i < |attempts| && attempts[i].id == id
      ensures OwnerOk(y, attempts[i])
    {
      if Live(attempts[i]) {
        CountMember(attempts, i, LiveOf(id));
      }
    }
  }

  lemma OneLiveOwner(y: View, attempts: seq<Attempt>, i: nat, a': Attempt, id: ID)
    requires i < |attempts| && attempts[i].id == id && Live(attempts[i]) && a'.id == id
    requires Count(attempts, LiveOf(id)) == 1 && OwnerOk(y, a')
    ensures OwnersOk(y, attempts[i := a'], id)
  {
    var moved := attempts[i := a'];
    forall j | 0 <= j < |moved| && moved[j].id == id
      ensures OwnerOk(y, moved[j])
    {
      if j != i && Live(attempts[j]) {
        CountPair(attempts, if i < j then i else j, if i < j then j else i, LiveOf(id));
      }
    }
  }

  lemma NoHolders(y: View, loops: seq<Loop>, id: ID)
    requires Count(loops, HoldingOf(id)) == 0
    ensures forall l :: 0 <= l < |loops| ==> HolderOk(y, loops[l], id)
  {
    forall l | 0 <= l < |loops|
      ensures HolderOk(y, loops[l], id)
    {
      if HoldingOf(id)(loops[l]) {
        CountMember(loops, l, HoldingOf(id));
      }
    }
  }

  lemma KeepsOnStep(s: State, e: Event, id: ID)
    requires e.Step? && Steps(s, e.attempt, id)
    requires Exclusive(s, id) && Ledger.Inv(s, id)
    ensures Exclusive(Apply(s, e), id)
  {
    hide Apply, ViewOf, NextAttempt, NextLoop, PerformView, Count, OwnerOk, ViewOk, HolderOk;
    hide Ledger.AttemptOk, Ledger.CountsOk, Ledger.JobOk;
    var i, x, t := e.attempt, ViewOf(s, id), Apply(s, e);
    var a := s.attempts[i];
    var (c, a') := NextAttempt(x, a, e.ok, e.note, s.now);
    var y := PerformView(x, c, s.now);
    Projects(s, e, id);
    Moves(s, e);
    AttemptCounts(s, e, id, LiveOf(id));
    LoopCounts(s, e, id, HoldingOf(id));
    NextAttemptKeeps(x, a, e.ok, e.note, s.now);
    assert ViewOf(t, id) == y;
    var live, holding := Count(s.attempts, LiveOf(id)), Count(s.loops, HoldingOf(id));
    if Live(a) {
      CountMember(s.attempts, i, LiveOf(id));
      OnlyHolder(x, live, holding);
      LiveStep(x, a, e.ok, e.note, s.now, holding);
      OneLiveOwner(y, s.attempts, i, a', id);
      NoHolders(y, s.loops, id);
    } else {
      IdleStep(x, a, e.ok, e.note, s.now);
      OwnersSameJob(x, y, s.attempts, id);
      SameHolders(x, y, live, holding);
      EndedOwns(y);
    }
  }

  lemma OnlyHolder(x: View, live: nat, holding: nat)
    requires ViewOk(x, live, holding) && live >= 1
    ensures live == 1 && holding == 0 && x.main == 0 && x.log.publishing == 0
  {
  }

  lemma SameHolders(x: View, y: View, live: nat, holding: nat)
    requires y.job == x.job && y.main == x.main
    requires y.log.submitted == x.log.submitted && y.log.publishing == x.log.publishing
    ensures ViewOk(x, live, holding) ==> ViewOk(y, live, holding)
    ensures forall l, id :: HolderOk(x, l, id) ==> HolderOk(y, l, id)
  {
  }

  lemma EndedOwns(y: View)
    ensures forall a: Attempt :: a.pc == Ended ==> OwnerOk(y, a)
  {
  }

  /* ---- the recovery loop moves ---- */

  /** A record found in processing and stale has no live owner: the owner would be overdue. */
  lemma StuckHasNoOwner(s: State, l: nat, id: ID)
    requires ClockOk(s) && Exclusive(s, id) && id !in s.late
    requires l < |s.loops| && s.loops[l].Scanning?
    requires s.redis.Find(id).Some? && Stuck(s.redis.Find(id).value, s.loops[l].threshold)
    ensures Count(s.attempts, LiveOf(id)) == 0
    ensures ViewOf(s, id).main == 0 && ViewOf(s, id).log.publishing == 0
  {
    var x := ViewOf(s, id);
    forall i | 0 <= i < |s.attempts|
      ensures !LiveOf(id)(s.attempts[i])
    {
      var a := s.attempts[i];
      if a.id == id && Live(a) {
        assert OwnerOk(x, a);
        assert ThresholdOk(s.loops[l], s.now, s.stuck);
        StuckMeansOverdue(a.wrote.value, s.now, s.stuck);
        assert Overdue(a, s.now, s.stuck);
      }
    }
    CountZero(s.attempts, LiveOf(id));
  }

  lemma SweepStep(x: View, l: Loop, ok: bool, now: nat, live: nat, holding: int, id: ID)
    requires Subject(l) == Some(id) && LoopHolds(l, id) <= holding
    requires ViewOk(x, live, holding) && HolderOk(x, l, id) && Ledger.LoopOk(l)
    requires l.Scanning? && x.job.Some? && Stuck(x.job.value, l.threshold) ==>
               x.main == 0 && x.log.publishing == 0 && live == 0 && holding == 0
    ensures var (c, l') := NextLoop(x, l, ok);
      var y := PerformView(x, c, now);
      && ViewOk(y, live, holding + LoopHolds(l', id) - LoopHolds(l, id))
      && HolderOk(y, l', id)
      && (live > 0 ==> y.job == x.job)
  {
    hide TallyAfter;
    TallyMoves(x.log, NextLoop(x, l, ok).0);
  }

  function LoopHolds(l: Loop, id: ID): nat {
    if HoldingOf(id)(l) then 1 else 0
  }

  lemma SoleLoop(loops: seq<Loop>, id: ID)
    requires |loops| == 1
    ensures Count(loops, HoldingOf(id)) == LoopHolds(loops[0], id)
  {
    assert loops[..0] == [];
  }

  lemma KeepsOnSweep(s: State, e: Event, id: ID)
    requires e.Sweep? && Sweeps(s, e.loop, id) && |s.loops| <= 1
    requires ClockOk(s) && Exclusive(s, id) && id !in s.late && Ledger.Inv(s, id)
    ensures Exclusive(Apply(s, e), id)
  {
    hide Apply, NextAttempt, NextLoop, PerformView, Count, OwnerOk, ViewOk, HolderOk, ClockOk, Stuck;
    hide Ledger.AttemptOk, Ledger.CountsOk, Ledger.JobOk, Ledger.LoopOk, TallyOf;
    var x, t := ViewOf(s, id), Apply(s, e);
    var l := s.loops[0];
    var (c, l') := NextLoop(x, l, e.ok);
    var y := PerformView(x, c, s.now);
    Projects(s, e, id);
    Moves(s, e);
    AttemptCounts(s, e, id, LiveOf(id));
    assert ViewOf(t, id) == y;
    var live, holding := Count(s.attempts, LiveOf(id)), Count(s.loops, HoldingOf(id));
    SoleLoop(s.loops, id);
    assert t.loops == [l'];
    SoleLoop(t.loops, id);
    if l.Scanning? && x.job.Some? && Stuck(x.job.value, l.threshold) {
      StuckHasNoOwner(s, 0, id);
    }
    SweepStep(x, l, e.ok, s.now, live, holding, id);
    if live > 0 {
      OwnersSameJob(x, y, s.attempts, id);
    } else {
      NoLiveOwners(y, s.attempts, id);
    }
  }

  /* ---- everything else ---- */

  lemma KeepsOnTake(s: State, e: Event, id: ID)
    requires e.Consume? && Exclusive(s, id)
    ensures Exclusive(Apply(s, e), id)
  {
    hide Apply, ViewOf, NextAttempt, NextLoop, Count, RunningOn;
    Projects(s, e, id);
    Moves(s, e);
    AttemptCounts(s, e, id, LiveOf(id));
    LoopCounts(s, e, id, HoldingOf(id));
    OwnersSameJob(ViewOf(s, id), ViewOf(Apply(s, e), id), s.attempts, id);
  }

  lemma KeepsOnPublish(s: State, e: Event, id: ID)
    requires (e.PublishSet? || e.PublishPush? || e.PushBare?) && Exclusive(s, id)
    requires ViewOf(Apply(s, e), id).log.submitted <= 1
    ensures Exclusive(Apply(s, e), id)
  {
    hide Apply, ViewOf, NextAttempt, NextLoop, Count;
    Projects(s, e, id);
    Moves(s, e);
    AttemptCounts(s, e, id, LiveOf(id));
    LoopCounts(s, e, id, HoldingOf(id));
    var y := ViewOf(Apply(s, e), id);
    if e.PublishSet? && e.id == id && e.ok {
      NoLiveOwners(y, s.attempts, id);
      NoHolders(y, s.loops, id);
    } else {
      OwnersSameJob(ViewOf(s, id), y, s.attempts, id);
    }
  }

  lemma KeepsOnCrash(s: State, e: Event, id: ID)
    requires e.Crash? && Exclusive(s, id)
    ensures Exclusive(Apply(s, e), id)
  {
    hide Apply, ViewOf, NextAttempt, NextLoop, Count;
    Projects(s, e, id);
    Moves(s, e);
    AttemptCounts(s, e, id, LiveOf(id));
    LoopCounts(s, e, id, HoldingOf(id));
    OwnersSameJob(ViewOf(s, id), ViewOf(Apply(s, e), id), s.attempts, id);
    if Steps(s, e.attempt, id) && Live(s.attempts[e.attempt]) {
      CountMember(s.attempts, e.attempt, LiveOf(id));
    }
  }

  lemma KeepsOnExpiry(s: State, e: Event, id: ID)
    requires e.Expire? && Exclusive(s, id)
    ensures Exclusive(Apply(s, e), id)
  {
    hide Apply, ViewOf, NextAttempt, NextLoop, Count;
    Projects(s, e, id);
    Moves(s, e);
    AttemptCounts(s, e, id, LiveOf(id));
    LoopCounts(s, e, id, HoldingOf(id));
  }

  lemma KeepsOnOthers(s: State, e: Event, id: ID)
    requires e.Tick? || e.UploadRaw? || e.SweepStart? || e.LoopDies? ||
             (e.Step? && !Steps(s, e.attempt, id)) || (e.Sweep? && !Sweeps(s, e.loop, id))
    requires Exclusive(s, id)
    ensures Exclusive(Apply(s, e), id)
  {
    hide Apply, ViewOf, NextAttempt, Count, OwnerOk;
    Projects(s, e, id);
    Moves(s, e);
    if e.Step? && e.attempt < |s.attempts| {
      var a := s.attempts[e.attempt];
      NextAttemptKeeps(ViewOf(s, a.id), a, e.ok, e.note, s.now);
    }
    AttemptCounts(s, e, id, LiveOf(id));
    LoopCounts(s, e, id, HoldingOf(id));
    OwnersSameJob(ViewOf(s, id), ViewOf(Apply(s, e), id), s.attempts, id);
  }

  lemma SubmissionsGrow(s: State, e: Event, id: ID)
    ensures ViewOf(s, id).log.submitted <= ViewOf(Apply(s, e), id).log.submitted
  {
    hide Apply, ViewOf, NextAttempt, NextLoop, TallyAfter, RunningOn;
    Projects(s, e, id);
    match e
    case Step(i, ok, note) =>
      if Steps(s, i, id) {
        TallyMoves(ViewOf(s, id).log, NextAttempt(ViewOf(s, id), s.attempts[i], ok, note, s.now).0);
      }
    case Sweep(l, ok) =>
      if Sweeps(s, l, id) {
        TallyMoves(ViewOf(s, id).log, NextLoop(ViewOf(s, id), s.loops[l], ok).0);
      }
    case _ =>
  }

  lemma KeepsExclusive(s: State, e: Event, id: ID)
    requires |s.loops| <= 1 && ClockOk(s) && Exclusive(s, id) && Ledger.Inv(s, id)
    requires Punctual(s, id) && Punctual(Apply(s, e), id)
    ensures Exclusive(Apply(s, e), id)
  {
    hide Apply, ViewOf, Exclusive, ClockOk, Ledger.Inv;
    match e
    case Consume => KeepsOnTake(s, e, id);
    case PublishSet(_, _, _) => KeepsOnPublish(s, e, id);
    case PublishPush(_, _) => KeepsOnPublish(s, e, id);
    case PushBare(_) => KeepsOnPublish(s, e, id);
    case Crash(_) => KeepsOnCrash(s, e, id);
    case Expire(_) => KeepsOnExpiry(s, e, id);
    case Step(i, _, _) =>
      if Steps(s, i, id) { KeepsOnStep(s, e, id); } else { KeepsOnOthers(s, e, id); }
    case Sweep(l, _) =>
      if Sweeps(s, l, id) { KeepsOnSweep(s, e, id); } else { KeepsOnOthers(s, e, id); }
    case _ => KeepsOnOthers(s, e, id);
  }

  lemma Keeps(s: State, e: Event, id: ID)
    requires Inv(s, id) && Ledger.Inv(s, id)
    ensures Inv(Apply(s, e), id)
  {
    hide Apply, ViewOf, Exclusive, ClockOk, Ledger.Inv;
    KeepsClock(s, e);
    SubmissionsGrow(s, e, id);
    Moves(s, e);
    assert |Apply(s, e).loops| == |s.loops|;
    if Punctual(Apply(s, e), id) {
      KeepsExclusive(s, e, id);
    }
  }

  lemma {:induction false} KeepsAlways(s: State, es: seq<Event>, id: ID)
    requires Inv(s, id) && Ledger.Inv(s, id)
    ensures Inv(Exec(s, es), id) && Ledger.Inv(Exec(s, es), id)
    decreases |es|
  {
    hide Inv, Ledger.Inv, Apply;
    if es != [] {
      Keeps(s, es[0], id);
      Ledger.Keeps(s, es[0], id);
      KeepsAlways(Apply(s, es[0]), es[1..], id);
    }
  }

  predicate Idle(s: State) {
    |s.attempts| == 0 && forall l :: 0 <= l < |s.loops| ==> s.loops[l] == Waiting
  }

  lemma IdleCounts(s: State, id: ID)
    requires Idle(s)
    ensures ClockOk(s) && Count(s.attempts, LiveOf(id)) == 0 && Count(s.loops, HoldingOf(id)) == 0
  {
    hide ClockOk, Count;
    CountZero(s.attempts, LiveOf(id));
    CountZero(s.loops, HoldingOf(id));
    IdleClock(s);
  }

  lemma IdleClock(s: State)
    requires Idle(s)
    ensures ClockOk(s)
  {
  }

  lemma NothingYet(x: View, s: State, id: ID)
    requires Idle(s) && Blank(x)
    ensures ViewOk(x, 0, 0)
    ensures OwnersOk(x, s.attempts, id) && forall l :: 0 <= l < |s.loops| ==> HolderOk(x, s.loops[l], id)
  {
  }

  lemma Starts(loops: nat, stuck: nat, id: ID)
    requires loops <= 1
    ensures Inv(Init(loops, stuck), id) && Ledger.Inv(Init(loops, stuck), id)
  {
    hide ClockOk, ViewOk, OwnersOk, HolderOk, Ledger.Inv, ViewOf, Count, Init, Blank;
    InitIsIdle(loops, stuck, id);
    Ledger.Starts(loops, stuck, id);
    var s := Init(loops, stuck);
    NothingYet(ViewOf(s, id), s, id);
    IdleCounts(s, id);
  }

  /** The publisher, the main list, the live attempts and recovery together hold a job once at most. */
  predicate AtMostOneHolder(s: State, id: ID) {
    && Holders(ViewOf(s, id), Count(s.attempts, LiveOf(id)), Count(s.loops, HoldingOf(id))) <= 1
    && (forall i, j :: 0 <= i < j < |s.attempts| && LiveOf(id)(s.attempts[i]) ==> !LiveOf(id)(s.attempts[j]))
    && (forall i :: 0 <= i < |s.attempts| && LiveOf(id)(s.attempts[i]) ==> id !in s.redis.main)
    && (forall l :: 0 <= l < |s.loops| && HoldingOf(id)(s.loops[l]) ==>
          id !in s.redis.main && forall i :: 0 <= i < |s.attempts| ==> !LiveOf(id)(s.attempts[i]))
  }

  lemma HoldersApart(s: State, id: ID)
    requires Holders(ViewOf(s, id), Count(s.attempts, LiveOf(id)), Count(s.loops, HoldingOf(id))) <= 1
    ensures AtMostOneHolder(s, id)
  {
    hide Count;
    assert ViewOf(s, id).main > 0 <==> id in s.redis.main;
    hide ViewOf;
    forall i, j | 0 <= i < j < |s.attempts| && LiveOf(id)(s.attempts[i])
      ensures !LiveOf(id)(s.attempts[j])
    {
      if LiveOf(id)(s.attempts[j]) {
        CountPair(s.attempts, i, j, LiveOf(id));
      }
    }
    forall i | 0 <= i < |s.attempts| && LiveOf(id)(s.attempts[i])
      ensures id !in s.redis.main && Count(s.loops, HoldingOf(id)) == 0
    {
      CountMember(s.attempts, i, LiveOf(id));
    }
    forall l | 0 <= l < |s.loops| && HoldingOf(id)(s.loops[l])
      ensures id !in s.redis.main
      ensures forall i :: 0 <= i < |s.attempts| ==> !LiveOf(id)(s.attempts[i])
    {
      CountMember(s.loops, l, HoldingOf(id));
    }
  }

  /** Mutual exclusion in real time. */
  lemma OneHolder(loops: nat, stuck: nat, es: seq<Event>, id: ID)
    requires loops <= 1
    ensures var s := Exec(Init(loops, stuck), es);
      Punctual(s, id) ==> AtMostOneHolder(s, id)
  {
    hide Apply, Exec, Init, OwnersOk, HolderOk, ClockOk, Ledger.Inv, AtMostOneHolder, ViewOf, Count;
    var s := Exec(Init(loops, stuck), es);
    Starts(loops, stuck, id);
    KeepsAlways(Init(loops, stuck), es, id);
    if Punctual(s, id) {
      HoldersApart(s, id);
    }
  }

  /* ---- no overlap ---- */

  lemma OverlapsOnTake(s: State, e: Event, id: ID)
    ensures ViewOf(Apply(s, e), id).log.overlapped ==>
              ViewOf(s, id).log.overlapped || (e.Consume? && ViewOf(s, id).main > 0 && RunningOn(s, id))
  {
    hide Apply, ViewOf, NextAttempt, NextLoop, TallyAfter, RunningOn, RemovingOn;
    Projects(s, e, id);
    match e
    case Step(i, ok, note) =>
      if Steps(s, i, id) {
        TallyMoves(ViewOf(s, id).log, NextAttempt(ViewOf(s, id), s.attempts[i], ok, note, s.now).0);
      }
    case Sweep(l, ok) =>
      if Sweeps(s, l, id) {
        TallyMoves(ViewOf(s, id).log, NextLoop(ViewOf(s, id), s.loops[l], ok).0);
      }
    case _ =>
  }

  /** A running attempt holds the job, so the main list does not. */
  lemma RunningHolds(s: State, id: ID)
    requires Exclusive(s, id) && RunningOn(s, id)
    ensures ViewOf(s, id).main == 0
  {
    hide ViewOf, Count, OwnersOk, HolderOk;
    var i :| 0 <= i < |s.attempts| && s.attempts[i].id == id && Running(s.attempts[i]);
    CountMember(s.attempts, i, LiveOf(id));
  }

  predicate Apart(s: State, id: ID) {
    Punctual(s, id) ==> !ViewOf(s, id).log.overlapped
  }

  lemma KeepsApart(s: State, e: Event, id: ID)
    requires Inv(s, id) && Apart(s, id)
    ensures Apart(Apply(s, e), id)
  {
    hide Apply, ViewOf, Exclusive, ClockOk, RunningOn;
    SubmissionsGrow(s, e, id);
    Moves(s, e);
    OverlapsOnTake(s, e, id);
    if Punctual(Apply(s, e), id) && RunningOn(s, id) {
      RunningHolds(s, id);
    }
  }

  lemma {:induction false} AlwaysApart(s: State, es: seq<Event>, id: ID)
    requires Inv(s, id) && Ledger.Inv(s, id) && Apart(s, id)
    ensures Apart(Exec(s, es), id)
    decreases |es|
  {
    hide Inv, Ledger.Inv, Apply, Apart;
    if es != [] {
      Keeps(s, es[0], id);
      Ledger.Keeps(s, es[0], id);
      KeepsApart(s, es[0], id);
      AlwaysApart(Apply(s, es[0]), es[1..], id);
    }
  }

  /** Attempts that are never late never overlap. */
  lemma NeverOverlapped(loops: nat, stuck: nat, es: seq<Event>, id: ID)
    requires loops <= 1
    ensures var s := Exec(Init(loops, stuck), es);
      Punctual(s, id) ==> !ViewOf(s, id).log.overlapped
  {
    hide Apply, Exec, Init, Inv, Ledger.Inv, ViewOf;
    Starts(loops, stuck, id);
    InitIsIdle(loops, stuck, id);
    AlwaysApart(Init(loops, stuck), es, id);
  }
}
