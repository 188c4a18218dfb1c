/** What holds of every ID in every reachable state, whatever fails, dies or overlaps. */
module Ledger {
  import opened Counting
  import opened Jobs
  import opened ObjectKeys
  import opened Protocol
  import opened Projection

  /** Attempts that have published, requeued, buried or lost the job and still hold its copy in
      :processing, which their acknowledgement will take away. */
  function Owing(id: ID): Attempt -> bool {
    (a: Attempt) => a.id == id && (a.pc == DoneGet || a.pc.DoneSet? || a.pc == HookGet || a.pc.Ack?)
  }

  /** Attempts that are past archiving and have not published yet. */
  function Passed(id: ID): Attempt -> bool {
    (a: Attempt) => a.id == id && (a.pc == UploadArtifacts || a.pc == Publish)
  }

  /** Loops between LREM and LPUSH. */
  function InHand(id: ID): Loop -> bool {
    (l: Loop) => l.Returning? && l.id == id
  }

  /** Attempts about to bury a job whose failure could not be written. */
  function Burying(id: ID): Attempt -> bool {
    (a: Attempt) => a.id == id && a.pc == Bury(None)
  }

  /** Loops that have counted a recovery and not yet pushed the job back. */
  function Moving(id: ID): Loop -> bool {
    (l: Loop) => (l.Unlisting? || l.Returning?) && l.id == id
  }

  function Uncounted(): Option<nat> -> bool {
    (d: Option<nat>) => d.None?
  }

  /** The archive holds the source as last uploaded. */
  predicate LatestArchived(x: View) {
    x.archived == Some(x.log.latest)
  }

  predicate SourceOk(x: View) {
    && (x.raw.Some? ==> x.log.uploads > 0 && x.raw.value == x.log.latest)
    && (x.archived.Some? || x.processed.Some? ==> x.log.uploads > 0)
    && (x.log.uploads > 0 ==> x.raw.Some? || (x.archived.Some? && x.processed.Some?))
    && (x.log.uploads > 0 && x.log.racing == 0 ==> x.raw.Some? || LatestArchived(x))
    && (x.log.racing > 0 ==> x.log.uploads >= 2)
  }

  predicate JobOk(x: View) {
    && SourceOk(x)
    && (x.job.Some? && x.job.value.status == Done ==>
          x.finished > 0 && x.job.value.error == "" && x.job.value.artifacts.Some?)
    && (x.finished > 0 ==> x.processed.Some?)
    && (true in x.log.hooks ==> x.finished > 0)
    && |x.log.deaths| == x.dead
    && (forall d <- x.log.deaths :: d.Some? ==> d.value > MAX_JOB_RETRIES)
    && x.log.consumed + x.main == x.log.published + x.log.requeues + x.log.handbacks
    && x.log.published + x.log.publishing <= x.log.submitted
  }

  predicate AttemptOk(x: View, a: Attempt) {
    match a.pc
    case ProcSet(job) => job.status == Processing
    case Read => x.log.uploads > 0
    case Process => x.log.uploads > 0
    case Upload => x.log.uploads > 0
    case Copy => x.processed.Some?
    case Drop => x.processed.Some? && x.archived.Some? && (x.log.racing == 0 ==> LatestArchived(x))
    case UploadArtifacts => x.processed.Some?
    case Publish => x.processed.Some?
    case DoneGet => x.finished > 0
    case DoneSet(job) => x.finished > 0 && job.status == Done && job.error == "" && job.artifacts.Some?
    case HookGet => x.finished > 0
    case FailSet(job) => job.status == Failed
    case RequeueSet(job) => job.status == Pending
    case Bury(failed) => failed.Some? ==> failed.value.retryCount > MAX_JOB_RETRIES
    case Ack(why) => (why == AfterSuccess ==> x.finished > 0) && (why == AfterDeath ==> x.dead > 0)
    case _ => true
  }

  predicate LoopOk(l: Loop) {
    l.Marking? ==> l.job.status == Pending
  }

  /** Nothing an attempt relies on is ever taken back, except the raw object. */
  predicate Grows(x: View, y: View) {
    && x.finished <= y.finished && x.dead <= y.dead && x.log.uploads <= y.log.uploads
    && (x.processed.Some? ==> y.processed.Some?) && (x.archived.Some? ==> y.archived.Some?)
    && (y.log.racing == 0 ==> x.log.racing == 0 && (LatestArchived(x) ==> LatestArchived(y)))
  }

  /** Where an ID can be accounted for. */
  function Worth(x: View, inHand: nat): nat {
    x.main + x.processing + inHand + x.finished + x.dead + x.log.losses
  }

  predicate Inv(s: State, id: ID) {
    var x := ViewOf(s, id);
    && JobOk(x)
    && AttemptsOk(x, s.attempts, id)
    && (forall l :: 0 <= l < |s.loops| ==> LoopOk(s.loops[l]))
    && CountsOk(x, Count(s.loops, InHand(id)), Count(s.attempts, Owing(id)), Count(s.attempts, Passed(id)))
    && FaultsOk(x, Count(s.attempts, Burying(id)), Count(s.loops, Moving(id)))
  }

  predicate OnFailurePath(a: Attempt) {
    a.pc == FailGet || a.pc.FailSet? || a.pc == RequeueGet || a.pc.RequeueSet? || a.pc == RequeuePush || a.pc.Bury?
  }

  /** One step of an attempt, up to publishing, ... */
  lemma RunningStep(x: View, a: Attempt, ok: bool, note: Note, now: nat)
    requires JobOk(x) && AttemptOk(x, a) && Running(a) && !OnFailurePath(a)
    ensures var (c, a') := NextAttempt(x, a, ok, note, now);
      var y := PerformView(x, c, now);
      JobOk(y) && AttemptOk(y, a') && Grows(x, y)
  {
    hide TallyAfter, Base, Seconds;
    TallyMoves(x.log, NextAttempt(x, a, ok, note, now).0);
  }

  /** ... on the way to handing a failed job on, ... */
  lemma FailingStep(x: View, a: Attempt, ok: bool, note: Note, now: nat)
    requires JobOk(x) && AttemptOk(x, a) && OnFailurePath(a)
    ensures var (c, a') := NextAttempt(x, a, ok, note, now);
      var y := PerformView(x, c, now);
      JobOk(y) && AttemptOk(y, a') && Grows(x, y)
  {
    hide TallyAfter, Base, Seconds;
    TallyMoves(x.log, NextAttempt(x, a, ok, note, now).0);
  }

  /** ... and from there on. */
  lemma SettlingStep(x: View, a: Attempt, ok: bool, note: Note, now: nat)
    requires JobOk(x) && AttemptOk(x, a) && !Running(a) && !OnFailurePath(a)
    ensures var (c, a') := NextAttempt(x, a, ok, note, now);
      var y := PerformView(x, c, now);
      JobOk(y) && AttemptOk(y, a') && Grows(x, y)
  {
    hide TallyAfter, Base, Seconds;
    TallyMoves(x.log, NextAttempt(x, a, ok, note, now).0);
  }

  lemma AttemptStep(x: View, a: Attempt, ok: bool, note: Note, now: nat)
    requires JobOk(x) && AttemptOk(x, a)
    ensures var (c, a') := NextAttempt(x, a, ok, note, now);
      var y := PerformView(x, c, now);
      JobOk(y) && AttemptOk(y, a') && Grows(x, y)
  {
    hide *;
    if OnFailurePath(a) {
      FailingStep(x, a, ok, note, now);
    } else if Running(a) {
      RunningStep(x, a, ok, note, now);
    } else {
      SettlingStep(x, a, ok, note, now);
    }
  }

  lemma NextLoopOk(x: View, l: Loop, ok: bool)
    requires LoopOk(l) && Subject(l).Some?
    ensures LoopOk(NextLoop(x, l, ok).1)
  {
  }

  /** One step of a recovery loop. */
  lemma LoopStep(x: View, l: Loop, ok: bool, now: nat)
    requires JobOk(x) && LoopOk(l) && Subject(l).Some?
    ensures var (c, l') := NextLoop(x, l, ok);
      var y := PerformView(x, c, now);
      JobOk(y) && LoopOk(l') && Grows(x, y)
  {
    hide TallyAfter;
    TallyMoves(x.log, NextLoop(x, l, ok).0);
  }

  /** A step gives up no more of a job's worth than it stops owing ... */
  predicate Balanced(x: View, y: View, a: Attempt, a': Attempt) {
    Worth(y, 0) + Bit(Owing(a.id)(a)) >= Worth(x, 0) + Bit(Owing(a.id)(a'))
  }

  /** ... and publishes only what it has archived or failed to archive. */
  predicate Archiving(x: View, y: View, a: Attempt, a': Attempt) {
    y.finished + Bit(Passed(a.id)(a')) + x.log.archives + x.log.archiveFaults <=
    x.finished + Bit(Passed(a.id)(a)) + y.log.archives + y.log.archiveFaults
  }

  lemma AttemptBalance(x: View, a: Attempt, ok: bool, note: Note, now: nat)
    ensures var (c, a') := NextAttempt(x, a, ok, note, now);
      var y := PerformView(x, c, now);
      y.log.published == x.log.published && Balanced(x, y, a, a')
  {
    hide MarkProcessing, MarkDone, MarkFailed, MarkRequeued, Stamp, TallyAfter;
    TallyMoves(x.log, NextAttempt(x, a, ok, note, now).0);
  }

  lemma AttemptArchiving(x: View, a: Attempt, ok: bool, note: Note, now: nat)
    ensures var (c, a') := NextAttempt(x, a, ok, note, now);
      Archiving(x, PerformView(x, c, now), a, a')
  {
    hide MarkProcessing, MarkDone, MarkFailed, MarkRequeued, Stamp, TallyAfter;
    TallyMoves(x.log, NextAttempt(x, a, ok, note, now).0);
  }

  lemma LoopBalance(x: View, l: Loop, ok: bool, now: nat, id: ID)
    requires Subject(l) == Some(id)
    ensures var (c, l') := NextLoop(x, l, ok);
      var y := PerformView(x, c, now);
      && y.log.published == x.log.published
      && Worth(y, Bit(InHand(id)(l'))) >= Worth(x, Bit(InHand(id)(l)))
      && y.finished == x.finished
      && y.log.archives == x.log.archives && y.log.archiveFaults == x.log.archiveFaults
  {
  }

  predicate AttemptsOk(x: View, attempts: seq<Attempt>, id: ID) {
    forall i :: 0 <= i < |attempts| && attempts[i].id == id ==> AttemptOk(x, attempts[i])
  }

  lemma AttemptsStayOk(x: View, y: View, attempts: seq<Attempt>, id: ID)
    requires AttemptsOk(x, attempts, id) && Grows(x, y)
    ensures AttemptsOk(y, attempts, id)
  {
  }

  /** A new source leaves every attempt right that does not hold the removal of the old one. */
  lemma UploadStaysOk(x: View, attempts: seq<Attempt>, id: ID, source: Content, removing: bool)
    requires AttemptsOk(x, attempts, id) && SourceOk(x)
    requires removing <==> exists i :: 0 <= i < |attempts| && attempts[i].id == id && attempts[i].pc == Drop
    ensures var y := x.(raw := Some(source), log := TallyUpload(x.log, source, removing));
      AttemptsOk(y, attempts, id) && SourceOk(y)
  {
    if removing {
      var i :| 0 <= i < |attempts| && attempts[i].id == id && attempts[i].pc == Drop;
      assert AttemptOk(x, attempts[i]);
    }
  }

  lemma FreshOk(x: View)
    ensures forall a: Attempt :: a.pc == ProcGet || a.pc == Ended ==> AttemptOk(x, a)
    ensures forall l: Loop :: !l.Marking? ==> LoopOk(l)
  {
  }

  /** Events other than the ID's own steps, sweeps and uploads. */
  lemma OthersKeepOk(s: State, e: Event, id: ID)
    requires JobOk(ViewOf(s, id)) && !(e.UploadRaw? && e.id == id)
    requires !(e.Step? && Steps(s, e.attempt, id)) && !(e.Sweep? && Sweeps(s, e.loop, id))
    ensures JobOk(ViewAfter(s, e, id)) && Grows(ViewOf(s, id), ViewAfter(s, e, id))
  {
    hide ViewOf, NextAttempt, NextLoop, PerformView, RunningOn, RemovingOn, Seconds;
  }

  lemma ViewKeepsOk(s: State, e: Event, id: ID)
    requires Inv(s, id)
    ensures JobOk(ViewAfter(s, e, id))
    ensures !(e.UploadRaw? && e.id == id) ==> Grows(ViewOf(s, id), ViewAfter(s, e, id))
  {
    hide ViewOf, NextAttempt, NextLoop, PerformView, Count, AttemptOk, LoopOk, RunningOn, CountsOk, FaultsOk;
    hide JobOk, Grows;
    if e.Step? && Steps(s, e.attempt, id) {
      AttemptStep(ViewOf(s, id), s.attempts[e.attempt], e.ok, e.note, s.now);
    } else if e.Sweep? && Sweeps(s, e.loop, id) {
      LoopStep(ViewOf(s, id), s.loops[e.loop], e.ok, s.now);
    } else if e.UploadRaw? && e.id == id {
      UploadKeepsJob(ViewOf(s, id), s.attempts, id, e.source, RemovingOn(s, id));
    } else {
      OthersKeepOk(s, e, id);
    }
  }

  lemma UploadKeepsJob(x: View, attempts: seq<Attempt>, id: ID, source: Content, removing: bool)
    requires AttemptsOk(x, attempts, id) && JobOk(x)
    requires removing <==> exists i :: 0 <= i < |attempts| && attempts[i].id == id && attempts[i].pc == Drop
    ensures JobOk(x.(raw := Some(source), log := TallyUpload(x.log, source, removing)))
  {
    UploadStaysOk(x, attempts, id, source, removing);
  }

  /** The part of the invariant that is about single attempts and loops. */
  lemma KeepsOk(s: State, e: Event, id: ID)
    requires Inv(s, id)
    ensures var t := Apply(s, e);
      && JobOk(ViewOf(t, id))
      && AttemptsOk(ViewOf(t, id), t.attempts, id)
      && forall l :: 0 <= l < |t.loops| ==> LoopOk(t.loops[l])
  {
    hide Apply, ViewOf, ViewAfter, NextAttempt, NextLoop, PerformView, Count, AttemptOk, Threshold, LoopOk, JobOk;
    hide Grows, CountsOk, FaultsOk;
    var x, y := ViewOf(s, id), ViewAfter(s, e, id);
    FreshOk(y);
    Projects(s, e, id);
    Moves(s, e);
    ViewKeepsOk(s, e, id);
    if e.UploadRaw? && e.id == id {
      UploadKeepsOk(s, e, id);
    } else {
      AttemptsStayOk(x, y, s.attempts, id);
    }
    match e
    case Step(i, ok, note) =>
      if i < |s.attempts| && s.attempts[i].pc != Ended {
        var a := s.attempts[i];
        NextAttemptKeeps(ViewOf(s, a.id), a, ok, note, s.now);
        if a.id == id {
          AttemptStep(x, a, ok, note, s.now);
          assert y == PerformView(x, NextAttempt(x, a, ok, note, s.now).0, s.now) by {
            AfterStep(s, e, id);
          }
        }
      }
    case Sweep(l, ok) =>
      if l < |s.loops| && Subject(s.loops[l]).Some? {
        NextLoopOk(ViewOf(s, Subject(s.loops[l]).value), s.loops[l], ok);
      }
    case _ =>
  }

  lemma UploadKeepsOk(s: State, e: Event, id: ID)
    requires e.UploadRaw? && e.id == id && Inv(s, id)
    ensures AttemptsOk(ViewAfter(s, e, id), s.attempts, id)
  {
    hide ViewOf, AttemptsOk, JobOk, CountsOk, FaultsOk;
    assert SourceOk(ViewOf(s, id)) by { JobHasSource(ViewOf(s, id)); }
    UploadStaysOk(ViewOf(s, id), s.attempts, id, e.source, RemovingOn(s, id));
  }

  lemma JobHasSource(x: View)
    requires JobOk(x)
    ensures SourceOk(x)
  {
  }

  lemma AfterStep(s: State, e: Event, id: ID)
    requires e.Step? && Steps(s, e.attempt, id)
    ensures var x := ViewOf(s, id);
      ViewAfter(s, e, id) == PerformView(x, NextAttempt(x, s.attempts[e.attempt], e.ok, e.note, s.now).0, s.now)
  {
  }

  predicate CountsOk(x: View, inHand: nat, owing: nat, passed: nat) {
    && Worth(x, inHand) >= x.log.published + owing
    && x.finished + passed <= x.log.archives + x.log.archiveFaults
  }

  predicate FaultsOk(x: View, burying: nat, moving: nat) {
    && Count(x.log.deaths, Uncounted()) + burying <= x.log.failFaults
    && x.log.handbacks + moving <= x.log.recoveries
  }

  /** A death without a count takes up one failed write of a failure. */
  lemma AttemptBurial(x: View, a: Attempt, ok: bool, note: Note, now: nat)
    ensures var (c, a') := NextAttempt(x, a, ok, note, now);
      var y := PerformView(x, c, now);
      && Count(y.log.deaths, Uncounted()) + Bit(Burying(a.id)(a')) + x.log.failFaults <=
         Count(x.log.deaths, Uncounted()) + Bit(Burying(a.id)(a)) + y.log.failFaults
      && y.log.handbacks == x.log.handbacks && y.log.recoveries == x.log.recoveries
  {
    hide MarkProcessing, MarkDone, MarkFailed, MarkRequeued, Stamp, TallyAfter, Count;
    var c := NextAttempt(x, a, ok, note, now).0;
    TallyMoves(x.log, c);
    if c.Entomb? {
      CountAppend(x.log.deaths, c.written, Uncounted());
    }
  }

  lemma LoopMoving(x: View, l: Loop, ok: bool, now: nat, id: ID)
    requires Subject(l) == Some(id)
    ensures var (c, l') := NextLoop(x, l, ok);
      var y := PerformView(x, c, now);
      && y.log.handbacks + Bit(Moving(id)(l')) + x.log.recoveries <= x.log.handbacks + Bit(Moving(id)(l)) +
          y.log.recoveries
      && y.log.deaths == x.log.deaths && y.log.failFaults == x.log.failFaults
  {
    hide TallyAfter, MarkRecovered, Stamp;
    TallyMoves(x.log, NextLoop(x, l, ok).0);
  }

  lemma KeepsFaults(s: State, e: Event, id: ID)
    requires Inv(s, id)
    ensures var t := Apply(s, e);
      FaultsOk(ViewOf(t, id), Count(t.attempts, Burying(id)), Count(t.loops, Moving(id)))
  {
    hide Apply, ViewOf, NextAttempt, NextLoop, PerformView, Count, AttemptOk, JobOk, Threshold, RunningOn;
    hide CountsOk, AttemptsOk;
    var x := ViewOf(s, id);
    Projects(s, e, id);
    AttemptCounts(s, e, id, Burying(id));
    LoopCounts(s, e, id, Moving(id));
    match e
    case Step(i, ok, note) =>
      if Steps(s, i, id) {
        AttemptBurial(x, s.attempts[i], ok, note, s.now);
      }
    case Sweep(l, ok) =>
      if Sweeps(s, l, id) {
        LoopMoving(x, s.loops[l], ok, s.now, id);
      }
    case _ =>
  }

  /** The part of the invariant that counts copies and debts ... */
  lemma KeepsWorth(s: State, e: Event, id: ID)
    requires Inv(s, id)
    ensures var t := Apply(s, e);
      Worth(ViewOf(t, id), Count(t.loops, InHand(id))) >= ViewOf(t, id).log.published + Count(t.attempts, Owing(id))
  {
    hide Apply, ViewOf, NextAttempt, NextLoop, PerformView, Count, AttemptOk, JobOk, Threshold, RunningOn;
    var x := ViewOf(s, id);
    Projects(s, e, id);
    AttemptCounts(s, e, id, Owing(id));
    LoopCounts(s, e, id, InHand(id));
    match e
    case Step(i, ok, note) =>
      if Steps(s, i, id) {
        NextAttemptKeeps(x, s.attempts[i], ok, note, s.now);
        AttemptBalance(x, s.attempts[i], ok, note, s.now);
      }
    case Sweep(l, ok) =>
      if Sweeps(s, l, id) {
        LoopBalance(x, s.loops[l], ok, s.now, id);
      }
    case LoopDies(l) =>
      if l < |s.loops| && InHand(id)(s.loops[l]) {
        CountMember(s.loops, l, InHand(id));
      }
    case _ =>
  }

  /** ... and publications. */
  lemma KeepsArchives(s: State, e: Event, id: ID)
    requires Inv(s, id)
    ensures var t := Apply(s, e);
      var y := ViewOf(t, id);
      y.finished + Count(t.attempts, Passed(id)) <= y.log.archives + y.log.archiveFaults
  {
    hide Apply, ViewOf, NextAttempt, NextLoop, PerformView, Count, AttemptOk, JobOk, Threshold, RunningOn;
    var x := ViewOf(s, id);
    Projects(s, e, id);
    AttemptCounts(s, e, id, Passed(id));
    match e
    case Step(i, ok, note) =>
      if Steps(s, i, id) {
        NextAttemptKeeps(x, s.attempts[i], ok, note, s.now);
        AttemptArchiving(x, s.attempts[i], ok, note, s.now);
      }
    case Sweep(l, ok) =>
      if Sweeps(s, l, id) {
        LoopBalance(x, s.loops[l], ok, s.now, id);
      }
    case _ =>
  }

  lemma Keeps(s: State, e: Event, id: ID)
    requires Inv(s, id)
    ensures Inv(Apply(s, e), id)
  {
    hide Apply, ViewOf, JobOk, AttemptsOk, LoopOk, Count;
    KeepsOk(s, e, id);
    KeepsWorth(s, e, id);
    KeepsArchives(s, e, id);
    KeepsFaults(s, e, id);
  }

  lemma Starts(loops: nat, stuck: nat, id: ID)
    ensures Inv(Init(loops, stuck), id)
  {
    var s := Init(loops, stuck);
    hide Init, ViewOf, Count;
    InitIsIdle(loops, stuck, id);
    CountZero(s.loops, InHand(id));
    CountZero(s.attempts, Owing(id));
    CountZero(s.attempts, Passed(id));
    CountZero(s.attempts, Burying(id));
    CountZero(ViewOf(s, id).log.deaths, Uncounted());
    CountZero(s.loops, Moving(id));
  }

  lemma {:induction false} KeepsAlways(s: State, es: seq<Event>, id: ID)
    requires Inv(s, id)
    ensures Inv(Exec(s, es), id)
    decreases |es|
  {
    if es != [] {
      Keeps(s, es[0], id);
      KeepsAlways(Apply(s, es[0]), es[1..], id);
    }
  }
}
