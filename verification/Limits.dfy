/** What the protocol does not do, each with a run that shows it or a proof that it never happens. */
module Limits {
  import opened Jobs
  import opened RedisLists
  import opened RedisStore
  import opened ObjectKeys
  import opened Protocol
  import opened Projection
  import RecoverySweep
  import Exclusion
  import Undisturbed
  import Queue
  import ObjectStore
  import Worker
  import WholeAttempt
  import EveryAttempt
  import opened Witnesses

  /* ---- orphans whose status is not processing ---- */

  /** Only :processing still lists the job, nobody works on it, and its record does not say so. */
  predicate Orphaned(s: State, id: ID) {
    var x := ViewOf(s, id);
    && x.main == 0 && Exclusion.NotProcessing(x)
    && (forall i :: 0 <= i < |s.attempts| && s.attempts[i].id == id ==> s.attempts[i].pc == Ended)
    && (forall l :: 0 <= l < |s.loops| && Subject(s.loops[l]) == Some(id) ==> s.loops[l].Scanning?)
  }

  predicate Resubmits(e: Event, id: ID) {
    (e.PublishSet? || e.PublishPush? || e.PushBare?) && e.id == id
  }

  lemma SkipsOrphan(x: View, l: Loop, ok: bool)
    requires l.Scanning? && Subject(l).Some? && Exclusion.NotProcessing(x)
    ensures var (c, l') := NextLoop(x, l, ok);
      l'.Scanning? && (c == Nothing || c == GetFault)
  {
  }

  lemma OrphanView(s: State, e: Event, id: ID)
    requires Orphaned(s, id) && !Resubmits(e, id)
    ensures var x, y := ViewOf(s, id), ViewOf(Apply(s, e), id);
      && y.main == 0 && Exclusion.NotProcessing(y)
      && y.processing == x.processing && y.log.consumed == x.log.consumed
  {
    hide Apply, ViewOf, NextLoop, NextAttempt, RunningOn;
    Projects(s, e, id);
    if e.Sweep? && Sweeps(s, e.loop, id) {
      SkipsOrphan(ViewOf(s, id), s.loops[e.loop], e.ok);
    }
  }

  lemma OrphanKept(s: State, e: Event, id: ID)
    requires Orphaned(s, id) && !Resubmits(e, id)
    ensures Orphaned(Apply(s, e), id)
  {
    hide Apply, ViewOf, NextLoop, NextAttempt, Threshold;
    OrphanView(s, e, id);
    Projects(s, e, id);
    Moves(s, e);
    var t := Apply(s, e);
    if e.Step? && e.attempt < |s.attempts| {
      var a := s.attempts[e.attempt];
      NextAttemptKeeps(ViewOf(s, a.id), a, e.ok, e.note, s.now);
    }
    if e.Sweep? && e.loop < |s.loops| && Subject(s.loops[e.loop]).Some? {
      var l := s.loops[e.loop];
      var on := Subject(l).value;
      if on == id {
        SkipsOrphan(ViewOf(s, id), l, e.ok);
      } else {
        NextSubject(ViewOf(s, on), l, e.ok);
      }
    }
  }

  lemma NextSubject(x: View, l: Loop, ok: bool)
    requires Subject(l).Some?
    ensures var l' := NextLoop(x, l, ok).1;
      l'.Scanning? || Subject(l') == Subject(l)
  {
  }

  /** A job orphaned while pending or failed is never taken up again, in any run, unless it is
      submitted anew; recovery looks only at jobs in processing. */
  lemma {:induction false} OrphanStays(s: State, es: seq<Event>, id: ID)
    requires Orphaned(s, id) && forall e <- es :: !Resubmits(e, id)
    ensures Orphaned(Exec(s, es), id)
    ensures var x, y := ViewOf(s, id), ViewOf(Exec(s, es), id);
      y.processing == x.processing && y.log.consumed == x.log.consumed
    decreases |es|
  {
    hide Apply, ViewOf, Orphaned;
    if |es| > 0 {
      OrphanView(s, es[0], id);
      OrphanKept(s, es[0], id);
      OrphanStays(Apply(s, es[0]), es[1..], id);
    }
  }

  function Answered(n: nat, now: nat): seq<RecoverySweep.Reply> {
    seq(n, _ => RecoverySweep.Reply(true, true, true, true, now))
  }

  function WholeSweep(s: State, l: nat): seq<Event> {
    [SweepStart(l)] +
    Undisturbed.SweepEvents(s.redis, l, s.redis.processing, Threshold(s.now, s.stuck),
                            Answered(|s.redis.processing|, s.now))
  }

  /** The other half: a sweep with no faults takes back a listed job if and only if its record says
      processing and is stale. */
  lemma SweepTakesBackStale(s: State, l: nat, id: ID)
    requires l < |s.loops| && s.loops[l] == Waiting && id in s.redis.processing
    ensures var r, q := s.redis, Exec(s, WholeSweep(s, l)).redis;
      var moved := if RecoverySweep.IsStuck(r, id, Threshold(s.now, s.stuck)) then 1 else 0;
      Copies(q.main, id) == Copies(r.main, id) + moved && Copies(q.processing, id) == Copies(r.processing, id) - moved
  {
    hide Apply, Exec, Copies, Threshold, Undisturbed.SweepEvents, RecoverySweep.SweepAll, RecoverySweep.IsStuck;
    var r, threshold, replies := s.redis, Threshold(s.now, s.stuck), Answered(|s.redis.processing|, s.now);
    var sweep := Undisturbed.SweepEvents(r, l, r.processing, threshold, replies);
    var t := Apply(s, SweepStart(l));
    Snapshot(s, l);
    Undisturbed.ExecCons(s, SweepStart(l), sweep);
    Undisturbed.SweepRuns(t, l, r.processing, threshold, replies);
    RecoverySweep.SweepsExactlyOnce(r, r.processing, threshold, replies, id);
    RecoverySweep.ListedIsWritten(r.processing, replies, id);
    assert Copies(r.processing, id) > 0 by { ListedHasCopies(r.processing, id); }
  }

  lemma ListedHasCopies(list: seq<ID>, id: ID)
    requires id in list
    ensures Copies(list, id) > 0
  {
  }

  /* ---- witness runs ---- */

  /** Claim, die, be recovered. */
  lemma Round(s: State, id: ID, k: nat) returns (es: seq<Event>)
    requires Queued(s, id, k)
    ensures Queued(Exec(s, es), id, k + 1)
  {
    hide Apply, Exec, OnMain, AtWork;
    var i := |s.attempts|;
    var s1 := Exec(s, ClaimEvents(i));
    Claims(s, id, k);
    Dies(s1, id, k, i);
    var rest := Recovers(Apply(s1, Crash(i)), id, k);
    es := ClaimEvents(i) + ([Crash(i)] + rest);
    ExecSplit(s, ClaimEvents(i), [Crash(i)] + rest);
    Undisturbed.ExecCons(s1, Crash(i), rest);
  }

  lemma {:induction false} Rounds(s: State, id: ID, k: nat, n: nat) returns (es: seq<Event>)
    requires Queued(s, id, k)
    ensures Queued(Exec(s, es), id, k + n)
    decreases n
  {
    hide Apply, Exec, Queued;
    if n == 0 {
      es := [];
      Undisturbed.ExecNone(s);
    } else {
      var first := Round(s, id, k);
      var rest := Rounds(Exec(s, first), id, k + 1, n - 1);
      es := first + rest;
      ExecSplit(s, first, rest);
    }
  }

  /** A job that keeps killing its worker is recovered any number of times and never declared dead:
      recovery does not look at MaxJobRetries (docs/claude/design-decisions.md says otherwise). */
  lemma RecoveryNeverGivesUp(stuck: nat, id: ID, n: nat) returns (es: seq<Event>)
    ensures var s := Exec(Init(1, stuck), es);
      && s.redis.main == [id] && |s.redis.dead| == 0
      && id in s.redis.jobs && s.redis.jobs[id].retryCount == n
  {
    hide Apply, Exec, Init;
    var submit := Submission(id);
    Submitted(1, stuck, id);
    var rest := Rounds(Exec(Init(1, stuck), submit), id, 0, n);
    es := submit + rest;
    ExecSplit(Init(1, stuck), submit, rest);
  }

  /** An attempt that outlives the threshold shares its job with the next one, so the deadline that
      mutual exclusion asks for cannot be dropped. */
  lemma LateAttemptsOverlap(stuck: nat, id: ID) returns (es: seq<Event>)
    ensures var s := Exec(Init(1, stuck), es);
      exists i, j :: 0 <= i < j < |s.attempts| &&
        s.attempts[i].id == id && s.attempts[j].id == id && Running(s.attempts[i]) && Running(s.attempts[j])
  {
    hide Apply, Exec, Init, OnMain, AtWork;
    var submit := Submission(id);
    Submitted(1, stuck, id);
    var s := Exec(Init(1, stuck), submit);
    Claims(s, id, 0);
    var s1 := Exec(s, ClaimEvents(0));
    var recovery := Recovers(s1, id, 0);
    var s2 := Exec(s1, recovery);
    Claims(s2, id, 1);
    es := submit + (ClaimEvents(0) + (recovery + ClaimEvents(1)));
    ExecSplit(Init(1, stuck), submit, ClaimEvents(0) + (recovery + ClaimEvents(1)));
    ExecSplit(s, ClaimEvents(0), recovery + ClaimEvents(1));
    ExecSplit(s1, recovery, ClaimEvents(1));
    var t := Exec(Init(1, stuck), es);
    assert t.attempts[0].pc == Stat && t.attempts[1].pc == Stat;
  }

  /* ---- two recovery loops ---- */

  /** Two loops, and what Redis holds. */
  predicate Loops(s: State, r: Redis, now: nat, a: Loop, b: Loop) {
    s.redis == r && s.now == now && s.loops == [a, b]
  }

  function With(a: Loop, b: Loop, second: bool, l: Loop): (Loop, Loop) {
    if second then (a, l) else (l, b)
  }

  function Index(second: bool): nat {
    if second then 1 else 0
  }

  /** One command of one of the two loops. */
  lemma OneSweeps(s: State, r: Redis, now: nat, a: Loop, b: Loop, second: bool)
    requires Loops(s, r, now, a, b) && Subject(if second then b else a).Some?
    ensures var (r', l') := Undisturbed.LoopOnRedis(r, if second then b else a, true, now);
      var (a', b') := With(a, b, second, l');
      Loops(Apply(s, Sweep(Index(second), true)), r', now, a', b')
  {
    hide Apply, Undisturbed.LoopOnRedis;
    Undisturbed.SweepsOnRedis(s, Index(second), true);
  }

  /** A loop that has read the record goes through with its move, whatever has become of the job. */
  lemma GoesThrough(s: State, r: Redis, now: nat, a: Loop, b: Loop, second: bool, id: ID, job: Job, threshold: int)
    requires Loops(s, r, now, a, b) && (if second then b else a) == Marking(id, job, [], threshold)
    ensures var sweep := Sweep(Index(second), true);
      var (a', b') := With(a, b, second, Scanning([], threshold));
      Loops(Exec(s, [sweep, sweep, sweep]), r.Put(id, job, now).Remove(id).PushMain(id), now, a', b')
  {
    hide Apply, Exec, Loops, Redis.Put, Redis.Remove, Redis.PushMain;
    var sweep := Sweep(Index(second), true);
    var (a1, b1) := With(a, b, second, Unlisting(id, [], threshold));
    var (a2, b2) := With(a, b, second, Returning(id, [], threshold));
    var s1 := Apply(s, sweep);
    var s2 := Apply(s1, sweep);
    OneSweeps(s, r, now, a, b, second);
    OneSweeps(s1, r.Put(id, job, now), now, a1, b1, second);
    OneSweeps(s2, r.Put(id, job, now).Remove(id), now, a2, b2, second);
    assert [sweep] + ([sweep] + [sweep]) == [sweep, sweep, sweep];
    Undisturbed.ExecCons(s, sweep, [sweep] + [sweep]);
    Undisturbed.ExecCons(s1, sweep, [sweep]);
    Undisturbed.ExecOne(s2, sweep);
  }

  /** Both read the stale record before either writes it: two copies in the main list. */
  lemma BothRecover(s: State, id: ID, threshold: int) returns (es: seq<Event>)
    requires s.loops == [Scanning([id], threshold), Scanning([id], threshold)]
    requires RecoverySweep.IsStuck(s.redis, id, threshold) && |s.redis.main| == 0
    ensures Exec(s, es).redis.main == [id, id]
    ensures forall e <- es :: e.Sweep?
  {
    hide Apply, Exec, MarkRecovered, Stamp;
    var r, now, idle := s.redis, s.now, Scanning([id], threshold);
    var job := MarkRecovered(r.jobs[id]);
    var mark := Marking(id, job, [], threshold);
    var first, second := Sweep(0, true), Sweep(1, true);
    var s1 := Apply(s, first);
    var s2 := Apply(s1, second);
    assert [id][1..] == [];
    OneSweeps(s, r, now, idle, idle, false);
    OneSweeps(s1, r, now, mark, idle, true);
    GoesThrough(s2, r, now, mark, mark, false, id, job, threshold);
    var r1 := r.Put(id, job, now).Remove(id).PushMain(id);
    var s3 := Exec(s2, [first, first, first]);
    GoesThrough(s3, r1, now, Scanning([], threshold), mark, true, id, job, threshold);
    es := [first] + ([second] + ([first, first, first] + [second, second, second]));
    Undisturbed.ExecCons(s, first, [second] + ([first, first, first] + [second, second, second]));
    Undisturbed.ExecCons(s1, second, [first, first, first] + [second, second, second]);
    ExecSplit(s2, [first, first, first], [second, second, second]);
  }

  /** With two loops one dead attempt is enough to put a job into the main list twice, so a second
      instance of the service breaks mutual exclusion. */
  lemma TwoLoopsDuplicate(stuck: nat, id: ID) returns (rest: seq<Event>)
    ensures Exec(Init(2, stuck), Submission(id) + rest).redis.main == [id, id]
    ensures forall e <- rest :: !Resubmits(e, id)
  {
    hide Apply, Exec, Init, OnMain;
    var submit := Submission(id);
    Submitted(2, stuck, id);
    var s := Exec(Init(2, stuck), submit);
    Claims(s, id, 0);
    var s1 := Exec(s, ClaimEvents(0));
    Dies(s1, id, 0, 0);
    var s2 := Apply(s1, Crash(0));
    var more := BothScan(s2, id);
    rest := ClaimEvents(0) + ([Crash(0)] + more);
    ExecSplit(Init(2, stuck), submit, rest);
    ExecSplit(s, ClaimEvents(0), [Crash(0)] + more);
    Undisturbed.ExecCons(s1, Crash(0), more);
  }

  lemma BothScan(s: State, id: ID) returns (es: seq<Event>)
    requires AtWork(s, id, 0) && s.loops == [Waiting, Waiting]
    ensures Exec(s, es).redis.main == [id, id]
    ensures forall e <- es :: !Resubmits(e, id)
  {
    hide Apply, Exec;
    var tick := Tick(s.stuck + 2 * SECOND);
    var s1 := Apply(s, tick);
    var s2 := Apply(s1, SweepStart(0));
    var s3 := Apply(s2, SweepStart(1));
    Waits(s, tick);
    Moves(s, tick);
    Moves(s1, SweepStart(0));
    Snapshot(s1, 0);
    Moves(s2, SweepStart(1));
    Snapshot(s2, 1);
    var threshold := Threshold(s1.now, s1.stuck);
    StuckMeansOverdue(s.now, s1.now, s1.stuck);
    var rest := BothRecover(s3, id, threshold);
    es := [tick] + ([SweepStart(0)] + ([SweepStart(1)] + rest));
    Undisturbed.ExecCons(s, tick, [SweepStart(0)] + ([SweepStart(1)] + rest));
    Undisturbed.ExecCons(s1, SweepStart(0), [SweepStart(1)] + rest);
    Undisturbed.ExecCons(s2, SweepStart(1), rest);
  }

  lemma DiesEarly(s: State, id: ID)
    requires |s.redis.main| == 0 && s.redis.processing == [id] && s.loops == [Waiting]
    requires id in s.redis.jobs && s.redis.jobs[id].status == Pending
    requires s.attempts == [Attempt(id, ProcGet, None)]
    ensures Orphaned(Apply(s, Crash(0)), id) && ViewOf(Apply(s, Crash(0)), id).processing == 1
  {
  }

  /** A job whose worker dies before its SetJobProcessing write is such an orphan. */
  lemma OrphanArises(stuck: nat, id: ID)
    ensures var es := Submission(id) + [Consume, Crash(0)];
      var s := Exec(Init(1, stuck), es);
      Orphaned(s, id) && ViewOf(s, id).processing == 1
  {
    hide Apply, Exec, Init, ViewOf, Orphaned;
    var submit := Submission(id);
    var s := Exec(Init(1, stuck), submit);
    Submitted(1, stuck, id);
    var s1 := Apply(s, Consume);
    TakesListed(s, id, 0);
    Moves(s, Consume);
    DiesEarly(s1, id);
    assert [Consume] + [Crash(0)] == [Consume, Crash(0)];
    ExecSplit(Init(1, stuck), submit, [Consume, Crash(0)]);
    Undisturbed.ExecCons(s, Consume, [Crash(0)]);
    Undisturbed.ExecOne(s1, Crash(0));
  }

  /** A requeue whose push fails is only logged, the acknowledgement follows, and the job is in no
      list at all.  Its source need only be missing when it is looked for. */
  lemma FailedPushLosesJob(stuck: nat, id: ID) returns (rest: seq<Event>)
    ensures var r := Exec(Init(1, stuck), Submission(id) + rest).redis;
      && |r.main| == 0 && |r.processing| == 0 && |r.dead| == 0 && |r.finished| == 0
      && id in r.jobs && r.jobs[id].retryCount == 1
    ensures forall e <- rest :: !Resubmits(e, id)
  {
    hide Apply, Exec, Init, OnMain, AtWork, Undisturbed.FailureEvents;
    var submit := Submission(id);
    Submitted(1, stuck, id);
    var s := Exec(Init(1, stuck), submit);
    Claims(s, id, 0);
    var s1 := Exec(s, ClaimEvents(0));
    var stat := Step(0, false, NOTE);
    var s2 := Apply(s1, stat);
    NotFound(s1, id);
    var lost := RefusedPush(s2, id);
    rest := ClaimEvents(0) + ([stat] + lost);
    ExecSplit(Init(1, stuck), submit, rest);
    ExecSplit(s, ClaimEvents(0), [stat] + lost);
    Undisturbed.ExecCons(s1, stat, lost);
  }

  function Entries(r: Redis): nat {
    |r.main| + |r.processing| + |r.dead| + |r.finished|
  }

  /** Exactly when: an attempt that runs undisturbed to its end, with its acknowledgement, leaves the
      lists one entry short if and only if it has failed and the write or push that would hand its job
      on was refused.  `run` says how the commands of the attempt went. */
  lemma LostExactlyWhenRefused(s: State, objects: ObjectStore.Objects, max: nat, es: seq<Event>)
    returns (run: Worker.Run, artifacts: Artifacts, failure: Option<string>)
    requires ObjectStore.Holds(s, objects) && s.redis.main != []
    requires EveryAttempt.WithinLimit(objects, max, s.redis.main[|s.redis.main| - 1])
    requires WholeAttempt.OwnSteps(es, |s.attempts|)
    requires Undisturbed.On(Exec(s, [Consume] + es), |s.attempts|, s.redis.main[|s.redis.main| - 1], Ended)
    ensures var id := s.redis.main[|s.redis.main| - 1];
      var t := Exec(s, [Consume] + es);
      && (failure.None? <==> Worker.Failure(objects, max, id, run).None?)
      && t.redis == Worker.RedisAfter(s.redis.Take(), id, failure, artifacts, run)
      && (run.settle.ack ==>
            Entries(t.redis) + (if failure.Some? && Worker.Refused(s.redis.Take(), id, run) then 1 else 0) ==
            Entries(s.redis))
  {
    hide Apply, Exec, Worker.RedisAfter, Worker.Refused, Worker.Retries, Worker.Failure, EveryAttempt.WithinLimit;
    hide Undisturbed.On, ObjectStore.Holds;
    run, artifacts, failure := EveryAttempt.EveryAttemptIsACall(s, objects, max, es);
    Worker.OneMove(s.redis, failure, artifacts, run);
  }

  /** And each such outcome happens. */
  lemma EachLossHappens(s: State, objects: ObjectStore.Objects, max: nat, artifacts: Artifacts, run: Worker.Run)
    returns (es: seq<Event>)
    requires ObjectStore.Holds(s, objects) && s.redis.main != [] && run.now == s.now && run.settle.ack
    ensures WholeAttempt.OwnSteps(es, |s.attempts|)
    ensures var id := s.redis.main[|s.redis.main| - 1];
      var lost := Worker.Failure(objects, max, id, run).Some? && Worker.Refused(s.redis.Take(), id, run);
      Entries(Exec(s, [Consume] + es).redis) + (if lost then 1 else 0) == Entries(s.redis)
  {
    hide Apply, Exec, Worker.RedisAfter, Worker.Refused, Worker.Retries;
    var id := s.redis.main[|s.redis.main| - 1];
    es := WholeAttempt.AttemptRuns(s, objects, max, artifacts, run);
    Worker.OneMove(s.redis, Worker.Failure(objects, max, id, run), artifacts, run);
  }

  lemma NotFound(s: State, id: ID)
    requires AtWork(s, id, 0) && Undisturbed.On(s, 0, id, Stat)
    ensures var t := Apply(s, Step(0, false, NOTE));
      AtWork(t, id, 0) && Undisturbed.On(t, 0, id, FailGet) && t.redis.finished == s.redis.finished
  {
    hide Apply, ViewOf, Seconds;
    Undisturbed.Stepped(s, 0, false, NOTE);
  }

  lemma RefusedPush(s: State, id: ID) returns (es: seq<Event>)
    requires AtWork(s, id, 0) && Undisturbed.On(s, 0, id, FailGet)
    ensures var r := Exec(s, es).redis;
      && |r.main| == 0 && |r.processing| == 0 && |r.dead| == 0 && r.finished == s.redis.finished
      && id in r.jobs && r.jobs[id].retryCount == 1
    ensures forall e <- es :: e.Step?
  {
    hide Apply, Exec, Seconds, Undisturbed.FailureEvents;
    var replies := Queue.Replies(true, true, true, true, false, true, true);
    Undisturbed.FailureRuns(s, 0, id, replies, NOTE);
    es := Undisturbed.FailureEvents(s.redis, 0, id, replies, NOTE, s.now);
    assert LRem([id], id) == [];
    WholeAttempt.FailureSteps(s.redis, 0, id, replies, NOTE, s.now);
  }

  /* ---- a source uploaded again ---- */

  /** From the claim to the removal, with a second upload just before it. */
  lemma Overtaken(s: State, i: nat, id: ID, source: Content, again: Content) returns (es: seq<Event>)
    requires Undisturbed.On(s, i, id, Stat)
    ensures var x := ViewOf(Exec(s, es), id);
      x.raw == None && x.archived == Some(source) && x.log.latest == again
  {
    hide Apply, Exec, SourceAt, ViewOf;
    var step, first, second := Step(i, true, NOTE), UploadRaw(id, source), UploadRaw(id, again);
    var s1 := Apply(s, first);
    var s2 := Apply(s1, step);
    var s3 := Apply(s2, step);
    var s4 := Apply(s3, step);
    var s5 := Apply(s4, step);
    var s6 := Apply(s5, step);
    var s7 := Apply(s6, second);
    SourceUploaded(s, i, id, Stat, source);
    Advances(s1, i, id, Stat, Read, source);
    Advances(s2, i, id, Read, Process, source);
    Advances(s3, i, id, Process, Upload, source);
    Advances(s4, i, id, Upload, Copy, source);
    CopiesSource(s5, i, id, source);
    assert Undisturbed.On(s6, i, id, Drop) by { AtIsOn(s6, i, id, Drop, Some(source)); }
    SourceUploaded(s6, i, id, Drop, again);
    Drops(s7, i, id, again);
    es := [first] + ([step] + ([step] + ([step] + ([step] + ([step] + ([second] + [step]))))));
    Undisturbed.ExecCons(s, first, [step] + ([step] + ([step] + ([step] + ([step] + ([second] + [step]))))));
    Undisturbed.ExecCons(s1, step, [step] + ([step] + ([step] + ([step] + ([second] + [step])))));
    Undisturbed.ExecCons(s2, step, [step] + ([step] + ([step] + ([second] + [step]))));
    Undisturbed.ExecCons(s3, step, [step] + ([step] + ([second] + [step])));
    Undisturbed.ExecCons(s4, step, [step] + ([second] + [step]));
    Undisturbed.ExecCons(s5, step, [second] + [step]);
    Undisturbed.ExecCons(s6, second, [step]);
    Undisturbed.ExecOne(s7, step);
  }

  /** A source uploaded again between an attempt's copy and its removal is deleted unseen: raw/ is
      empty and the archive holds the earlier one. */
  lemma ReuploadLost(stuck: nat, id: ID, source: Content, again: Content) returns (es: seq<Event>)
    ensures var x := ViewOf(Exec(Init(1, stuck), es), id);
      x.raw == None && x.archived == Some(source) && x.log.latest == again
  {
    hide Apply, Exec, Init, OnMain, AtWork, ViewOf;
    var submit := Submission(id);
    Submitted(1, stuck, id);
    var s := Exec(Init(1, stuck), submit);
    Claims(s, id, 0);
    var rest := Overtaken(Exec(s, ClaimEvents(0)), 0, id, source, again);
    es := submit + (ClaimEvents(0) + rest);
    ExecSplit(Init(1, stuck), submit, ClaimEvents(0) + rest);
    ExecSplit(s, ClaimEvents(0), rest);
  }
}
