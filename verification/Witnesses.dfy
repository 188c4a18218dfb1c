/** Building blocks of witness runs: one job on its own, step by step. */
module Witnesses {
  import opened Jobs
  import opened RedisLists
  import opened RedisStore
  import opened ObjectKeys
  import opened Protocol
  import opened Projection
  import RecoverySweep
  import Undisturbed

  const CALLBACK := "callback"

  function Submission(id: ID): seq<Event> {
    [PublishSet(id, CALLBACK, true), PublishPush(id, true)]
  }

  /** Waiting in the main list and nowhere else, with `k` retries counted. */
  predicate OnMain(s: State, id: ID, k: nat) {
    && s.redis.main == [id] && |s.redis.processing| == 0 && |s.redis.dead| == 0
    && id in s.redis.jobs && s.redis.jobs[id].retryCount == k && s.redis.jobs[id].status == Pending
    && s.redis.jobs[id].callbackURL == CALLBACK
  }

  predicate Queued(s: State, id: ID, k: nat) {
    OnMain(s, id, k) && s.loops == [Waiting]
  }

  lemma Submitted(loops: nat, stuck: nat, id: ID)
    ensures var s := Exec(Init(loops, stuck), Submission(id));
      && OnMain(s, id, 0) && s.attempts == [] && |s.redis.finished| == 0
      && |s.loops| == loops && (forall l :: 0 <= l < loops ==> s.loops[l] == Waiting)
  {
    var set_, push := PublishSet(id, CALLBACK, true), PublishPush(id, true);
    var s := Apply(Init(loops, stuck), set_);
    Undisturbed.ExecCons(Init(loops, stuck), set_, [push]);
    Undisturbed.ExecOne(s, push);
    assert [set_] + [push] == Submission(id);
  }

  /** Consumed, and its SetJobProcessing just done. */
  predicate AtWork(s: State, id: ID, k: nat) {
    && |s.redis.main| == 0 && s.redis.processing == [id] && |s.redis.dead| == 0
    && id in s.redis.jobs && s.redis.jobs[id].retryCount == k && s.redis.jobs[id].callbackURL == CALLBACK
    && s.redis.jobs[id].status == Processing && s.redis.jobs[id].updatedAt == Seconds(s.now)
  }

  const NOTE := Note("", "", Artifacts("", "", "", "", ""), None)

  function ClaimEvents(i: nat): seq<Event> {
    [Consume, Step(i, true, NOTE), Step(i, true, NOTE)]
  }

  lemma TakesListed(s: State, id: ID, k: nat)
    requires OnMain(s, id, k)
    ensures var t := Apply(s, Consume);
      && t.redis.main == [] && t.redis.processing == [id]
      && t.redis.dead == s.redis.dead && t.redis.finished == s.redis.finished && t.redis.jobs == s.redis.jobs
      && t.attempts == s.attempts + [Attempt(id, ProcGet, None)]
  {
    hide TallyOf, RunningOn;
  }

  /** The first two steps of an attempt on a pending job. */
  lemma Marks(s: State, id: ID, k: nat, i: nat)
    requires id in s.redis.jobs && s.redis.jobs[id].retryCount == k && s.redis.jobs[id].callbackURL == CALLBACK
    requires i < |s.attempts| && s.attempts[i] == Attempt(id, ProcGet, None)
    ensures var t := Exec(s, [Step(i, true, NOTE), Step(i, true, NOTE)]);
      && t.redis.main == s.redis.main && t.redis.processing == s.redis.processing
      && t.redis.dead == s.redis.dead && t.redis.finished == s.redis.finished
      && id in t.redis.jobs && t.redis.jobs[id].retryCount == k && t.redis.jobs[id].callbackURL == CALLBACK
      && t.redis.jobs[id].status == Processing && t.redis.jobs[id].updatedAt == Seconds(t.now)
      && t.loops == s.loops && t.stuck == s.stuck
      && t.attempts == s.attempts[i := Attempt(id, Stat, Some(s.now))]
  {
    hide Apply, Exec, ViewOf, Seconds;
    var step := Step(i, true, NOTE);
    var s1 := Apply(s, step);
    assert [step] + [step] == [step, step];
    Undisturbed.ExecCons(s, step, [step]);
    Undisturbed.ExecOne(s1, step);
    Undisturbed.ViewJob(s, id);
    Undisturbed.Stepped(s, i, true, NOTE);
    Undisturbed.Stepped(s1, i, true, NOTE);
    Moves(s, step);
    Moves(s1, step);
  }

  lemma Claims(s: State, id: ID, k: nat)
    requires OnMain(s, id, k)
    ensures var i, t := |s.attempts|, Exec(s, ClaimEvents(|s.attempts|));
      && AtWork(t, id, k) && t.attempts == s.attempts + [Attempt(id, Stat, Some(s.now))]
      && t.stuck == s.stuck && t.loops == s.loops && t.redis.finished == s.redis.finished
  {
    hide Apply, Exec, Seconds;
    var i := |s.attempts|;
    var step := Step(i, true, NOTE);
    var s1 := Apply(s, Consume);
    TakesListed(s, id, k);
    Moves(s, Consume);
    Marks(s1, id, k, i);
    Undisturbed.ExecCons(s, Consume, [step, step]);
    assert [Consume] + [step, step] == ClaimEvents(i);
  }

  const ANSWERED := RecoverySweep.Reply(true, true, true, true, 0)

  /** Long after its claim, a sweep takes the job back and counts one more retry. */
  lemma Recovers(s: State, id: ID, k: nat) returns (es: seq<Event>)
    requires AtWork(s, id, k) && s.loops == [Waiting]
    ensures var t := Exec(s, es);
      && Queued(t, id, k + 1) && t.attempts == s.attempts && t.stuck == s.stuck
      && t.redis.finished == s.redis.finished
    ensures forall e <- es :: e.Tick? || e.SweepStart? || (e.Sweep? && e.ok)
  {
    hide Apply, Exec;
    var tick, start := Tick(s.stuck + 2 * SECOND), SweepStart(0);
    var s1 := Apply(s, tick);
    var s2 := Apply(s1, start);
    Waits(s, tick);
    Moves(s, tick);
    Moves(s1, start);
    Snapshot(s1, 0);
    var threshold := Threshold(s2.now, s2.stuck);
    var replies := [ANSWERED.(at := s2.now)];
    var sweep := Undisturbed.SweepEvents(s2.redis, 0, [id], threshold, replies);
    Undisturbed.SweepRuns(s2, 0, [id], threshold, replies);
    StuckMeansOverdue(s.now, s2.now, s2.stuck);
    SweepsOne(s2.redis, id, threshold, replies[0]);
    SameSides(s2, sweep);
    es := [tick] + ([start] + sweep);
    Undisturbed.ExecCons(s, tick, [start] + sweep);
    Undisturbed.ExecCons(s1, start, sweep);
  }

  lemma Waits(s: State, e: Event)
    requires e.Tick?
    ensures Apply(s, e).redis == s.redis
  {
  }

  lemma SweepsOne(r: Redis, id: ID, threshold: int, reply: RecoverySweep.Reply)
    requires |r.main| == 0 && r.processing == [id] && RecoverySweep.IsStuck(r, id, threshold)
    requires reply.getOk && reply.setOk && reply.remOk && reply.pushOk
    ensures var q := RecoverySweep.SweepAll(r, [id], threshold, [reply]);
      && q.main == [id] && |q.processing| == 0 && q.dead == r.dead && q.finished == r.finished
      && id in q.jobs && q.jobs[id].status == Pending && q.jobs[id].retryCount == r.jobs[id].retryCount + 1
      && q.jobs[id].callbackURL == r.jobs[id].callbackURL
  {
    var q := RecoverySweep.SweepOne(r, id, threshold, reply);
    assert [id][1..] == [] && [reply][1..] == [];
    assert RecoverySweep.SweepAll(r, [id], threshold, [reply]) == q;
    assert LRem([id], id) == [];
  }

  /** Sweeps leave the attempts alone, and one loop stays one loop. */
  lemma {:induction false} SameSides(s: State, es: seq<Event>)
    requires forall e <- es :: e.Sweep?
    ensures var t := Exec(s, es);
      t.attempts == s.attempts && t.stuck == s.stuck && |t.loops| == |s.loops|
    decreases |es|
  {
    hide Apply, ViewOf, NextLoop;
    if |es| > 0 {
      assert es[0].Sweep?;
      Moves(s, es[0]);
      SameSides(Apply(s, es[0]), es[1..]);
    }
  }

  lemma Dies(s: State, id: ID, k: nat, i: nat)
    requires AtWork(s, id, k)
    ensures AtWork(Apply(s, Crash(i)), id, k) && Apply(s, Crash(i)).loops == s.loops
    ensures Apply(s, Crash(i)).stuck == s.stuck && Apply(s, Crash(i)).redis.finished == s.redis.finished
  {
  }

  lemma Snapshot(s: State, l: nat)
    requires l < |s.loops| && s.loops[l] == Waiting
    ensures var t := Apply(s, SweepStart(l));
      && t.redis == s.redis && t.now == s.now
      && l < |t.loops| && t.loops[l] == Scanning(s.redis.processing, Threshold(s.now, s.stuck))
  {
  }

  /* ---- an attempt and its source ---- */

  predicate SourceAt(s: State, i: nat, id: ID, pc: Pc, raw: Option<Content>) {
    Undisturbed.On(s, i, id, pc) && ViewOf(s, id).raw == raw
  }

  lemma Views(s: State, i: nat, id: ID, pc: Pc)
    requires Undisturbed.On(s, i, id, pc) && pc != Ended
    ensures var (c, a') := NextAttempt(ViewOf(s, id), s.attempts[i], true, NOTE, s.now);
      var t := Apply(s, Step(i, true, NOTE));
      ViewOf(t, id) == PerformView(ViewOf(s, id), c, s.now) && Undisturbed.On(t, i, id, a'.pc)
  {
    hide Apply, ViewOf, NextAttempt, PerformView;
    Projects(s, Step(i, true, NOTE), id);
    Moves(s, Step(i, true, NOTE));
    NextAttemptKeeps(ViewOf(s, id), s.attempts[i], true, NOTE, s.now);
  }

  lemma Advances(s: State, i: nat, id: ID, pc: Pc, next: Pc, source: Content)
    requires SourceAt(s, i, id, pc, Some(source))
    requires (pc == Stat && next == Read) || (pc == Read && next == Process) || (pc == Process && next == Upload) ||
             (pc == Upload && next == Copy)
    ensures SourceAt(Apply(s, Step(i, true, NOTE)), i, id, next, Some(source))
  {
    hide Apply, ViewOf;
    Views(s, i, id, pc);
  }

  lemma CopiesSource(s: State, i: nat, id: ID, source: Content)
    requires SourceAt(s, i, id, Copy, Some(source))
    ensures var t := Apply(s, Step(i, true, NOTE));
      SourceAt(t, i, id, Drop, Some(source)) && ViewOf(t, id).archived == Some(source)
  {
    hide Apply, ViewOf;
    Views(s, i, id, Copy);
  }

  lemma SourceUploaded(s: State, i: nat, id: ID, pc: Pc, source: Content)
    requires Undisturbed.On(s, i, id, pc)
    ensures var t := Apply(s, UploadRaw(id, source));
      && SourceAt(t, i, id, pc, Some(source)) && ViewOf(t, id).archived == ViewOf(s, id).archived
      && ViewOf(t, id).log.latest == source
  {
    hide Apply, ViewOf, RemovingOn;
    Projects(s, UploadRaw(id, source), id);
    Moves(s, UploadRaw(id, source));
  }

  lemma Drops(s: State, i: nat, id: ID, source: Content)
    requires SourceAt(s, i, id, Drop, Some(source))
    ensures var x, y := ViewOf(s, id), ViewOf(Apply(s, Step(i, true, NOTE)), id);
      y.raw == None && y.archived == x.archived && y.log.latest == x.log.latest
  {
    hide Apply, ViewOf;
    Views(s, i, id, Drop);
  }

  lemma AtIsOn(s: State, i: nat, id: ID, pc: Pc, raw: Option<Content>)
    requires SourceAt(s, i, id, pc, raw)
    ensures Undisturbed.On(s, i, id, pc)
  {
  }
}
