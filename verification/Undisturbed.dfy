/** The step machine, run without interleaving, does what the client's methods do. */
module Undisturbed {
  import opened Jobs
  import opened RedisStore
  import opened Protocol
  import opened Projection
  import opened RecoverySweep
  import opened Queue

  lemma ExecOne(s: State, e: Event)
    ensures Exec(s, [e]) == Apply(s, e)
  {
    hide Apply;
    assert [e][1..] == [];
  }

  lemma ExecCons(s: State, e: Event, es: seq<Event>)
    ensures Exec(s, [e] + es) == Exec(Apply(s, e), es)
  {
    hide Apply;
    assert ([e] + es)[1..] == es;
  }

  /** What one step leaves. */
  lemma Stepped(s: State, i: nat, ok: bool, note: Note)
    requires i < |s.attempts| && s.attempts[i].pc != Ended
    ensures var a := s.attempts[i];
      var (c, a') := NextAttempt(ViewOf(s, a.id), a, ok, note, s.now);
      var t := Apply(s, Step(i, ok, note));
      t.redis == RedisAfter(s.redis, a.id, c, s.now) && t.attempts == s.attempts[i := a'] && t.now == s.now
  {
    hide NextAttempt, RedisAfter, ObjectsAfter, TallyAfter, ViewOf;
  }

  lemma Swept(s: State, l: nat, ok: bool)
    requires l < |s.loops| && Subject(s.loops[l]).Some?
    ensures var id := Subject(s.loops[l]).value;
      var (c, l') := NextLoop(ViewOf(s, id), s.loops[l], ok);
      var t := Apply(s, Sweep(l, ok));
      t.redis == RedisAfter(s.redis, id, c, s.now) && t.loops == s.loops[l := l'] && t.now == s.now
  {
    hide NextLoop, RedisAfter, ObjectsAfter, TallyAfter, ViewOf;
  }

  lemma ViewJob(s: State, id: ID)
    ensures ViewOf(s, id).job == s.redis.Find(id)
  {
  }

  /** One command of a recovery loop: what it does to Redis, and where the loop goes. */
  function LoopOnRedis(r: Redis, l: Loop, ok: bool, now: nat): (Redis, Loop)
    requires Subject(l).Some?
  {
    match l
    case Scanning(todo, threshold) =>
      var found := Found(r, todo[0], ok);
      (r, if found.Some? && Stuck(found.value, threshold)
          then Marking(todo[0], MarkRecovered(found.value), todo[1..], threshold) else Scanning(todo[1..], threshold))
    case Marking(id, job, todo, threshold) =>
      if ok then (r.Put(id, job, now), Unlisting(id, todo, threshold)) else (r, Scanning(todo, threshold))
    case Unlisting(id, todo, threshold) => (if ok then r.Remove(id) else r, Returning(id, todo, threshold))
    case Returning(id, todo, threshold) => (if ok then r.PushMain(id) else r, Scanning(todo, threshold))
  }

  lemma NextLoopOnRedis(x: View, r: Redis, l: Loop, ok: bool, now: nat)
    requires Subject(l).Some? && x.job == r.Find(Subject(l).value)
    ensures var (c, l') := NextLoop(x, l, ok);
      (RedisAfter(r, Subject(l).value, c, now), l') == LoopOnRedis(r, l, ok, now)
  {
    hide MarkRecovered, Redis.Put, Redis.Remove, Redis.PushMain, Stuck;
  }

  lemma SweepsOnRedis(s: State, l: nat, ok: bool)
    requires l < |s.loops| && Subject(s.loops[l]).Some?
    ensures var (r, l') := LoopOnRedis(s.redis, s.loops[l], ok, s.now);
      var t := Apply(s, Sweep(l, ok));
      t.redis == r && t.loops == s.loops[l := l'] && t.now == s.now
  {
    hide Apply, NextLoop, RedisAfter, ViewOf, LoopOnRedis;
    var id := Subject(s.loops[l]).value;
    ViewJob(s, id);
    Swept(s, l, ok);
    NextLoopOnRedis(ViewOf(s, id), s.redis, s.loops[l], ok, s.now);
  }

  /** The machine's publisher does what PublishJob does ... */
  lemma PublishRuns(s: State, id: ID, callbackURL: string, setOk: bool, pushOk: bool)
    ensures var es := [PublishSet(id, callbackURL, setOk)] + if setOk then [PublishPush(id, pushOk)] else [];
      var written := if setOk then s.redis.Put(id, NewJob(callbackURL, s.now), s.now) else s.redis;
      Exec(s, es).redis == if setOk && pushOk then written.PushMain(id) else written
  {
    hide TallyUpload;
    var set_ := PublishSet(id, callbackURL, setOk);
    var t := Apply(s, set_);
    if setOk {
      ExecCons(s, set_, [PublishPush(id, pushOk)]);
      ExecOne(t, PublishPush(id, pushOk));
    } else {
      ExecCons(s, set_, []);
    }
  }

  /** ... and its consumer what ConsumeMessage does. */
  lemma ConsumeRuns(s: State)
    ensures Apply(s, Consume).redis == if s.redis.main != [] then s.redis.Take() else s.redis
  {
    hide TallyOf, RunningOn;
  }

  /* ---- a whole sweep ---- */

  function EntryEvents(r: Redis, l: nat, id: ID, threshold: int, reply: Reply): seq<Event> {
    [Sweep(l, reply.getOk)] +
    if !(reply.getOk && IsStuck(r, id, threshold)) then []
    else [Sweep(l, reply.setOk)] + if !reply.setOk then [] else [Sweep(l, reply.remOk), Sweep(l, reply.pushOk)]
  }

  function SweepEvents(r: Redis, l: nat, ids: seq<ID>, threshold: int, replies: seq<Reply>): seq<Event>
    requires |ids| <= |replies|
    decreases |ids|
  {
    if |ids| == 0 then [Sweep(l, true)]
    else EntryEvents(r, l, ids[0], threshold, replies[0]) +
         SweepEvents(SweepOne(r, ids[0], threshold, replies[0]), l, ids[1..], threshold, replies[1..])
  }

  predicate At(s: State, l: nat, todo: seq<ID>, threshold: int) {
    l < |s.loops| && s.loops[l] == Scanning(todo, threshold)
  }

  function Moved(r: Redis, id: ID, reply: Reply): Redis {
    var unlisted := if reply.remOk then r.Remove(id) else r;
    if reply.pushOk then unlisted.PushMain(id) else unlisted
  }

  lemma MoveSwept(s: State, l: nat, id: ID, todo: seq<ID>, threshold: int, reply: Reply)
    requires l < |s.loops| && s.loops[l] == Unlisting(id, todo, threshold)
    ensures var t := Exec(s, [Sweep(l, reply.remOk), Sweep(l, reply.pushOk)]);
      t.redis == Moved(s.redis, id, reply) && At(t, l, todo, threshold) && t.now == s.now
  {
    hide Apply, Exec, Redis.Remove, Redis.PushMain;
    var rem, push := Sweep(l, reply.remOk), Sweep(l, reply.pushOk);
    SweepsOnRedis(s, l, reply.remOk);
    SweepsOnRedis(Apply(s, rem), l, reply.pushOk);
    assert [rem] + [push] == [rem, push];
    ExecCons(s, rem, [push]);
    ExecOne(Apply(s, rem), push);
  }

  lemma MarkSwept(s: State, l: nat, id: ID, job: Job, todo: seq<ID>, threshold: int, reply: Reply)
    requires l < |s.loops| && s.loops[l] == Marking(id, job, todo, threshold)
    ensures var set_ := Sweep(l, reply.setOk);
      var t := Exec(s, [set_] + if !reply.setOk then [] else [Sweep(l, reply.remOk), Sweep(l, reply.pushOk)]);
      && t.redis == (if reply.setOk then Moved(s.redis.Put(id, job, s.now), id, reply) else s.redis)
      && At(t, l, todo, threshold) && t.now == s.now
  {
    hide Apply, Exec, Moved, Redis.Put;
    var set_ := Sweep(l, reply.setOk);
    SweepsOnRedis(s, l, reply.setOk);
    var t := Apply(s, set_);
    if reply.setOk {
      ExecCons(s, set_, [Sweep(l, reply.remOk), Sweep(l, reply.pushOk)]);
      MoveSwept(t, l, id, todo, threshold, reply);
    } else {
      ExecCons(s, set_, []);
      ExecNone(t);
    }
  }

  lemma EntrySwept(s: State, l: nat, todo: seq<ID>, threshold: int, reply: Reply)
    requires At(s, l, todo, threshold) && |todo| > 0 && reply.at == s.now
    ensures var t := Exec(s, EntryEvents(s.redis, l, todo[0], threshold, reply));
      t.redis == SweepOne(s.redis, todo[0], threshold, reply) && At(t, l, todo[1..], threshold) && t.now == s.now
  {
    hide Apply, Exec, MarkRecovered, Redis.Put, Redis.Remove, Redis.PushMain;
    var id, get := todo[0], Sweep(l, reply.getOk);
    SweepsOnRedis(s, l, reply.getOk);
    var t := Apply(s, get);
    if !(reply.getOk && IsStuck(s.redis, id, threshold)) {
      ExecCons(s, get, []);
      ExecNone(t);
    } else {
      ExecCons(s, get, [Sweep(l, reply.setOk)] +
                       if !reply.setOk then [] else [Sweep(l, reply.remOk), Sweep(l, reply.pushOk)]);
      MarkSwept(t, l, id, MarkRecovered(s.redis.jobs[id]), todo[1..], threshold, reply);
    }
  }

  lemma ExecNone(s: State)
    ensures Exec(s, []) == s
  {
  }

  /** The recovery loop of the machine, left alone, leaves what recoverStuckJobs leaves. */
  lemma {:induction false} SweepRuns(s: State, l: nat, todo: seq<ID>, threshold: int, replies: seq<Reply>)
    requires At(s, l, todo, threshold) && |todo| <= |replies|
    requires forall k :: 0 <= k < |replies| ==> replies[k].at == s.now
    ensures var t := Exec(s, SweepEvents(s.redis, l, todo, threshold, replies));
      t.redis == SweepAll(s.redis, todo, threshold, replies) && l < |t.loops| && t.loops[l] == Waiting
    decreases |todo|
  {
    hide Apply, Exec, EntryEvents, SweepOne;
    if |todo| == 0 {
      ExecOne(s, Sweep(l, true));
      SweepEnds(s, l, threshold);
    } else {
      var entry := EntryEvents(s.redis, l, todo[0], threshold, replies[0]);
      EntrySwept(s, l, todo, threshold, replies[0]);
      var t := Exec(s, entry);
      ExecSplit(s, entry, SweepEvents(t.redis, l, todo[1..], threshold, replies[1..]));
      SweepRuns(t, l, todo[1..], threshold, replies[1..]);
    }
  }

  lemma SweepEnds(s: State, l: nat, threshold: int)
    requires l < |s.loops| && s.loops[l].Scanning? && |s.loops[l].todo| == 0
    ensures var t := Apply(s, Sweep(l, true));
      t.redis == s.redis && l < |t.loops| && t.loops[l] == Waiting
  {
  }

  /* ---- the end of a failed attempt ---- */

  predicate On(s: State, i: nat, id: ID, pc: Pc) {
    i < |s.attempts| && s.attempts[i].id == id && s.attempts[i].pc == pc
  }

  function AckEvents(i: nat, a: Replies, note: Note): seq<Event> {
    [Step(i, a.ack, note)]
  }

  function PushEvents(i: nat, a: Replies, note: Note): seq<Event> {
    [Step(i, a.requeuePush, note)] + AckEvents(i, a, note)
  }

  function RequeueEvents(r: Redis, i: nat, id: ID, a: Replies, note: Note): seq<Event> {
    [Step(i, a.requeueGet, note)] +
    if Found(r, id, a.requeueGet).None? then PushEvents(i, a, note)
    else [Step(i, a.requeueSet, note)] + if a.requeueSet then PushEvents(i, a, note) else AckEvents(i, a, note)
  }

  function FailureEvents(r: Redis, i: nat, id: ID, a: Replies, note: Note, now: nat): seq<Event> {
    var failed := MarkFailed(Found(r, id, a.failGet), now, note.error);
    [Step(i, a.failGet, note)] + ([Step(i, a.failSet, note)] + FailedEvents(r, i, id, failed, a, note, now))
  }

  function Acked(r: Redis, id: ID, a: Replies): Redis {
    if a.ack then r.Remove(id) else r
  }

  predicate Over(s: State, t: State, i: nat, id: ID) {
    On(t, i, id, Ended) && t.now == s.now
  }

  /* ---- single commands ---- */

  predicate Failing(pc: Pc) {
    pc == FailGet || pc.FailSet? || pc == RequeueGet || pc.RequeueSet? || pc == RequeuePush || pc.Bury?
  }

  predicate Finishing(pc: Pc) {
    pc == UploadArtifacts || pc == Publish || pc == DoneGet || pc.DoneSet? || pc == HookGet || pc.Ack?
  }

  /** The commands that leave the bucket alone and do not depend on it: what they do to Redis, and
      where the attempt goes. */
  function OnRedis(r: Redis, id: ID, pc: Pc, ok: bool, note: Note, now: nat): (Redis, Pc)
    requires Failing(pc) || Finishing(pc)
  {
    match pc
    case FailGet => (r, FailSet(MarkFailed(Found(r, id, ok), now, note.error)))
    case FailSet(job) =>
      if !ok then (r, Bury(None))
      else (r.Put(id, job, now), if job.retryCount <= MAX_JOB_RETRIES then RequeueGet else Bury(Some(job)))
    case RequeueGet =>
      var found := Found(r, id, ok);
      (r, if found.Some? then RequeueSet(MarkRequeued(found.value)) else RequeuePush)
    case RequeueSet(job) => if ok then (r.Put(id, job, now), RequeuePush) else (r, Ack(AfterLoss))
    case RequeuePush => if ok then (r.PushMain(id), Ack(AfterRequeue)) else (r, Ack(AfterLoss))
    case Bury(_) => if ok then (r.PushDead(id), Ack(AfterDeath)) else (r, Ack(AfterLoss))
    case UploadArtifacts => (r, Publish)
    case Publish => if ok then (r.PushFinished(ProcessedId(id)), DoneGet) else (r, FailGet)
    case DoneGet => (r, DoneSet(MarkDone(Found(r, id, ok), now, note.artifacts, note.metadata)))
    case DoneSet(job) => (if ok then r.Put(id, job, now) else r, HookGet)
    case HookGet => (r, Ack(AfterSuccess))
    case Ack(_) => (if ok then r.Remove(id) else r, Ended)
  }

  lemma FailingOnRedis(x: View, r: Redis, a: Attempt, ok: bool, note: Note, now: nat)
    requires Failing(a.pc) && x.job == r.Find(a.id)
    ensures var (c, a') := NextAttempt(x, a, ok, note, now);
      && (RedisAfter(r, a.id, c, now), a'.pc) == OnRedis(r, a.id, a.pc, ok, note, now)
      && !c.PutProcessed? && !c.CopyRaw? && !c.DropRaw?
  {
    hide MarkFailed, MarkRequeued, Redis.Put, Redis.PushMain, Redis.PushDead;
  }

  lemma FinishingOnRedis(x: View, r: Redis, a: Attempt, ok: bool, note: Note, now: nat)
    requires Finishing(a.pc) && x.job == r.Find(a.id)
    ensures var (c, a') := NextAttempt(x, a, ok, note, now);
      && (RedisAfter(r, a.id, c, now), a'.pc) == OnRedis(r, a.id, a.pc, ok, note, now)
      && !c.PutProcessed? && !c.CopyRaw? && !c.DropRaw?
  {
    hide MarkDone, Redis.Put, Redis.PushFinished, Redis.Remove;
  }

  lemma StepsOnRedis(s: State, i: nat, id: ID, pc: Pc, ok: bool, note: Note)
    requires On(s, i, id, pc) && (Failing(pc) || Finishing(pc))
    ensures var (r, next) := OnRedis(s.redis, id, pc, ok, note, s.now);
      var t := Apply(s, Step(i, ok, note));
      t.redis == r && t.now == s.now && On(t, i, id, next)
  {
    hide Apply, NextAttempt, RedisAfter, ViewOf, OnRedis;
    ViewJob(s, id);
    Stepped(s, i, ok, note);
    NextAttemptKeeps(ViewOf(s, id), s.attempts[i], ok, note, s.now);
    if Failing(pc) {
      FailingOnRedis(ViewOf(s, id), s.redis, s.attempts[i], ok, note, s.now);
    } else {
      FinishingOnRedis(ViewOf(s, id), s.redis, s.attempts[i], ok, note, s.now);
    }
  }

  /* ---- the end of a failed attempt, put together ---- */

  lemma AckRuns(s: State, i: nat, id: ID, why: Settled, a: Replies, note: Note)
    requires On(s, i, id, Ack(why))
    ensures var t := Exec(s, AckEvents(i, a, note));
      t.redis == Acked(s.redis, id, a) && Over(s, t, i, id)
  {
    hide Apply, Exec;
    StepsOnRedis(s, i, id, Ack(why), a.ack, note);
    ExecOne(s, Step(i, a.ack, note));
  }

  lemma PushRuns(s: State, i: nat, id: ID, a: Replies, note: Note)
    requires On(s, i, id, RequeuePush)
    ensures var t := Exec(s, PushEvents(i, a, note));
      t.redis == Acked(if a.requeuePush then s.redis.PushMain(id) else s.redis, id, a) && Over(s, t, i, id)
  {
    hide Apply, Exec, Acked, AckEvents;
    var e := Step(i, a.requeuePush, note);
    StepsOnRedis(s, i, id, RequeuePush, a.requeuePush, note);
    AckRuns(Apply(s, e), i, id, if a.requeuePush then Settled.AfterRequeue else Settled.AfterLoss, a, note);
    ExecCons(s, e, AckEvents(i, a, note));
  }

  lemma RequeueSetRuns(s: State, i: nat, id: ID, job: Job, a: Replies, note: Note)
    requires On(s, i, id, RequeueSet(job))
    ensures var t := Exec(s, [Step(i, a.requeueSet, note)] +
                             if a.requeueSet then PushEvents(i, a, note) else AckEvents(i, a, note));
      && t.redis == (if !a.requeueSet then Acked(s.redis, id, a)
                     else Acked(if a.requeuePush then s.redis.Put(id, job, s.now).PushMain(id)
                                else s.redis.Put(id, job, s.now), id, a))
      && Over(s, t, i, id)
  {
    hide Apply, Exec, Acked, AckEvents, PushEvents, Redis.Put;
    var set_ := Step(i, a.requeueSet, note);
    StepsOnRedis(s, i, id, RequeueSet(job), a.requeueSet, note);
    ExecCons(s, set_, if a.requeueSet then PushEvents(i, a, note) else AckEvents(i, a, note));
    if a.requeueSet {
      PushRuns(Apply(s, set_), i, id, a, note);
    } else {
      AckRuns(Apply(s, set_), i, id, Settled.AfterLoss, a, note);
    }
  }

  lemma RequeueRuns(s: State, i: nat, id: ID, a: Replies, note: Note)
    requires On(s, i, id, RequeueGet)
    ensures var t := Exec(s, RequeueEvents(s.redis, i, id, a, note));
      t.redis == Acked(AfterRequeueJob(s.redis, id, a, s.now), id, a) && Over(s, t, i, id)
  {
    hide Apply, Exec, Acked, AckEvents, PushEvents, MarkRequeued, Redis.Put, Found;
    var get := Step(i, a.requeueGet, note);
    StepsOnRedis(s, i, id, RequeueGet, a.requeueGet, note);
    var found := Found(s.redis, id, a.requeueGet);
    if found.None? {
      ExecCons(s, get, PushEvents(i, a, note));
      PushRuns(Apply(s, get), i, id, a, note);
    } else {
      ExecCons(s, get, [Step(i, a.requeueSet, note)] +
                       if a.requeueSet then PushEvents(i, a, note) else AckEvents(i, a, note));
      RequeueSetRuns(Apply(s, get), i, id, MarkRequeued(found.value), a, note);
    }
  }

  lemma BuryRuns(s: State, i: nat, id: ID, failed: Option<Job>, a: Replies, note: Note)
    requires On(s, i, id, Bury(failed))
    ensures var t := Exec(s, [Step(i, a.bury, note)] + AckEvents(i, a, note));
      t.redis == Acked(if a.bury then s.redis.PushDead(id) else s.redis, id, a) && Over(s, t, i, id)
  {
    hide Apply, Exec, Acked, AckEvents;
    var e := Step(i, a.bury, note);
    StepsOnRedis(s, i, id, Bury(failed), a.bury, note);
    AckRuns(Apply(s, e), i, id, if a.bury then Settled.AfterDeath else Settled.AfterLoss, a, note);
    ExecCons(s, e, AckEvents(i, a, note));
  }

  function FailedEvents(r: Redis, i: nat, id: ID, failed: Job, a: Replies, note: Note, now: nat): seq<Event> {
    if Retried(failed, a)
    then RequeueEvents(r.Put(id, failed, now), i, id, a, note)
    else [Step(i, a.bury, note)] + AckEvents(i, a, note)
  }

  predicate Retried(failed: Job, a: Replies) {
    a.failSet && failed.retryCount <= MAX_JOB_RETRIES
  }

  lemma FailSetRetries(s: State, i: nat, id: ID, failed: Job, a: Replies, note: Note)
    requires On(s, i, id, FailSet(failed)) && Retried(failed, a)
    ensures var r := s.redis.Put(id, failed, s.now);
      var t := Exec(s, [Step(i, a.failSet, note)] + RequeueEvents(r, i, id, a, note));
      t.redis == Acked(AfterRequeueJob(r, id, a, s.now), id, a) && Over(s, t, i, id)
  {
    hide Apply, Exec, Acked, RequeueEvents, AfterRequeueJob, Redis.Put;
    var set_ := Step(i, a.failSet, note);
    StepsOnRedis(s, i, id, FailSet(failed), a.failSet, note);
    ExecCons(s, set_, RequeueEvents(s.redis.Put(id, failed, s.now), i, id, a, note));
    RequeueRuns(Apply(s, set_), i, id, a, note);
  }

  lemma FailSetBuries(s: State, i: nat, id: ID, failed: Job, a: Replies, note: Note)
    requires On(s, i, id, FailSet(failed)) && !Retried(failed, a)
    ensures var r := if a.failSet then s.redis.Put(id, failed, s.now) else s.redis;
      var t := Exec(s, [Step(i, a.failSet, note)] + ([Step(i, a.bury, note)] + AckEvents(i, a, note)));
      t.redis == Acked(if a.bury then r.PushDead(id) else r, id, a) && Over(s, t, i, id)
  {
    hide Apply, Exec, Acked, AckEvents, Redis.Put, Redis.PushDead;
    var set_ := Step(i, a.failSet, note);
    StepsOnRedis(s, i, id, FailSet(failed), a.failSet, note);
    ExecCons(s, set_, [Step(i, a.bury, note)] + AckEvents(i, a, note));
    BuryRuns(Apply(s, set_), i, id, if a.failSet then Some(failed) else None, a, note);
  }

  lemma FailSetRuns(s: State, i: nat, id: ID, failed: Job, a: Replies, note: Note)
    requires On(s, i, id, FailSet(failed))
    ensures var r := if a.failSet then s.redis.Put(id, failed, s.now) else s.redis;
      var t := Exec(s, [Step(i, a.failSet, note)] + FailedEvents(s.redis, i, id, failed, a, note, s.now));
      && t.redis == (if Retried(failed, a)
                     then Acked(AfterRequeueJob(r, id, a, s.now), id, a)
                     else Acked(if a.bury then r.PushDead(id) else r, id, a))
      && Over(s, t, i, id)
  {
    hide *;
    if Retried(failed, a) {
      EventsOfRetry(s.redis, i, id, failed, a, note, s.now);
      FailSetRetries(s, i, id, failed, a, note);
    } else {
      EventsOfBurial(s.redis, i, id, failed, a, note, s.now);
      FailSetBuries(s, i, id, failed, a, note);
    }
  }

  lemma EventsOfRetry(r: Redis, i: nat, id: ID, failed: Job, a: Replies, note: Note, now: nat)
    requires Retried(failed, a)
    ensures a.failSet && FailedEvents(r, i, id, failed, a, note, now) ==
        RequeueEvents(r.Put(id, failed, now), i, id, a, note)
  {
    hide RequeueEvents, Redis.Put;
  }

  lemma EventsOfBurial(r: Redis, i: nat, id: ID, failed: Job, a: Replies, note: Note, now: nat)
    requires !Retried(failed, a)
    ensures FailedEvents(r, i, id, failed, a, note, now) == [Step(i, a.bury, note)] + AckEvents(i, a, note)
  {
    hide RequeueEvents, AckEvents;
  }

  /** A failing attempt of the machine, left alone, leaves what SettleAttempt leaves. */
  lemma FailureRuns(s: State, i: nat, id: ID, a: Replies, note: Note)
    requires On(s, i, id, FailGet)
    ensures var t := Exec(s, FailureEvents(s.redis, i, id, a, note, s.now));
      t.redis == AfterSettling(s.redis, id, Some(note.error), a, s.now) && Over(s, t, i, id)
  {
    hide Apply, Exec, AckEvents, FailedEvents, AfterRequeueJob, MarkFailed, Redis.Put, Found;
    var get := Step(i, a.failGet, note);
    var failed := MarkFailed(Found(s.redis, id, a.failGet), s.now, note.error);
    StepsOnRedis(s, i, id, FailGet, a.failGet, note);
    ExecCons(s, get, [Step(i, a.failSet, note)] + FailedEvents(s.redis, i, id, failed, a, note, s.now));
    FailSetRuns(Apply(s, get), i, id, failed, a, note);
  }
}
