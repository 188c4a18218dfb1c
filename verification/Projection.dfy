/** One ID at a time: how an event changes what the state says about a given ID depends only on
    that, on the clock and on the attempt or loop that moves. */
module Projection {
  import opened Counting
  import opened RedisLists
  import opened Jobs
  import opened RedisStore
  import opened ObjectKeys
  import opened Protocol

  function PerformView(x: View, c: Command, now: nat): View {
    View(
      if c.Requeue? || c.Return? then x.main + 1 else x.main,
      if c.Unlist? && x.processing > 0 then x.processing - 1 else x.processing,
      if c.Entomb? then x.dead + 1 else x.dead,
      if c.Finish? then x.finished + 1 else x.finished,
      if c.Write? || c.Recover? then Some(Stamp(c.job, now)) else x.job,
      if c.DropRaw? then None else x.raw,
      if c.CopyRaw? && x.raw.Some? then x.raw else x.archived,
      if c.PutProcessed? then Some(c.output) else x.processed,
      TallyAfter(x.log, c))
  }

  lemma RedisSide(r: Redis, on: ID, c: Command, now: nat, id: ID)
    ensures var q := RedisAfter(r, on, c, now);
      && Copies(q.main, id) == Copies(r.main, id) + (if on == id && (c.Requeue? || c.Return?) then 1 else 0)
      && Copies(q.processing, id) ==
           Copies(r.processing, id) - (if on == id && c.Unlist? && Copies(r.processing, id) > 0 then 1 else 0)
      && Copies(q.dead, id) == Copies(r.dead, id) + (if on == id && c.Entomb? then 1 else 0)
      && Copies(q.finished, ProcessedId(id)) ==
           Copies(r.finished, ProcessedId(id)) + (if on == id && c.Finish? then 1 else 0)
      && q.Find(id) == if on == id && (c.Write? || c.Recover?) then Some(Stamp(c.job, now)) else r.Find(id)
  {
    hide Copies, LPush, ProcessedId, Stamp;
    match c
    case Requeue => LPushCopies(r.main, on, id);
    case Return => LPushCopies(r.main, on, id);
    case Entomb(_, _) => LPushCopies(r.dead, on, id);
    case Unlist => LRemCopies(r.processing, on, id);
    case Finish =>
      SameProcessedId(on, id);
      LPushCopies(r.finished, ProcessedId(on), ProcessedId(id));
    case _ =>
  }

  lemma ObjectSide(objects: map<Object, Content>, on: ID, c: Command, id: ID)
    ensures var q := ObjectsAfter(objects, on, c);
      var raw := ContentOf(objects, Object(Raw, id));
      && ContentOf(q, Object(Raw, id)) == (if on == id && c.DropRaw? then None else raw)
      && ContentOf(q, Object(RawArchived, id)) ==
           (if on == id && c.CopyRaw? && raw.Some? then raw else ContentOf(objects, Object(RawArchived, id)))
      && ContentOf(q, Object(Processed, ProcessedId(id))) ==
           (if on == id && c.PutProcessed? then Some(c.output)
               else ContentOf(objects, Object(Processed, ProcessedId(id))))
  {
    SameProcessedId(on, id);
  }

  lemma PerformsOn(s: State, on: ID, c: Command, id: ID)
    ensures ViewOf(Perform(s, on, c), id) ==
            if on == id then PerformView(ViewOf(s, id), c, s.now) else ViewOf(s, id)
  {
    RedisSide(s.redis, on, c, s.now, id);
    ObjectSide(s.objects, on, c, id);
  }

  lemma SameProcessedId(a: ID, b: ID)
    ensures ProcessedId(a) == ProcessedId(b) <==> a == b
  {
    if ProcessedId(a) == ProcessedId(b) {
      ProcessedIdInjective(a, b);
    }
  }

  predicate Steps(s: State, i: nat, id: ID) {
    i < |s.attempts| && s.attempts[i].pc != Ended && s.attempts[i].id == id
  }

  predicate Sweeps(s: State, l: nat, id: ID) {
    l < |s.loops| && Subject(s.loops[l]) == Some(id)
  }

  function RunningOf(id: ID): Attempt -> bool {
    (a: Attempt) => a.id == id && Running(a)
  }

  predicate Takes(s: State, id: ID) {
    s.redis.main != [] && s.redis.main[|s.redis.main| - 1] == id
  }

  function ViewAfter(s: State, e: Event, id: ID): View {
    var x := ViewOf(s, id);
    var t := x.log;
    match e
    case Tick(_) => x
    case UploadRaw(on, source) =>
      if on != id then x else x.(raw := Some(source), log := TallyUpload(t, source, RemovingOn(s, id)))
    case PublishSet(on, callbackURL, ok) =>
      if on != id || !ok then x
      else x.(job := Some(Stamp(NewJob(callbackURL, s.now), s.now)),
              log := t.(submitted := t.submitted + 1, publishing := t.publishing + 1))
    case PublishPush(on, ok) =>
      if on != id || t.publishing == 0 then x
      else if !ok then x.(log := t.(publishing := t.publishing - 1))
      else x.(main := x.main + 1, log := t.(publishing := t.publishing - 1, published := t.published + 1))
    case PushBare(on) =>
      if on != id then x
      else x.(main := x.main + 1, log := t.(submitted := t.submitted + 1, bare := t.bare +
          1, published := t.published + 1))
    case Consume =>
      if !Takes(s, id) || x.main == 0 then x
      else x.(main := x.main - 1, processing := x.processing + 1,
              log := t.(consumed := t.consumed + 1, overlapped := t.overlapped || RunningOn(s, id)))
    case Step(i, ok, note) =>
      if !Steps(s, i, id) then x
      else PerformView(x, NextAttempt(x, s.attempts[i], ok, note, s.now).0, s.now)
    case Crash(i) => if !Steps(s, i, id) then x else x.(log := t.(crashes := t.crashes + 1))
    case Expire(on) => if on != id then x else x.(job := None, log := t.(expiries := t.expiries + 1))
    case SweepStart(_) => x
    case Sweep(l, ok) =>
      if !Sweeps(s, l, id) then x else PerformView(x, NextLoop(x, s.loops[l], ok).0, s.now)
    case LoopDies(l) =>
      if !Sweeps(s, l, id) || !s.loops[l].Returning? then x else x.(log := t.(losses := t.losses + 1))
  }

  lemma ProjectsTake(s: State, e: Event, id: ID)
    requires e.Consume?
    ensures ViewOf(Apply(s, e), id) == ViewAfter(s, e, id)
    ensures Takes(s, id) ==> ViewOf(s, id).main > 0
  {
    hide RunningOn, Copies, LPush, StepLoop, StepAttempt, Perform, NextAttempt, NextLoop, PerformView;
    if s.redis.main != [] {
      LastCopies(s.redis.main, id);
      LPushCopies(s.redis.processing, s.redis.main[|s.redis.main| - 1], id);
    }
  }

  lemma ProjectsStep(s: State, e: Event, id: ID)
    requires e.Step?
    ensures ViewOf(Apply(s, e), id) == ViewAfter(s, e, id)
  {
    hide NextAttempt, Perform, PerformView, StepLoop, Take, Copies;
    var i := e.attempt;
    if i < |s.attempts| && s.attempts[i].pc != Ended {
      var a := s.attempts[i];
      PerformsOn(s, a.id, NextAttempt(ViewOf(s, a.id), a, e.ok, e.note, s.now).0, id);
    }
  }

  lemma ProjectsSweep(s: State, e: Event, id: ID)
    requires e.Sweep?
    ensures ViewOf(Apply(s, e), id) == ViewAfter(s, e, id)
  {
    hide NextLoop, Perform, PerformView, StepAttempt, Take, Copies;
    var l := e.loop;
    if l < |s.loops| && Subject(s.loops[l]).Some? {
      var on := Subject(s.loops[l]).value;
      PerformsOn(s, on, NextLoop(ViewOf(s, on), s.loops[l], e.ok).0, id);
    }
  }

  lemma ProjectsLoopDies(s: State, e: Event, id: ID)
    requires e.LoopDies?
    ensures ViewOf(Apply(s, e), id) == ViewAfter(s, e, id)
  {
    hide NextLoop, NextAttempt, StepLoop, StepAttempt, Take, Copies, RedisAfter, ObjectsAfter;
    hide Perform;
    var l := e.loop;
    if l < |s.loops| && s.loops[l].Returning? {
      PerformsOn(s.(loops := s.loops[l := Waiting]), s.loops[l].id, Lose, id);
    }
  }

  lemma ProjectsPublisher(s: State, e: Event, id: ID)
    requires e.PublishSet? || e.PublishPush? || e.PushBare?
    ensures ViewOf(Apply(s, e), id) == ViewAfter(s, e, id)
  {
    hide NextLoop, NextAttempt, Perform, PerformView, StepLoop, StepAttempt, Take, Copies, LPush;
    LPushCopies(s.redis.main, e.id, id);
  }

  lemma ProjectsStores(s: State, e: Event, id: ID)
    requires e.UploadRaw? || e.Expire?
    ensures ViewOf(Apply(s, e), id) == ViewAfter(s, e, id)
  {
    hide NextLoop, NextAttempt, Perform, PerformView, StepLoop, StepAttempt, Take, Copies, Overdue, Threshold;
    hide RemovingOn;
  }

  lemma ProjectsOthers(s: State, e: Event, id: ID)
    requires e.Tick? || e.Crash? || e.SweepStart?
    ensures ViewOf(Apply(s, e), id) == ViewAfter(s, e, id)
  {
    hide NextLoop, NextAttempt, Perform, PerformView, StepLoop, StepAttempt, Take, Copies, Overdue, Threshold;
  }

  /** What each command adds to the tally of its ID; the rest of it only other events change. */
  lemma TallyMoves(t: Tally, c: Command)
    ensures var u := TallyAfter(t, c);
      && u.submitted == t.submitted && u.bare == t.bare && u.publishing == t.publishing && u.published == t.published
      && u.consumed == t.consumed && u.overlapped == t.overlapped && u.expiries == t.expiries && u.crashes == t.crashes
      && u.uploads == t.uploads && u.latest == t.latest && u.racing == t.racing
      && u.failures == t.failures + Bit(c.Write? && c.job.status == Failed)
      && u.recoveries == t.recoveries + Bit(c.Recover?)
      && u.requeues == t.requeues + Bit(c.Requeue?)
      && u.handbacks == t.handbacks + Bit(c.Return?)
      && u.losses == t.losses + Bit(c.Lose? || c.LoseWrite?)
      && u.getFaults == t.getFaults + Bit(c.GetFault?)
      && u.setFaults == t.setFaults + Bit(c.SetFault? || c.FailFault? || c.LoseWrite?)
      && u.failFaults == t.failFaults + Bit(c.FailFault?)
      && u.archives == t.archives + Bit(c.DropRaw?)
      && u.archiveFaults == t.archiveFaults + Bit(c.ArchiveFault?)
      && u.deaths == (if c.Entomb? then t.deaths + [c.written] else t.deaths)
      && u.hooks == (if c.Notify? then t.hooks + [c.success] else if c.Entomb? &&
          c.hook then t.hooks + [false] else t.hooks)
  {
  }

  /** The view of one ID evolves on its own: everything but its own attempts and sweeps, its own
      publications and its own turn at the end of the main list leaves it alone. */
  lemma Projects(s: State, e: Event, id: ID)
    ensures ViewOf(Apply(s, e), id) == ViewAfter(s, e, id)
    ensures e.Consume? && Takes(s, id) ==> ViewOf(s, id).main > 0
  {
    hide ViewOf, Apply, ViewAfter;
    match e
    case Consume => ProjectsTake(s, e, id);
    case Step(_, _, _) => ProjectsStep(s, e, id);
    case Sweep(_, _) => ProjectsSweep(s, e, id);
    case LoopDies(_) => ProjectsLoopDies(s, e, id);
    case PublishSet(_, _, _) => ProjectsPublisher(s, e, id);
    case PublishPush(_, _) => ProjectsPublisher(s, e, id);
    case PushBare(_) => ProjectsPublisher(s, e, id);
    case UploadRaw(_, _) => ProjectsStores(s, e, id);
    case Expire(_) => ProjectsStores(s, e, id);
    case _ => ProjectsOthers(s, e, id);
  }

  /** Nothing has happened to the ID. */
  predicate Blank(x: View) {
    && x.main == 0 && x.processing == 0 && x.dead == 0 && x.finished == 0 && x.job.None?
    && x.raw.None? && x.archived.None? && x.processed.None?
    && x.log.submitted == 0 && x.log.bare == 0 && x.log.publishing == 0 && x.log.published == 0
    && x.log.consumed == 0 && !x.log.overlapped
    && x.log.failures == 0 && x.log.recoveries == 0 && x.log.requeues == 0 && x.log.handbacks == 0
    && x.log.losses == 0 && x.log.uploads == 0 && x.log.racing == 0 && x.log.archives == 0 && x.log.archiveFaults == 0
    && |x.log.deaths| == 0 && |x.log.hooks| == 0
  }

  lemma InitIsIdle(loops: nat, stuck: nat, id: ID)
    ensures var s := Init(loops, stuck);
      && |s.attempts| == 0 && |s.loops| == loops && s.late == {}
      && (forall l :: 0 <= l < loops ==> s.loops[l] == Waiting)
      && Blank(ViewOf(s, id))
  {
  }

  /** Where the attempts and loops stand after an event. */
  function AttemptsAfter(s: State, e: Event): seq<Attempt> {
    match e
    case Consume =>
      if s.redis.main == [] then s.attempts
      else s.attempts + [Attempt(s.redis.main[|s.redis.main| - 1], ProcGet, None)]
    case Step(i, ok, note) =>
      if i >= |s.attempts| || s.attempts[i].pc == Ended then s.attempts
      else s.attempts[i := NextAttempt(ViewOf(s, s.attempts[i].id), s.attempts[i], ok, note, s.now).1]
    case Crash(i) =>
      if i >= |s.attempts| || s.attempts[i].pc == Ended then s.attempts
      else s.attempts[i := s.attempts[i].(pc := Ended)]
    case _ => s.attempts
  }

  function LoopsAfter(s: State, e: Event): seq<Loop> {
    match e
    case SweepStart(l) =>
      if l >= |s.loops| || s.loops[l] != Waiting then s.loops
      else s.loops[l := Scanning(s.redis.processing, Threshold(s.now, s.stuck))]
    case Sweep(l, ok) =>
      if l >= |s.loops| || s.loops[l] == Waiting then s.loops
      else if Subject(s.loops[l]) == None then s.loops[l := Waiting]
      else s.loops[l := NextLoop(ViewOf(s, Subject(s.loops[l]).value), s.loops[l], ok).1]
    case LoopDies(l) =>
      if l >= |s.loops| then s.loops else s.loops[l := Waiting]
    case _ => s.loops
  }

  lemma Moves(s: State, e: Event)
    ensures Apply(s, e).attempts == AttemptsAfter(s, e)
    ensures Apply(s, e).loops == LoopsAfter(s, e)
    ensures Apply(s, e).stuck == s.stuck
    ensures Apply(s, e).now == if e.Tick? then s.now + e.elapsed else s.now
    ensures !e.Tick? ==> Apply(s, e).late == s.late
    ensures s.late <= Apply(s, e).late
  {
    hide NextAttempt, NextLoop, ViewOf, RedisAfter, ObjectsAfter, TallyAfter, Threshold, Overdue;
  }

  lemma NextAttemptKeeps(x: View, a: Attempt, ok: bool, note: Note, now: nat)
    ensures NextAttempt(x, a, ok, note, now).1.id == a.id
  {
  }

  /** Counts of one ID's attempts move only with that ID's attempts. */
  lemma AttemptCounts(s: State, e: Event, id: ID, p: Attempt -> bool)
    requires forall a :: p(a) ==> a.id == id
    ensures var before, after := Count(s.attempts, p), Count(Apply(s, e).attempts, p);
      match e
      case Consume => after == before + (if Takes(s, id) && p(Attempt(id, ProcGet, None)) then 1 else 0)
      case Step(i, ok, note) =>
        if Steps(s, i, id) then
          var a := s.attempts[i];
          var a' := NextAttempt(ViewOf(s, id), a, ok, note, s.now).1;
          after + (if p(a) then 1 else 0) == before + (if p(a') then 1 else 0)
        else after == before
      case Crash(i) =>
        if Steps(s, i, id) then
          after + (if p(s.attempts[i]) then 1 else 0) == before + (if p(s.attempts[i].(pc := Ended)) then 1 else 0)
        else after == before
      case _ => after == before
  {
    hide NextAttempt, Apply, ViewOf, Count, NextLoop, LoopsAfter;
    Moves(s, e);
    match e
    case Consume =>
      if s.redis.main != [] {
        CountAppend(s.attempts, Attempt(s.redis.main[|s.redis.main| - 1], ProcGet, None), p);
      }
    case Step(i, ok, note) =>
      if i < |s.attempts| && s.attempts[i].pc != Ended {
        var a := s.attempts[i];
        NextAttemptKeeps(ViewOf(s, a.id), a, ok, note, s.now);
        CountUpdate(s.attempts, i, NextAttempt(ViewOf(s, a.id), a, ok, note, s.now).1, p);
      }
    case Crash(i) =>
      if i < |s.attempts| && s.attempts[i].pc != Ended {
        CountUpdate(s.attempts, i, s.attempts[i].(pc := Ended), p);
      }
    case _ =>
  }

  /** The same for recovery loops. */
  lemma LoopCounts(s: State, e: Event, id: ID, p: Loop -> bool)
    requires forall l :: p(l) ==> !l.Scanning? && Subject(l) == Some(id)
    ensures var before, after := Count(s.loops, p), Count(Apply(s, e).loops, p);
      match e
      case Sweep(l, ok) =>
        if Sweeps(s, l, id) then
          var l' := NextLoop(ViewOf(s, id), s.loops[l], ok).1;
          after + (if p(s.loops[l]) then 1 else 0) == before + (if p(l') then 1 else 0)
        else after == before
      case LoopDies(l) =>
        if l < |s.loops| then after + (if p(s.loops[l]) then 1 else 0) == before else after == before
      case _ => after == before
  {
    hide NextAttempt, Apply, ViewOf, Count, AttemptsAfter, Threshold;
    Moves(s, e);
    match e
    case SweepStart(l) =>
      if l < |s.loops| && s.loops[l] == Waiting {
        CountUpdate(s.loops, l, Scanning(s.redis.processing, Threshold(s.now, s.stuck)), p);
      }
    case Sweep(l, ok) =>
      if l < |s.loops| && s.loops[l] != Waiting {
        if Subject(s.loops[l]).Some? {
          CountUpdate(s.loops, l, NextLoop(ViewOf(s, Subject(s.loops[l]).value), s.loops[l], ok).1, p);
        } else {
          CountUpdate(s.loops, l, Waiting, p);
        }
      }
    case LoopDies(l) =>
      if l < |s.loops| {
        CountUpdate(s.loops, l, Waiting, p);
      }
    case _ =>
  }
}
