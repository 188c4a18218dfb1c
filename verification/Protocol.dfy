/** The job protocol as a step machine.  Every Redis or MinIO command is one step; attempts
    (the goroutine of processNextMessage), publishers and recovery loops interleave freely,
    any command may fail, any attempt or loop may die between two steps.

    A failed command has no effect.  An event that does not apply leaves the state alone, so
    every sequence of events is a run. */
module Protocol {
  import opened RedisLists
  import opened Jobs
  import opened RedisStore
  import opened ObjectKeys

  /** Why an attempt has come to its acknowledgement. */
  datatype Settled = AfterSuccess | AfterRequeue | AfterDeath | AfterLoss

  /** The next command of an attempt. */
  datatype Pc =
    | ProcGet | ProcSet(job: Job)                     // SetJobProcessing
    | Stat | Read                                     // DownloadVideo
    | Process
    | Upload                                          // UploadVideo
    | Copy | Drop                                     // ArchiveRawVideo
    | UploadArtifacts
    | Publish                                         // PublishSuccessMessage
    | DoneGet | DoneSet(job: Job)                     // SetJobDone
    | HookGet                                         // GetJobState, then the webhook
    | FailGet | FailSet(job: Job)                     // SetJobFailed
    | RequeueGet | RequeueSet(job: Job) | RequeuePush // RequeueJob
    | Bury(failed: Option<Job>)                       // MoveToDLQ
    | Ack(why: Settled)                               // AcknowledgeMessage
    | Ended

  /** `wrote` is when the attempt's SetJobProcessing write succeeded. */
  datatype Attempt = Attempt(id: ID, pc: Pc, wrote: Option<nat>)

  /** A recovery loop: between two ticks, or somewhere in a sweep over its snapshot. */
  datatype Loop =
    | Waiting
    | Scanning(todo: seq<ID>, threshold: int)                     // next: GET
    | Marking(id: ID, job: Job, todo: seq<ID>, threshold: int)    // next: SET
    | Unlisting(id: ID, todo: seq<ID>, threshold: int)            // next: LREM
    | Returning(id: ID, todo: seq<ID>, threshold: int)            // next: LPUSH

  /** What has happened to one ID so far.  `publishing` counts publishers that have written the
      record and not yet pushed the ID, `bare` submissions without a record; `failFaults` counts
      failed writes of a failure, which are among the `setFaults`; `latest` is the source as last
      uploaded, and `racing` counts uploads made while an attempt was about to remove a source. */
  datatype Tally = Tally(
    submitted: nat, bare: nat, publishing: nat, published: nat,
    consumed: nat, overlapped: bool,
    failures: nat, recoveries: nat, requeues: nat, handbacks: nat,
    losses: nat, getFaults: nat, setFaults: nat, failFaults: nat, expiries: nat, crashes: nat,
    uploads: nat, latest: Content, racing: nat, archives: nat, archiveFaults: nat,
    deaths: seq<Option<nat>>,
    hooks: seq<bool>)

  const NOTHING := Tally(0, 0, 0, 0, 0, false, 0, 0, 0, 0, 0, 0, 0, 0, 0, 0, 0, "", 0, 0, 0, [], [])

  /** `late` holds every ID that has had an attempt still running more than `stuck` nanoseconds
      after its SetJobProcessing write.  `pushes` and `pops` record the traffic of the main list. */
  datatype State = State(
    now: nat,
    stuck: nat,
    redis: Redis,
    objects: map<Object, Content>,
    attempts: seq<Attempt>,
    loops: seq<Loop>,
    tallies: map<ID, Tally>,
    late: set<ID>,
    pushes: seq<ID>,
    pops: seq<ID>)

  /** A deployment with any number of recovery loops. */
  function Init(loops: nat, stuck: nat): State {
    State(0, stuck, EMPTY, map[], [], seq(loops, _ => Waiting), map[], {}, [], [])
  }

  /** Everything the state says about one ID, apart from its attempts and recovery loops. */
  datatype View = View(
    main: nat, processing: nat, dead: nat, finished: nat,
    job: Option<Job>,
    raw: Option<Content>, archived: Option<Content>, processed: Option<Content>,
    log: Tally)

  function TallyOf(s: State, id: ID): Tally {
    if id in s.tallies then s.tallies[id] else NOTHING
  }

  function ContentOf(objects: map<Object, Content>, o: Object): Option<Content> {
    if o in objects then Some(objects[o]) else None
  }

  function ViewOf(s: State, id: ID): View {
    View(
      Copies(s.redis.main, id), Copies(s.redis.processing, id), Copies(s.redis.dead, id),
      Copies(s.redis.finished, ProcessedId(id)),
      s.redis.Find(id),
      ContentOf(s.objects, Object(Raw, id)),
      ContentOf(s.objects, Object(RawArchived, id)),
      ContentOf(s.objects, Object(Processed, ProcessedId(id))),
      TallyOf(s, id))
  }

  /** One command as the stores see it; failed ones are recorded, and otherwise do nothing. */
  datatype Command =
    | Nothing
    | GetFault
    | SetFault
    | FailFault                  // SET of a failure, by SetJobFailed
    | Write(job: Job)            // SET by an attempt
    | Requeue                    // LPUSH main by RequeueJob
    | Entomb(written: Option<nat>, hook: bool) // LPUSH dead
    | Finish                     // LPUSH finished
    | Unlist                     // LREM processing 1
    | Lose                       // a failed push of a job about to leave :processing
    | LoseWrite                  // the same, by a failed SET inside RequeueJob
    | PutProcessed(output: Content) | CopyRaw | DropRaw | ArchiveFault
    | Notify(success: bool)
    | Recover(job: Job)          // SET by a recovery loop
    | Return                     // LPUSH main by a recovery loop

  function RedisAfter(r: Redis, id: ID, c: Command, now: nat): Redis {
    match c
    case Write(job) => r.Put(id, job, now)
    case Recover(job) => r.Put(id, job, now)
    case Requeue => r.PushMain(id)
    case Return => r.PushMain(id)
    case Entomb(_, _) => r.PushDead(id)
    case Finish => r.PushFinished(ProcessedId(id))
    case Unlist => r.Remove(id)
    case _ => r
  }

  function ObjectsAfter(objects: map<Object, Content>, id: ID, c: Command): map<Object, Content> {
    match c
    case PutProcessed(output) => objects[Object(Processed, ProcessedId(id)) := output]
    case CopyRaw =>
      if Object(Raw, id) in objects then objects[Object(RawArchived, id) := objects[Object(Raw, id)]] else objects
    case DropRaw => objects - {Object(Raw, id)}
    case _ => objects
  }

  function TallyAfter(t: Tally, c: Command): Tally {
    match c
    case GetFault => t.(getFaults := t.getFaults + 1)
    case SetFault => t.(setFaults := t.setFaults + 1)
    case FailFault => t.(setFaults := t.setFaults + 1, failFaults := t.failFaults + 1)
    case Write(job) => if job.status == Failed then t.(failures := t.failures + 1) else t
    case Requeue => t.(requeues := t.requeues + 1)
    case Entomb(written, hook) =>
      t.(deaths := t.deaths + [written], hooks := if hook then t.hooks + [false] else t.hooks)
    case Lose => t.(losses := t.losses + 1)
    case LoseWrite => t.(losses := t.losses + 1, setFaults := t.setFaults + 1)
    case DropRaw => t.(archives := t.archives + 1)
    case ArchiveFault => t.(archiveFaults := t.archiveFaults + 1)
    case Notify(success) => t.(hooks := t.hooks + [success])
    case Recover(_) => t.(recoveries := t.recoveries + 1)
    case Return => t.(handbacks := t.handbacks + 1)
    case _ => t
  }

  function Perform(s: State, id: ID, c: Command): State {
    s.(redis := RedisAfter(s.redis, id, c, s.now),
       objects := ObjectsAfter(s.objects, id, c),
       tallies := s.tallies[id := TallyAfter(TallyOf(s, id), c)],
       pushes := if c.Requeue? || c.Return? then s.pushes + [id] else s.pushes)
  }

  /** What an attempt supplies when a step needs it. */
  datatype Note = Note(error: string, output: Content, artifacts: Artifacts, metadata: Option<Metadata>)

  function Fetch(x: View, ok: bool): (Command, Option<Job>) {
    if ok then (Nothing, x.job) else (GetFault, None)
  }

  /** The command at an attempt's pc, given whether it succeeds, and where the attempt goes next. */
  function NextAttempt(x: View, a: Attempt, ok: bool, note: Note, now: nat): (Command, Attempt) {
    match a.pc
    case ProcGet =>
      var (c, found) := Fetch(x, ok);
      (c, a.(pc := ProcSet(MarkProcessing(found, now))))
    case ProcSet(job) =>
      if ok then (Write(job), a.(pc := Stat, wrote := Some(now))) else (SetFault, a.(pc := Stat))
    case Stat => (Nothing, a.(pc := if ok && x.raw.Some? then Read else FailGet))
    case Read => (Nothing, a.(pc := if ok && x.raw.Some? then Process else FailGet))
    case Process => (Nothing, a.(pc := if ok then Upload else FailGet))
    case Upload => if ok then (PutProcessed(note.output), a.(pc := Copy)) else (Nothing, a.(pc := FailGet))
    case Copy =>
      if ok && x.raw.Some? then (CopyRaw, a.(pc := Drop)) else (ArchiveFault, a.(pc := UploadArtifacts))
    case Drop => (if ok then DropRaw else ArchiveFault, a.(pc := UploadArtifacts))
    case UploadArtifacts => (Nothing, a.(pc := Publish))
    case Publish => if ok then (Finish, a.(pc := DoneGet)) else (Nothing, a.(pc := FailGet))
    case DoneGet =>
      var (c, found) := Fetch(x, ok);
      (c, a.(pc := DoneSet(MarkDone(found, now, note.artifacts, note.metadata))))
    case DoneSet(job) => (if ok then Write(job) else SetFault, a.(pc := HookGet))
    case HookGet =>
      var (c, found) := Fetch(x, ok);
      (if found.Some? && found.value.callbackURL != "" then Notify(found.value.status == Done) else c,
       a.(pc := Ack(AfterSuccess)))
    case FailGet =>
      var (c, found) := Fetch(x, ok);
      (c, a.(pc := FailSet(MarkFailed(found, now, note.error))))
    case FailSet(job) =>
      if !ok then (FailFault, a.(pc := Bury(None)))
      else (Write(job), a.(pc := if job.retryCount <= MAX_JOB_RETRIES then RequeueGet else Bury(Some(job))))
    case RequeueGet =>
      var (c, found) := Fetch(x, ok);
      (c, a.(pc := if found.Some? then RequeueSet(MarkRequeued(found.value)) else RequeuePush))
    case RequeueSet(job) =>
      if ok then (Write(job), a.(pc := RequeuePush)) else (LoseWrite, a.(pc := Ack(AfterLoss)))
    case RequeuePush =>
      if ok then (Requeue, a.(pc := Ack(AfterRequeue))) else (Lose, a.(pc := Ack(AfterLoss)))
    case Bury(failed) =>
      if ok then
        (Entomb(if failed.Some? then Some(failed.value.retryCount) else None,
                failed.Some? && failed.value.callbackURL != ""),
         a.(pc := Ack(AfterDeath)))
      else (Lose, a.(pc := Ack(AfterLoss)))
    case Ack(_) => (if ok then Unlist else Nothing, a.(pc := Ended))
    case Ended => (Nothing, a)
  }

  /** The ID a recovery loop's next command is about. */
  function Subject(l: Loop): Option<ID> {
    match l
    case Waiting => None
    case Scanning(todo, _) => if todo == [] then None else Some(todo[0])
    case Marking(id, _, _, _) => Some(id)
    case Unlisting(id, _, _) => Some(id)
    case Returning(id, _, _) => Some(id)
  }

  function NextLoop(x: View, l: Loop, ok: bool): (Command, Loop)
    requires Subject(l).Some?
  {
    match l
    case Scanning(todo, threshold) =>
      var (c, found) := Fetch(x, ok);
      if found.Some? && Stuck(found.value, threshold) then
        (c, Marking(todo[0], MarkRecovered(found.value), todo[1..], threshold))
      else
        (c, Scanning(todo[1..], threshold))
    case Marking(id, job, todo, threshold) =>
      if ok then (Recover(job), Unlisting(id, todo, threshold)) else (SetFault, Scanning(todo, threshold))
    case Unlisting(id, todo, threshold) =>
      (if ok then Unlist else Nothing, Returning(id, todo, threshold))
    case Returning(id, todo, threshold) =>
      (if ok then Return else Lose, Scanning(todo, threshold))
  }

  datatype Event =
    | Tick(elapsed: nat)
    | UploadRaw(id: ID, source: Content)
    | PublishSet(id: ID, callbackURL: string, ok: bool)
    | PublishPush(id: ID, ok: bool)
    | PushBare(id: ID)           // an LPUSH by hand, without a record
    | Consume
    | Step(attempt: nat, ok: bool, note: Note)
    | Crash(attempt: nat)
    | Expire(id: ID)
    | SweepStart(loop: nat)
    | Sweep(loop: nat, ok: bool)
    | LoopDies(loop: nat)

  /** Not yet acknowledged, and not merely waiting to acknowledge after handing the job back. */
  predicate Live(a: Attempt) {
    a.pc != Ended && a.pc != Ack(AfterRequeue)
  }

  /** Between consuming and publishing, or on the way to recording a failure. */
  predicate Running(a: Attempt) {
    a.pc.ProcGet? || a.pc.ProcSet? || a.pc.Stat? || a.pc.Read? || a.pc.Process? || a.pc.Upload? ||
    a.pc.Copy? || a.pc.Drop? || a.pc.UploadArtifacts? || a.pc.Publish? || a.pc.FailGet? || a.pc.FailSet?
  }

  predicate Overdue(a: Attempt, now: nat, stuck: nat) {
    Live(a) && a.wrote.Some? && a.wrote.value + stuck < now
  }

  predicate RunningOn(s: State, id: ID) {
    exists i :: 0 <= i < |s.attempts| && s.attempts[i].id == id && Running(s.attempts[i])
  }

  /** Some attempt has copied the source and will remove it with its next command. */
  predicate RemovingOn(s: State, id: ID) {
    exists i :: 0 <= i < |s.attempts| && s.attempts[i].id == id && s.attempts[i].pc == Drop
  }

  function TallyUpload(t: Tally, source: Content, removing: bool): Tally {
    t.(uploads := t.uploads + 1, latest := source, racing := if removing then t.racing + 1 else t.racing)
  }

  function Take(s: State): State {
    if s.redis.main == [] then s else
    var id := s.redis.main[|s.redis.main| - 1];
    var t := TallyOf(s, id);
    s.(redis := s.redis.Take(), pops := s.pops + [id],
       attempts := s.attempts + [Attempt(id, ProcGet, None)],
       tallies := s.tallies[id := t.(consumed := t.consumed + 1, overlapped := t.overlapped || RunningOn(s, id))])
  }

  function StepAttempt(s: State, i: nat, ok: bool, note: Note): State {
    if i >= |s.attempts| || s.attempts[i].pc == Ended then s else
    var a := s.attempts[i];
    var (c, a') := NextAttempt(ViewOf(s, a.id), a, ok, note, s.now);
    Perform(s, a.id, c).(attempts := s.attempts[i := a'])
  }

  function StepLoop(s: State, l: nat, ok: bool): State {
    if l >= |s.loops| || s.loops[l] == Waiting then s
    else if Subject(s.loops[l]) == None then s.(loops := s.loops[l := Waiting])
    else
      var id := Subject(s.loops[l]).value;
      var (c, l') := NextLoop(ViewOf(s, id), s.loops[l], ok);
      Perform(s, id, c).(loops := s.loops[l := l'])
  }

  function Apply(s: State, e: Event): State {
    match e
    case Tick(elapsed) =>
      var now := s.now + elapsed;
      s.(now := now,
         late := s.late + set i | 0 <= i < |s.attempts| && Overdue(s.attempts[i], now, s.stuck) :: s.attempts[i].id)
    case UploadRaw(id, source) =>
      s.(objects := s.objects[Object(Raw, id) := source],
         tallies := s.tallies[id := TallyUpload(TallyOf(s, id), source, RemovingOn(s, id))])
    case PublishSet(id, callbackURL, ok) =>
      var t := TallyOf(s, id);
      if !ok then s else
      s.(redis := s.redis.Put(id, NewJob(callbackURL, s.now), s.now),
         tallies := s.tallies[id := t.(submitted := t.submitted + 1, publishing := t.publishing + 1)])
    case PublishPush(id, ok) =>
      var t := TallyOf(s, id);
      if t.publishing == 0 then s
      else if !ok then s.(tallies := s.tallies[id := t.(publishing := t.publishing - 1)])
      else s.(redis := s.redis.PushMain(id), pushes := s.pushes + [id],
              tallies := s.tallies[id := t.(publishing := t.publishing - 1, published := t.published + 1)])
    case PushBare(id) =>
      var t := TallyOf(s, id);
      s.(redis := s.redis.PushMain(id), pushes := s.pushes + [id],
         tallies := s.tallies[id := t.(submitted := t.submitted + 1, bare := t.bare + 1, published := t.published + 1)])
    case Consume => Take(s)
    case Step(i, ok, note) => StepAttempt(s, i, ok, note)
    case Crash(i) =>
      if i >= |s.attempts| || s.attempts[i].pc == Ended then s else
      var a := s.attempts[i];
      var t := TallyOf(s, a.id);
      s.(attempts := s.attempts[i := a.(pc := Ended)],
         tallies := s.tallies[a.id := t.(crashes := t.crashes + 1)])
    case Expire(id) =>
      var t := TallyOf(s, id);
      s.(redis := s.redis.(jobs := s.redis.jobs - {id}), tallies := s.tallies[id := t.(expiries := t.expiries + 1)])
    case SweepStart(l) =>
      if l >= |s.loops| || s.loops[l] != Waiting then s else
      s.(loops := s.loops[l := Scanning(s.redis.processing, Threshold(s.now, s.stuck))])
    case Sweep(l, ok) => StepLoop(s, l, ok)
    case LoopDies(l) =>
      if l >= |s.loops| then s else
      var dead := s.(loops := s.loops[l := Waiting]);
      if s.loops[l].Returning? then Perform(dead, s.loops[l].id, Lose) else dead
  }

  function Exec(s: State, es: seq<Event>): State
    decreases |es|
  {
    if es == [] then s else Exec(Apply(s, es[0]), es[1..])
  }

  lemma {:induction false} ExecSplit(s: State, es: seq<Event>, fs: seq<Event>)
    ensures Exec(s, es + fs) == Exec(Exec(s, es), fs)
    decreases |es|
  {
    if es == [] {
      assert es + fs == fs;
    } else {
      assert (es + fs)[1..] == es[1..] + fs;
      ExecSplit(Apply(s, es[0]), es[1..], fs);
    }
  }
}
