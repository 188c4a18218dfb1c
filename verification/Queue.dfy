/** queue/client.go and queue/job.go as they run: each call updates the four lists and the job
    records in place.  A flag per command says whether Redis answered; a command that fails has
    no effect.  Every method is specified by the value it leaves, with the functions the step
    machine of module Protocol uses. */
module Queue {
  import opened RedisLists
  import opened Jobs
  import opened RedisStore
  import opened RecoverySweep

  function Found(r: Redis, id: ID, getOk: bool): Option<Job> {
    if getOk then r.Find(id) else None
  }

  /** How the commands of one failure path go. */
  datatype Replies = Replies(
    failGet: bool, failSet: bool, requeueGet: bool, requeueSet: bool, requeuePush: bool, bury: bool, ack: bool)

  function AfterRequeueJob(r: Redis, id: ID, a: Replies, now: nat): Redis {
    var found := Found(r, id, a.requeueGet);
    if found.Some? && !a.requeueSet then r
    else
      var marked := if found.Some? then r.Put(id, MarkRequeued(found.value), now) else r;
      if a.requeuePush then marked.PushMain(id) else marked
  }

  /** The deferred function of an attempt: main.go:219-246. */
  function AfterSettling(r: Redis, id: ID, jobErr: Option<string>, a: Replies, now: nat): Redis {
    var settled :=
      if jobErr.None? then r
      else
        var failed := MarkFailed(Found(r, id, a.failGet), now, jobErr.value);
        var written := if a.failSet then r.Put(id, failed, now) else r;
        if a.failSet && failed.retryCount <= MAX_JOB_RETRIES then AfterRequeueJob(written, id, a, now)
        else if a.bury then written.PushDead(id) else written;
    if a.ack then settled.Remove(id) else settled
  }

  class QueueClient {
    var main: seq<ID>
    var processing: seq<ID>
    var dead: seq<ID>
    var finished: seq<string>
    var jobs: map<ID, Job>

    function Value(): Redis
      reads this
    {
      Redis(main, processing, dead, finished, jobs)
    }

    constructor ()
      ensures Value() == EMPTY
    {
      main, processing, dead, finished, jobs := [], [], [], [], map[];
    }

    /** Blocks while the list is empty; `ok` is false when the wait is cancelled or the call fails. */
    method ConsumeMessage(ok: bool) returns (message: Option<ID>)
      modifies this`main, this`processing
      ensures message.Some? <==> ok && old(main) != []
      ensures message.Some? ==>
        && message.value == old(main)[|old(main)| - 1] && Value() == old(Value()).Take()
        && processing == [message.value] + old(processing) && main + [message.value] == old(main)
      ensures message.None? ==> Value() == old(Value())
    {
      if ok && main != [] {
        var id := main[|main| - 1];
        main := main[..|main| - 1];
        processing := LPush(processing, id);
        message := Some(id);
      } else {
        message := None;
      }
    }

    method AcknowledgeMessage(id: ID, ok: bool)
      modifies this`processing
      ensures Value() == if ok then old(Value()).Remove(id) else old(Value())
      ensures ok && id in old(processing) ==> exists a, b ::
        old(processing) == a + [id] + b && processing == a + b && id !in a
    {
      if ok {
        if id in processing {
          var a, b := LRemNearestHead(processing, id);
        }
        processing := LRem(processing, id);
      }
    }

    method PublishSuccessMessage(processedID: string, ok: bool)
      modifies this`finished
      ensures Value() == if ok then old(Value()).PushFinished(processedID) else old(Value())
    {
      if ok {
        finished := LPush(finished, processedID);
      }
    }

    method GetJobState(id: ID, ok: bool) returns (job: Option<Job>)
      ensures job == Found(Value(), id, ok)
    {
      if ok && id in jobs {
        job := Some(jobs[id]);
      } else {
        job := None;
      }
    }

    method SetJobState(id: ID, job: Job, now: nat, ok: bool)
      modifies this`jobs
      ensures Value() == if ok then old(Value()).Put(id, job, now) else old(Value())
    {
      if ok {
        jobs := jobs[id := job.(updatedAt := Seconds(now))];
      }
    }

    method PublishJob(id: ID, callbackURL: string, now: nat, setOk: bool, pushOk: bool) returns (published: bool)
      modifies this`jobs, this`main
      ensures published <==> setOk && pushOk
      ensures Value() ==
        var written := if setOk then old(Value()).Put(id, NewJob(callbackURL, now), now) else old(Value());
        if published then written.PushMain(id) else written
      ensures setOk ==>
        && id in jobs
        && jobs[id] == Job(Pending, "", None, None, 0, callbackURL, Seconds(now), Seconds(now))
    {
      SetJobState(id, NewJob(callbackURL, now), now, setOk);
      published := setOk && pushOk;
      if published {
        main := LPush(main, id);
      }
    }

    method SetJobProcessing(id: ID, now: nat, getOk: bool, setOk: bool)
      modifies this`jobs
      ensures Value() ==
        if setOk then old(Value()).Put(id, MarkProcessing(Found(old(Value()), id, getOk), now), now) else old(Value())
      ensures setOk ==>
        var found := Found(old(Value()), id, getOk);
        && id in jobs && jobs[id].status == Processing && jobs[id].updatedAt == Seconds(now)
        && jobs[id].retryCount == CountOf(found) && SameSubmission(found, jobs[id], now) && SameResults(found, jobs[id])
        && jobs[id].error == if found.Some? then found.value.error else ""
    {
      var existing := GetJobState(id, getOk);
      var job := if existing.Some? then existing.value else NewJob("", now);
      job := job.(status := Processing);
      SetJobState(id, job, now, setOk);
    }

    method SetJobDone(id: ID, artifacts: Artifacts, metadata: Option<Metadata>, now: nat, getOk: bool, setOk: bool)
      modifies this`jobs
      ensures Value() ==
        if setOk then
          old(Value()).Put(id, MarkDone(Found(old(Value()), id, getOk), now, artifacts, metadata), now)
        else old(Value())
      ensures setOk ==>
        var found := Found(old(Value()), id, getOk);
        && id in jobs && jobs[id].status == Done && jobs[id].updatedAt == Seconds(now)
        && jobs[id].artifacts == Some(artifacts) && jobs[id].metadata == metadata && jobs[id].error == ""
        && jobs[id].retryCount == CountOf(found) && SameSubmission(found, jobs[id], now)
    {
      var existing := GetJobState(id, getOk);
      var job := if existing.Some? then existing.value else NewJob("", now);
      job := job.(status := Done, artifacts := Some(artifacts), metadata := metadata, error := "");
      SetJobState(id, job, now, setOk);
    }

    method SetJobFailed(id: ID, error: string, now: nat, getOk: bool, setOk: bool) returns (state: Option<Job>)
      modifies this`jobs
      ensures var failed := MarkFailed(Found(old(Value()), id, getOk), now, error);
        && state == (if setOk then Some(failed) else None)
        && (setOk ==>
              var found := Found(old(Value()), id, getOk);
              && id in jobs && jobs[id].status == Failed && jobs[id].updatedAt == Seconds(now)
              && jobs[id].error == error && jobs[id].retryCount == CountOf(found) + 1
              && SameSubmission(found, jobs[id], now) && SameResults(found, jobs[id]))
        && Value() == if setOk then old(Value()).Put(id, failed, now) else old(Value())
    {
      var existing := GetJobState(id, getOk);
      var job := if existing.Some? then existing.value else NewJob("", now);
      job := job.(status := Failed, error := error);
      job := job.(retryCount := job.retryCount + 1);
      SetJobState(id, job, now, setOk);
      state := if setOk then Some(job) else None;
    }

    method RequeueJob(id: ID, now: nat, a: Replies)
      modifies this`jobs, this`main
      ensures Value() == AfterRequeueJob(old(Value()), id, a, now)
      ensures a.requeueGet && id in old(jobs) && a.requeueSet ==>
        id in jobs && jobs[id] == old(jobs)[id].(status := Pending, updatedAt := Seconds(now))
    {
      var existing := GetJobState(id, a.requeueGet);
      if existing.Some? {
        SetJobState(id, existing.value.(status := Pending), now, a.requeueSet);
        if !a.requeueSet {
          return;
        }
      }
      if a.requeuePush {
        main := LPush(main, id);
      }
    }

    method MoveToDLQ(id: ID, ok: bool)
      modifies this`dead
      ensures Value() == if ok then old(Value()).PushDead(id) else old(Value())
    {
      if ok {
        dead := LPush(dead, id);
      }
    }

    /** What every attempt does last: record a failure, hand the job on, acknowledge.  `hook` is
        the record to report to the callback when the job has been buried. */
    method SettleAttempt(id: ID, jobErr: Option<string>, now: nat, a: Replies) returns (hook: Option<Job>)
      modifies this
      ensures Value() == AfterSettling(old(Value()), id, jobErr, a, now)
      ensures hook.Some? <==>
        && jobErr.Some? && a.failSet && dead == [id] + old(dead)
        && MarkFailed(Found(old(Value()), id, a.failGet), now, jobErr.value).callbackURL != ""
      ensures hook.Some? ==>
        && hook.value == MarkFailed(Found(old(Value()), id, a.failGet), now, jobErr.value)
        && hook.value.retryCount >= 4
    {
      hook := None;
      if jobErr.Some? {
        var state := SetJobFailed(id, jobErr.value, now, a.failGet, a.failSet);
        if state.Some? && state.value.retryCount <= MAX_JOB_RETRIES {
          RequeueJob(id, now, a);
        } else {
          MoveToDLQ(id, a.bury);
          if a.bury && state.Some? && state.value.callbackURL != "" {
            hook := state;
          }
        }
      }
      AcknowledgeMessage(id, a.ack);
    }

    /** One sweep: `listOk` is the LRANGE, `replies` the commands for each snapshot entry in turn. */
    method RecoverStuckJobs(stuck: nat, now: nat, listOk: bool, replies: seq<Reply>)
      requires |processing| <= |replies|
      modifies this`jobs, this`processing, this`main
      ensures Value() ==
        if listOk then SweepAll(old(Value()), old(processing), Threshold(now, stuck), replies) else old(Value())
    {
      if !listOk {
        return;
      }
      var ids := processing;
      var threshold := Threshold(now, stuck);
      ghost var before := Value();
      var k := 0;
      while k < |ids|
        invariant 0 <= k <= |ids|
        invariant SweepAll(Value(), ids[k..], threshold, replies[k..]) == SweepAll(before, ids, threshold, replies)
      {
        var id, reply := ids[k], replies[k];
        ghost var here := Value();
        var state := GetJobState(id, reply.getOk);
        if state.Some? && state.value.status == Processing && state.value.updatedAt < threshold {
          var job := state.value;
          job := job.(retryCount := job.retryCount + 1);
          job := job.(status := Pending);
          SetJobState(id, job, reply.at, reply.setOk);
          if reply.setOk {
            if reply.remOk {
              processing := LRem(processing, id);
            }
            if reply.pushOk {
              main := LPush(main, id);
            }
          }
        }
        assert Value() == SweepOne(here, id, threshold, reply);
        assert ids[k..][1..] == ids[k + 1..] && replies[k..][1..] == replies[k + 1..];
        k := k + 1;
      }
    }
  }

  const GOOD := Replies(true, true, true, true, true, true, true)

  /** The count a failing attempt will write, when it can read the record. */
  function NextCount(r: Redis, id: ID): nat {
    CountOf(r.Find(id)) + 1
  }

  lemma SettlesElsewhere(r: Redis, id: ID, jobErr: Option<string>, a: Replies, now: nat)
    ensures AfterSettling(r, id, jobErr, a, now).finished == r.finished
  {
    hide LRem, MarkFailed, MarkRequeued, Found, Stamp;
  }

  lemma SettledRetry(r: Redis, id: ID, error: string, now: nat)
    requires NextCount(r, id) <= MAX_JOB_RETRIES
    ensures var failed := MarkFailed(r.Find(id), now, error);
      AfterSettling(r, id, Some(error), GOOD, now) ==
      r.Put(id, failed, now).Put(id, MarkRequeued(Stamp(failed, now)), now).PushMain(id).Remove(id)
  {
    hide Redis.PushMain, Redis.Remove, MarkRequeued, Seconds;
  }

  lemma RetriesGoBack(r: Redis, id: ID, error: string, now: nat)
    requires NextCount(r, id) <= 3
    ensures var q := AfterSettling(r, id, Some(error), GOOD, now);
      && q.main == [id] + r.main && q.dead == r.dead && q.processing == LRem(r.processing, id)
      && id in q.jobs && q.jobs[id].retryCount == NextCount(r, id) && q.jobs[id].error == error
      && q.jobs[id].status == Pending && q.jobs[id].updatedAt == Seconds(now)
      && SameSubmission(r.Find(id), q.jobs[id], now) && SameResults(r.Find(id), q.jobs[id])
      && q.jobs == r.jobs[id := q.jobs[id]]
  {
    hide LRem, Seconds;
    var failed := MarkFailed(r.Find(id), now, error);
    var requeued := MarkRequeued(Stamp(failed, now));
    SettledRetry(r, id, error, now);
    assert r.jobs[id := Stamp(failed, now)][id := Stamp(requeued, now)] == r.jobs[id := Stamp(requeued, now)];
  }

  lemma ExhaustedGoDead(r: Redis, id: ID, error: string, now: nat)
    requires NextCount(r, id) >= 4
    ensures var q := AfterSettling(r, id, Some(error), GOOD, now);
      && q.main == r.main && q.dead == [id] + r.dead && q.processing == LRem(r.processing, id)
      && id in q.jobs && q.jobs[id].retryCount == NextCount(r, id) && q.jobs[id].error == error
      && q.jobs[id].status == Failed && q.jobs[id].updatedAt == Seconds(now)
      && SameSubmission(r.Find(id), q.jobs[id], now) && SameResults(r.Find(id), q.jobs[id])
      && q.jobs == r.jobs[id := q.jobs[id]]
  {
  }

  /** With every reply good, a failed attempt leaves its job in exactly one other place: the back
      of the main list while retries remain, the dead list once they are used up. */
  lemma SettledInOnePlace(r: Redis, id: ID, error: string, now: nat)
    requires id in r.processing
    ensures var q := AfterSettling(r, id, Some(error), GOOD, now);
      && multiset(q.main) + multiset(q.processing) + multiset(q.dead) ==
         multiset(r.main) + multiset(r.processing) + multiset(r.dead)
      && (q.main == [id] + r.main <==> NextCount(r, id) <= 3)
  {
    LRemBag(r.processing, id);
    hide LRem;
    if NextCount(r, id) <= 3 {
      RetriesGoBack(r, id, error, now);
    } else {
      ExhaustedGoDead(r, id, error, now);
    }
    hide AfterSettling;
  }
}
