/** One uninterrupted sweep of recoverStuckJobs, on values, and what it does to each job. */
module RecoverySweep {
  import opened RedisLists
  import opened Jobs
  import opened RedisStore

  /** How the commands for one snapshot entry go, and the time of the write. */
  datatype Reply = Reply(getOk: bool, setOk: bool, remOk: bool, pushOk: bool, at: nat)

  predicate IsStuck(r: Redis, id: ID, threshold: int) {
    id in r.jobs && Stuck(r.jobs[id], threshold)
  }

  function SweepOne(r: Redis, id: ID, threshold: int, reply: Reply): Redis {
    if reply.getOk && IsStuck(r, id, threshold) && reply.setOk then
      var marked := r.Put(id, MarkRecovered(r.jobs[id]), reply.at);
      var unlisted := if reply.remOk then marked.Remove(id) else marked;
      if reply.pushOk then unlisted.PushMain(id) else unlisted
    else r
  }

  function SweepAll(r: Redis, ids: seq<ID>, threshold: int, replies: seq<Reply>): Redis
    requires |ids| <= |replies|
    decreases |ids|
  {
    if |ids| == 0 then r
    else SweepAll(SweepOne(r, ids[0], threshold, replies[0]), ids[1..], threshold, replies[1..])
  }

  /** Some entry for `id` has its GET and its SET succeed. */
  predicate Written(ids: seq<ID>, replies: seq<Reply>, id: ID)
    requires |ids| <= |replies|
  {
    exists k :: 0 <= k < |ids| && ids[k] == id && replies[k].getOk && replies[k].setOk
  }

  /** The first entry for `id` whose GET and SET succeed. */
  function FirstWritten(ids: seq<ID>, replies: seq<Reply>, id: ID): (k: nat)
    requires |ids| <= |replies| && Written(ids, replies, id)
    ensures k < |ids| && ids[k] == id && replies[k].getOk && replies[k].setOk
    ensures forall j :: 0 <= j < k && ids[j] == id ==> !(replies[j].getOk && replies[j].setOk)
    decreases |ids|
  {
    WrittenSplit(ids, replies, id);
    if ids[0] == id && replies[0].getOk && replies[0].setOk then 0
    else 1 + FirstWritten(ids[1..], replies[1..], id)
  }

  /** The list commands of every entry succeed. */
  predicate ListsAnswer(replies: seq<Reply>) {
    forall k :: 0 <= k < |replies| ==> replies[k].remOk && replies[k].pushOk
  }

  /** The record commands of every entry succeed. */
  predicate RecordsAnswer(replies: seq<Reply>) {
    forall k :: 0 <= k < |replies| ==> replies[k].getOk && replies[k].setOk
  }

  /** One more retry, pending; and each list has changed if and only if its own command succeeded. */
  predicate MovedBy(before: Redis, after: Redis, id: ID, reply: Reply)
    requires id in before.jobs
  {
    && Copies(after.main, id) == Copies(before.main, id) + (if reply.pushOk then 1 else 0)
    && Copies(after.processing, id) ==
         Copies(before.processing, id) - (if reply.remOk && Copies(before.processing, id) > 0 then 1 else 0)
    && id in after.jobs
    && after.jobs[id] == before.jobs[id].(status := Pending, retryCount := before.jobs[id].retryCount + 1,
                                          updatedAt := Seconds(reply.at))
  }

  predicate Untouched(before: Redis, after: Redis, id: ID) {
    && Copies(after.main, id) == Copies(before.main, id)
    && Copies(after.processing, id) == Copies(before.processing, id)
    && after.Find(id) == before.Find(id)
  }

  lemma OneOnOther(r: Redis, on: ID, threshold: int, reply: Reply, id: ID)
    requires on != id
    ensures var q := SweepOne(r, on, threshold, reply);
      Untouched(r, q, id) && q.dead == r.dead && q.finished == r.finished
  {
    hide Copies, LPush;
    LRemCopies(r.processing, on, id);
    LPushCopies(r.main, on, id);
  }

  lemma OneOnItself(r: Redis, id: ID, threshold: int, reply: Reply)
    ensures var q := SweepOne(r, id, threshold, reply);
      && q.dead == r.dead && q.finished == r.finished
      && if IsStuck(r, id, threshold) && reply.getOk && reply.setOk
         then MovedBy(r, q, id, reply) && !IsStuck(q, id, threshold)
         else q == r
  {
    hide Copies, LPush, LRem, Seconds;
    LRemCopies(r.processing, id, id);
    LPushCopies(r.main, id, id);
  }

  /** What a sweep over any list of IDs does to one of them, whatever its commands answer and however
      often the ID is listed: if its record is stuck and some entry for it can be written, the first
      such entry counts one retry, and moves one copy as far as its own list commands succeed;
      otherwise nothing about the ID changes. */
  lemma {:induction false} SweepsExactlyOnce(r: Redis, ids: seq<ID>, threshold: int, replies: seq<Reply>, id: ID)
    requires |ids| <= |replies|
    ensures var q := SweepAll(r, ids, threshold, replies);
      && q.dead == r.dead && q.finished == r.finished
      && if IsStuck(r, id, threshold) && Written(ids, replies, id)
         then MovedBy(r, q, id, replies[FirstWritten(ids, replies, id)])
         else Untouched(r, q, id)
    decreases |ids|
  {
    hide Untouched, MovedBy, SweepOne;
    if |ids| == 0 {
      UntouchedByNothing(r, id);
    } else {
      var first := SweepOne(r, ids[0], threshold, replies[0]);
      WrittenSplit(ids, replies, id);
      if ids[0] == id {
        OneOnItself(r, id, threshold, replies[0]);
      } else {
        OneOnOther(r, ids[0], threshold, replies[0], id);
        UntouchedStaysListed(r, first, id, threshold);
      }
      SweepsExactlyOnce(first, ids[1..], threshold, replies[1..], id);
      var q := SweepAll(r, ids, threshold, replies);
      Chained(r, first, q, id, replies[0]);
      if Written(ids[1..], replies[1..], id) {
        Chained(r, first, q, id, replies[1..][FirstWritten(ids[1..], replies[1..], id)]);
      }
    }
  }

  lemma WrittenSplit(ids: seq<ID>, replies: seq<Reply>, id: ID)
    requires 0 < |ids| <= |replies|
    ensures Written(ids, replies, id) <==>
              (ids[0] == id && replies[0].getOk && replies[0].setOk) || Written(ids[1..], replies[1..], id)
  {
    if Written(ids, replies, id) {
      var k :| 0 <= k < |ids| && ids[k] == id && replies[k].getOk && replies[k].setOk;
      if k > 0 {
        assert ids[1..][k - 1] == id && replies[1..][k - 1] == replies[k];
      }
    }
    if Written(ids[1..], replies[1..], id) {
      var k :| 0 <= k < |ids| - 1 && ids[1..][k] == id && replies[1..][k].getOk && replies[1..][k].setOk;
      assert ids[k + 1] == id && replies[k + 1] == replies[1..][k];
    }
  }

  lemma UntouchedByNothing(r: Redis, id: ID)
    ensures Untouched(r, r, id)
  {
  }

  lemma UntouchedStaysListed(r: Redis, q: Redis, id: ID, threshold: int)
    requires Untouched(r, q, id)
    ensures IsStuck(q, id, threshold) <==> IsStuck(r, id, threshold)
    ensures id in q.processing <==> id in r.processing
  {
    assert Copies(q.processing, id) > 0 <==> id in q.processing;
    assert Copies(r.processing, id) > 0 <==> id in r.processing;
  }

  lemma Chained(r: Redis, m: Redis, q: Redis, id: ID, reply: Reply)
    ensures Untouched(r, m, id) && Untouched(m, q, id) ==> Untouched(r, q, id)
    ensures id in r.jobs && id in m.jobs && Untouched(r, m, id) && MovedBy(m, q, id, reply) ==> MovedBy(r, q, id, reply)
    ensures id in r.jobs && MovedBy(r, m, id, reply) && Untouched(m, q, id) ==> MovedBy(r, q, id, reply)
    ensures Untouched(r, m, id) ==> (id in r.jobs <==> id in m.jobs)
    ensures r == m ==> Untouched(r, m, id)
  {
  }

  /** If its list commands succeed, a sweep loses and duplicates nothing. */
  lemma SweepConserves(r: Redis, threshold: int, replies: seq<Reply>)
    requires |r.processing| <= |replies| && ListsAnswer(replies)
    ensures var q := SweepAll(r, r.processing, threshold, replies);
      && multiset(q.main) + multiset(q.processing) == multiset(r.main) + multiset(r.processing)
      && q.dead == r.dead && q.finished == r.finished
  {
    var q := SweepAll(r, r.processing, threshold, replies);
    forall id: ID
      ensures (multiset(q.main) + multiset(q.processing))[id] == (multiset(r.main) + multiset(r.processing))[id]
    {
      SweepsExactlyOnce(r, r.processing, threshold, replies, id);
      if Written(r.processing, replies, id) {
        var k := FirstWritten(r.processing, replies, id);
        assert replies[k].remOk && replies[k].pushOk && r.processing[k] in r.processing;
      }
    }
    SweepsExactlyOnce(r, r.processing, threshold, replies, "");
  }

  lemma {:induction false} NothingStuckNothingDone(r: Redis, ids: seq<ID>, threshold: int, replies: seq<Reply>)
    requires |ids| <= |replies| && forall id :: id in ids ==> !IsStuck(r, id, threshold)
    ensures SweepAll(r, ids, threshold, replies) == r
    decreases |ids|
  {
    if |ids| > 0 {
      assert ids[0] in ids;
      NothingStuckNothingDone(r, ids[1..], threshold, replies[1..]);
    }
  }

  lemma MovedIsNotStuck(r: Redis, q: Redis, id: ID, reply: Reply, threshold: int)
    requires id in r.jobs && MovedBy(r, q, id, reply)
    ensures !IsStuck(q, id, threshold)
  {
  }

  /** A sweep that could read and write its records leaves nothing for the next one with the same
      cut-off, whatever became of its own list commands and whatever faults the next one meets. */
  lemma SweepTwice(r: Redis, threshold: int, replies: seq<Reply>, again: seq<Reply>)
    requires |r.processing| <= |replies| && RecordsAnswer(replies)
    requires |SweepAll(r, r.processing, threshold, replies).processing| <= |again|
    ensures var q := SweepAll(r, r.processing, threshold, replies);
      SweepAll(q, q.processing, threshold, again) == q
  {
    hide Untouched, MovedBy;
    var q := SweepAll(r, r.processing, threshold, replies);
    forall id | id in q.processing
      ensures !IsStuck(q, id, threshold)
    {
      SweepsExactlyOnce(r, r.processing, threshold, replies, id);
      if IsStuck(r, id, threshold) && Written(r.processing, replies, id) {
        MovedIsNotStuck(r, q, id, replies[FirstWritten(r.processing, replies, id)], threshold);
      } else {
        UntouchedStaysListed(r, q, id, threshold);
        if id in r.processing {
          ListedIsWritten(r.processing, replies, id);
        }
      }
    }
    NothingStuckNothingDone(q, q.processing, threshold, again);
  }

  lemma ListedIsWritten(ids: seq<ID>, replies: seq<Reply>, id: ID)
    requires |ids| <= |replies| && RecordsAnswer(replies) && id in ids
    ensures Written(ids, replies, id)
  {
    var k :| 0 <= k < |ids| && ids[k] == id;
    assert replies[k].getOk && replies[k].setOk;
  }
}
