/** What a deployment can rely on, in every run whatsoever: any number of recovery loops, attempts
    that overlap, die or fail at any command, records that expire. */
module Guarantees {
  import opened Counting
  import opened Jobs
  import opened Protocol
  import opened Projection
  import Ledger

  function InHand(s: State, id: ID): nat {
    Count(s.loops, Ledger.InHand(id))
  }

  /** Attempts that have handed the job on, or lost it, and have yet to acknowledge it. */
  function Owing(s: State, id: ID): nat {
    Count(s.attempts, Ledger.Owing(id))
  }

  lemma Always(loops: nat, stuck: nat, es: seq<Event>, id: ID)
    ensures Ledger.Inv(Exec(Init(loops, stuck), es), id)
  {
    hide Apply, Init, Ledger.Inv;
    Ledger.Starts(loops, stuck, id);
    Ledger.KeepsAlways(Init(loops, stuck), es, id);
  }

  /** Every publication is still there to be found: finished, dead, waiting, in :processing or in
      recovery's hand, with a further copy for each acknowledgement that is due.  Only a failed push
      right before an acknowledgement, or a recovery loop dying between its LREM and its LPUSH,
      takes one away. */
  lemma NoJobLost(loops: nat, stuck: nat, es: seq<Event>, id: ID)
    ensures var s := Exec(Init(loops, stuck), es);
      var x := ViewOf(s, id);
      && x.main + x.processing + InHand(s, id) + x.finished + x.dead + x.log.losses >= x.log.published + Owing(s, id)
      && (x.log.published > 0 && x.log.losses == 0 && x.finished == 0 && x.dead == 0 ==>
            x.main + x.processing + InHand(s, id) >= 1 + Owing(s, id))
  {
    hide Apply, Init, Exec, ViewOf, Count, Ledger.JobOk, Ledger.AttemptsOk, Ledger.FaultsOk;
    Always(loops, stuck, es, id);
  }

  /** An uploaded source stays in raw/ or in raw-archived/, and leaves raw/ only when its processed
      video is there. */
  lemma SourceKept(loops: nat, stuck: nat, es: seq<Event>, id: ID)
    ensures var x := ViewOf(Exec(Init(loops, stuck), es), id);
      x.log.uploads > 0 ==> (x.raw.Some? || x.archived.Some?) && (x.raw.None? ==> x.processed.Some?)
  {
    hide Apply, Init, Exec, ViewOf, Ledger.CountsOk, Ledger.FaultsOk, Ledger.AttemptsOk;
    Always(loops, stuck, es, id);
  }

  /** The very bytes last uploaded are still stored, unless an upload came in while an attempt had
      copied the previous source and not yet removed it; and a source uploaded only once is safe. */
  lemma LatestSourceKept(loops: nat, stuck: nat, es: seq<Event>, id: ID)
    ensures var x := ViewOf(Exec(Init(loops, stuck), es), id);
      && (x.log.uploads > 0 && x.log.racing == 0 ==> x.raw == Some(x.log.latest) || x.archived == Some(x.log.latest))
      && (x.log.uploads <= 1 ==> x.log.racing == 0)
  {
    hide Apply, Init, Exec, ViewOf, Ledger.CountsOk, Ledger.FaultsOk, Ledger.AttemptsOk;
    Always(loops, stuck, es, id);
  }

  /** A record says done, and a webhook says success, only for an ID that was published to finished,
      and that only after its processed video was stored; such a record has artifacts and no error.
      And each of its entries in the dead list has either a written retry count of at least 4 or a
      failed write of that very failure. */
  lemma EndStatesHaveCauses(loops: nat, stuck: nat, es: seq<Event>, id: ID)
    ensures var x := ViewOf(Exec(Init(loops, stuck), es), id);
      && (x.job.Some? && x.job.value.status == Done ==>
            x.finished > 0 && x.job.value.error == "" && x.job.value.artifacts.Some?)
      && (true in x.log.hooks ==> x.finished > 0)
      && (x.finished > 0 ==> x.processed.Some?)
      && |x.log.deaths| == x.dead
      && (forall d <- x.log.deaths :: d.Some? ==> d.value >= 4)
      && Count(x.log.deaths, Ledger.Uncounted()) <= x.log.failFaults
  {
    hide Apply, Init, Exec, ViewOf, Ledger.CountsOk, Ledger.AttemptsOk, Ledger.SourceOk, Count;
    Always(loops, stuck, es, id);
  }

  /** Nothing enters or leaves the main list unaccounted for. */
  lemma MainListBalances(loops: nat, stuck: nat, es: seq<Event>, id: ID)
    ensures var x := ViewOf(Exec(Init(loops, stuck), es), id);
      && x.log.consumed + x.main == x.log.published + x.log.requeues + x.log.handbacks
      && x.log.published <= x.log.submitted && x.log.handbacks <= x.log.recoveries
  {
    hide Apply, Init, Exec, ViewOf, Ledger.CountsOk, Ledger.AttemptsOk, Ledger.SourceOk, Count;
    Always(loops, stuck, es, id);
  }

  /** How many commands an attempt has left at most. */
  function Rank(pc: Pc): (rank: nat)
    ensures rank <= 17 && (rank == 0 <==> pc == Ended)
  {
    match pc
    case ProcGet => 17
    case ProcSet(_) => 16
    case Stat => 15
    case Read => 14
    case Process => 13
    case Upload => 12
    case Copy => 11
    case Drop => 10
    case UploadArtifacts => 9
    case Publish => 8
    case FailGet => 7
    case FailSet(_) => 6
    case RequeueGet => 5
    case RequeueSet(_) => 4
    case DoneGet => 4
    case DoneSet(_) => 3
    case RequeuePush => 3
    case HookGet => 2
    case Bury(_) => 2
    case Ack(_) => 1
    case Ended => 0
  }

  lemma AttemptAdvances(x: View, a: Attempt, ok: bool, note: Note, now: nat)
    requires a.pc != Ended
    ensures Rank(NextAttempt(x, a, ok, note, now).1.pc) < Rank(a.pc)
  {
  }

  function Turns(es: seq<Event>, i: nat): nat
    decreases |es|
  {
    if |es| == 0 then 0 else (if es[0].Step? && es[0].attempt == i then 1 else 0) + Turns(es[1..], i)
  }

  lemma RankDrops(s: State, e: Event, i: nat)
    requires i < |s.attempts|
    ensures i < |Apply(s, e).attempts|
    ensures var before, after := Rank(s.attempts[i].pc), Rank(Apply(s, e).attempts[i].pc);
      after <= before && (e.Step? && e.attempt == i && before > 0 ==> after < before)
  {
    hide Apply, NextAttempt, ViewOf, Rank;
    Moves(s, e);
    if e.Step? && e.attempt < |s.attempts| && s.attempts[e.attempt].pc != Ended {
      var a := s.attempts[e.attempt];
      AttemptAdvances(ViewOf(s, a.id), a, e.ok, e.note, s.now);
    }
  }

  lemma {:induction false} RankFalls(s: State, es: seq<Event>, i: nat)
    requires i < |s.attempts|
    ensures i < |Exec(s, es).attempts|
    ensures Rank(Exec(s, es).attempts[i].pc) + Turns(es, i) <= Rank(s.attempts[i].pc) ||
            Exec(s, es).attempts[i].pc == Ended
    decreases |es|
  {
    hide Apply, Rank;
    if |es| > 0 {
      RankDrops(s, es[0], i);
      RankFalls(Apply(s, es[0]), es[1..], i);
    }
  }

  /** Whatever the others do, an attempt that is given 17 steps has ended. */
  lemma AttemptsEnd(s: State, es: seq<Event>, i: nat)
    requires i < |s.attempts| && Turns(es, i) >= 17
    ensures i < |Exec(s, es).attempts| && Exec(s, es).attempts[i].pc == Ended
  {
    hide Exec, Rank, Turns;
    RankFalls(s, es, i);
  }
}
