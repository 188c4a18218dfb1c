/** From time limits to mutual exclusion: attempts that keep to the limits the budget is made of are
    never late, so the recovery threshold never meets a live one. */
module Deadlines {
  import opened Jobs
  import opened Protocol
  import opened Projection
  import opened Guarantees
  import Exclusion
  import Duplicates
  import Makespan
  import Pipeline

  /** When each attempt came to the command it is at. */
  function EnteredAfter(s: State, e: Event, entered: seq<nat>): (after: seq<nat>)
    requires |entered| == |s.attempts|
    ensures |after| == |AttemptsAfter(s, e)|
  {
    match e
    case Consume => if s.redis.main == [] then entered else entered + [s.now]
    case Step(i, _, _) => if i >= |s.attempts| || s.attempts[i].pc == Ended then entered else entered[i := s.now]
    case _ => entered
  }

  /** How long an attempt may stay at a command, by the command's rank. */
  type Limits = limits: seq<nat> | |limits| == 18 witness seq(18, _ => 0)

  predicate InTime(s: State, entered: seq<nat>, id: ID, limits: Limits)
    requires |entered| == |s.attempts|
  {
    forall i :: 0 <= i < |s.attempts| && s.attempts[i].id == id && s.attempts[i].pc != Ended ==>
      s.now <= entered[i] + limits[Rank(s.attempts[i].pc)]
  }

  /** Throughout a run, no attempt on `id` stays at a command beyond its limit. */
  predicate KeepsLimits(s: State, entered: seq<nat>, es: seq<Event>, id: ID, limits: Limits)
    requires |entered| == |s.attempts|
    decreases |es|
  {
    && InTime(s, entered, id, limits)
    && (|es| > 0 ==>
          var t := Apply(s, es[0]);
          Moves(s, es[0]);
          KeepsLimits(t, EnteredAfter(s, es[0], entered), es[1..], id, limits))
  }

  /** The most an attempt at a command of this rank still needs. */
  function Rest(limits: Limits, rank: nat): nat
    requires rank < 18
  {
    Makespan.Sum(limits[..rank + 1])
  }

  lemma RestStep(limits: Limits, rank: nat)
    requires 0 < rank < 18
    ensures Rest(limits, rank) == Rest(limits, rank - 1) + limits[rank]
  {
    assert limits[..rank + 1][..rank] == limits[..rank];
  }

  lemma {:induction false} RestGrows(limits: Limits, low: nat, high: nat)
    requires low <= high < 18
    ensures Rest(limits, low) <= Rest(limits, high)
    ensures limits[low] <= Rest(limits, low)
    decreases high
  {
    assert limits[..low + 1][..low] == limits[..low];
    if low < high {
      RestStep(limits, high);
      RestGrows(limits, low, high - 1);
    }
  }

  /** What is left of an attempt's limits fits between now and its deadline. */
  predicate OnCourse(a: Attempt, entered: nat, stuck: nat, limits: Limits) {
    a.pc != Ended && a.wrote.Some? ==> entered + Rest(limits, Rank(a.pc)) <= a.wrote.value + stuck
  }

  predicate Timely(s: State, entered: seq<nat>, id: ID, limits: Limits)
    requires |entered| == |s.attempts|
  {
    && id !in s.late
    && (forall i :: 0 <= i < |s.attempts| && s.attempts[i].id == id ==>
          OnCourse(s.attempts[i], entered[i], s.stuck, limits))
  }

  lemma StepOnCourse(x: View, a: Attempt, ok: bool, note: Note, now: nat, entered: nat, stuck: nat, limits: Limits)
    requires a.pc != Ended && OnCourse(a, entered, stuck, limits)
    requires now <= entered + limits[Rank(a.pc)]
    requires Rest(limits, 15) <= stuck
    ensures OnCourse(NextAttempt(x, a, ok, note, now).1, now, stuck, limits)
  {
    hide NextAttempt, Rank, Rest;
    var a' := NextAttempt(x, a, ok, note, now).1;
    AttemptAdvances(x, a, ok, note, now);
    WrittenAtClaim(x, a, ok, note, now);
    RestStep(limits, Rank(a.pc));
    RestGrows(limits, Rank(a'.pc), Rank(a.pc) - 1);
  }

  /** The claim is written once, when the attempt moves on to its download. */
  lemma WrittenAtClaim(x: View, a: Attempt, ok: bool, note: Note, now: nat)
    ensures var a' := NextAttempt(x, a, ok, note, now).1;
      a'.wrote == a.wrote || (a'.wrote == Some(now) && Rank(a'.pc) == 15)
  {
  }

  lemma NotLate(s: State, entered: seq<nat>, id: ID, limits: Limits, i: nat, now: nat)
    requires |entered| == |s.attempts| && Timely(s, entered, id, limits)
    requires i < |s.attempts| && s.attempts[i].id == id
    requires s.attempts[i].pc != Ended ==> now <= entered[i] + limits[Rank(s.attempts[i].pc)]
    ensures !Overdue(s.attempts[i], now, s.stuck)
  {
    hide Rank, Rest;
    assert OnCourse(s.attempts[i], entered[i], s.stuck, limits);
    RestGrows(limits, Rank(s.attempts[i].pc), Rank(s.attempts[i].pc));
  }

  lemma KeepsTimely(s: State, entered: seq<nat>, e: Event, id: ID, limits: Limits)
    requires |entered| == |s.attempts| && Rest(limits, 15) <= s.stuck
    requires Timely(s, entered, id, limits) && InTime(s, entered, id, limits)
    requires AttemptsAfter(s, e) == Apply(s, e).attempts
    requires InTime(Apply(s, e), EnteredAfter(s, e, entered), id, limits)
    ensures Timely(Apply(s, e), EnteredAfter(s, e, entered), id, limits)
  {
    hide NextAttempt, ViewOf, Rank, Rest, OnCourse;
    var t := Apply(s, e);
    hide Apply;
    Moves(s, e);
    if e.Tick? {
      forall i | 0 <= i < |s.attempts| && s.attempts[i].id == id
        ensures !Overdue(s.attempts[i], t.now, s.stuck)
      {
        NotLate(s, entered, id, limits, i, t.now);
      }
      LateAfterTick(s, e, id);
    }
    FreshOnCourse(s.now, s.stuck, limits);
    if e.Step? && e.attempt < |s.attempts| && s.attempts[e.attempt].pc != Ended {
      var a := s.attempts[e.attempt];
      NextAttemptKeeps(ViewOf(s, a.id), a, e.ok, e.note, s.now);
      if a.id == id {
        StepOnCourse(ViewOf(s, a.id), a, e.ok, e.note, s.now, entered[e.attempt], s.stuck, limits);
      }
    }
  }

  lemma LateAfterTick(s: State, e: Event, id: ID)
    requires e.Tick? && id !in s.late
    requires forall i :: 0 <= i < |s.attempts| && s.attempts[i].id == id ==>
               !Overdue(s.attempts[i], Apply(s, e).now, s.stuck)
    ensures id !in Apply(s, e).late
  {
  }

  lemma FreshOnCourse(now: nat, stuck: nat, limits: Limits)
    ensures forall a: Attempt, entered :: a.pc == Ended || a.wrote.None? ==> OnCourse(a, entered, stuck, limits)
  {
  }

  lemma {:induction false} TimelyAlways(s: State, entered: seq<nat>, es: seq<Event>, id: ID, limits: Limits)
    requires |entered| == |s.attempts| && Rest(limits, 15) <= s.stuck
    requires Timely(s, entered, id, limits) && KeepsLimits(s, entered, es, id, limits)
    ensures id !in Exec(s, es).late
    decreases |es|
  {
    hide Apply, Rest, InTime;
    if |es| > 0 {
      Moves(s, es[0]);
      var t, after := Apply(s, es[0]), EnteredAfter(s, es[0], entered);
      assert KeepsLimits(t, after, es[1..], id, limits);
      KeepsTimely(s, entered, es[0], id, limits);
      TimelyAlways(t, after, es[1..], id, limits);
    }
  }

  /** Attempts that keep limits which add up to no more than the threshold are never late. */
  lemma NeverLate(loops: nat, stuck: nat, es: seq<Event>, id: ID, limits: Limits)
    requires Rest(limits, 15) <= stuck
    requires KeepsLimits(Init(loops, stuck), [], es, id, limits)
    ensures id !in Exec(Init(loops, stuck), es).late
  {
    TimelyAlways(Init(loops, stuck), [], es, id, limits);
  }

  /** The limit of a whole run of ProcessVideo ... */
  function PipelineLimit(scale: real): nat {
    Pipeline.CriticalTimeout(scale) + Makespan.Sum(Pipeline.OptionalTimeouts(scale))
  }

  /** ... and of everything else from the download to the acknowledgement. */
  function OtherLimits(limits: Limits): nat {
    limits[Rank(Stat)] + limits[Rank(Read)] + Makespan.Sum(limits[..Rank(Process)])
  }

  lemma LimitsAddUp(limits: Limits)
    ensures Rest(limits, 15) == OtherLimits(limits) + limits[Rank(Process)]
  {
    RestStep(limits, 15);
    RestStep(limits, 14);
    RestStep(limits, 13);
  }

  /** The steps keep their timeouts, and everything outside them takes no longer than the scaled slack
      and a minute. */
  predicate WithinBudget(limits: Limits, scale: real) {
    && limits[Rank(Process)] <= PipelineLimit(scale)
    && OtherLimits(limits) <= Pipeline.ScaleTimeout(Pipeline.TRANSFER_SLACK, scale) + 60 * SECOND
  }

  lemma NeverLateInBudget(loops: nat, configured: int, scale: real, es: seq<Event>, id: ID, limits: Limits)
    requires configured <= 0 && WithinBudget(limits, scale)
    requires KeepsLimits(Init(loops, Pipeline.StuckTimeout(configured, scale)), [], es, id, limits)
    ensures id !in Exec(Init(loops, Pipeline.StuckTimeout(configured, scale)), es).late
  {
    hide Init, Exec, Apply, KeepsLimits, Rest, OtherLimits, Pipeline.StuckTimeout;
    hide Pipeline.CriticalTimeout, Pipeline.OptionalTimeouts, Pipeline.ScaleTimeout;
    Pipeline.ThresholdCoversPipeline(configured, scale);
    LimitsAddUp(limits);
    NeverLate(loops, Pipeline.StuckTimeout(configured, scale), es, id, limits);
  }

  /** With the derived budget as its timeout, the service keeps mutual exclusion for a job submitted
      once, as long as its attempts keep within that budget, on every scale. */
  lemma OneHolderInBudget(loops: nat, configured: int, scale: real, es: seq<Event>, id: ID, limits: Limits)
    requires loops <= 1 && configured <= 0 && WithinBudget(limits, scale)
    requires KeepsLimits(Init(loops, Pipeline.StuckTimeout(configured, scale)), [], es, id, limits)
    ensures var s := Exec(Init(loops, Pipeline.StuckTimeout(configured, scale)), es);
      ViewOf(s, id).log.submitted <= 1 ==> Exclusion.AtMostOneHolder(s, id)
  {
    hide Init, Exec, Apply, ViewOf, KeepsLimits, WithinBudget, Exclusion.AtMostOneHolder, Pipeline.StuckTimeout;
    NeverLateInBudget(loops, configured, scale, es, id, limits);
    Exclusion.OneHolder(loops, Pipeline.StuckTimeout(configured, scale), es, id);
  }

  /** And it publishes such a job at most once per uploaded source and failed archive. */
  lemma PublishedInBudget(loops: nat, configured: int, scale: real, es: seq<Event>, id: ID, limits: Limits)
    requires loops <= 1 && configured <= 0 && WithinBudget(limits, scale)
    requires KeepsLimits(Init(loops, Pipeline.StuckTimeout(configured, scale)), [], es, id, limits)
    ensures var x := ViewOf(Exec(Init(loops, Pipeline.StuckTimeout(configured, scale)), es), id);
      x.log.submitted <= 1 ==> x.finished <= x.log.uploads + x.log.archiveFaults
  {
    hide Init, Exec, Apply, ViewOf, KeepsLimits, WithinBudget, Pipeline.StuckTimeout;
    NeverLateInBudget(loops, configured, scale, es, id, limits);
    Exclusion.NeverOverlapped(loops, Pipeline.StuckTimeout(configured, scale), es, id);
    Duplicates.PublishedPerUpload(loops, Pipeline.StuckTimeout(configured, scale), es, id);
  }
}
