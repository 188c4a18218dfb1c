/** The main list is a queue: retries and recovered jobs go to the back of the line. */
module Fifo {
  import opened RedisLists
  import opened Jobs
  import opened Protocol
  import opened Projection

  function Reverse<T>(xs: seq<T>): (r: seq<T>)
    ensures |r| == |xs|
    ensures forall i :: 0 <= i < |xs| ==> r[i] == xs[|xs| - 1 - i]
  {
    if xs == [] then [] else Reverse(xs[1..]) + [xs[0]]
  }

  /** Everything ever pushed on the main list, by publishers, retries and recovery alike, is what
      has been taken, in that order, followed by what is still waiting. */
  predicate InOrder(s: State) {
    s.pushes == s.pops + Reverse(s.redis.main)
  }

  lemma ReversePush<T>(xs: seq<T>, x: T)
    ensures Reverse(LPush(xs, x)) == Reverse(xs) + [x]
  {
  }

  lemma {:induction false} ReverseTake<T>(xs: seq<T>)
    requires |xs| > 0
    ensures Reverse(xs) == [xs[|xs| - 1]] + Reverse(xs[..|xs| - 1])
  {
    var n := |xs| - 1;
    if n > 0 {
      ReverseTake(xs[1..]);
      assert xs[..n][1..] == xs[1..][..n - 1];
    }
  }

  lemma PerformInOrder(s: State, id: ID, c: Command)
    requires InOrder(s)
    ensures InOrder(Perform(s, id, c)) && Perform(s, id, c).pops == s.pops
    ensures Perform(s, id, c).loops == s.loops && Perform(s, id, c).attempts == s.attempts
  {
    hide TallyAfter, ObjectsAfter;
    ReversePush(s.redis.main, id);
  }

  /** What one event does to the queue: only Consume takes, and it takes one ID if there is one. */
  predicate OnlyTakesTake(s: State, e: Event) {
    var t := Apply(s, e);
    && InOrder(t)
    && t.pops == s.pops + (if e.Consume? && |s.redis.main| > 0 then [s.redis.main[|s.redis.main| - 1]] else [])
  }

  lemma TakeInOrder(s: State, e: Event)
    requires InOrder(s) && e.Consume?
    ensures OnlyTakesTake(s, e)
  {
    hide RunningOn, TallyOf, LPush;
    if |s.redis.main| > 0 {
      ReverseTake(s.redis.main);
    }
  }

  lemma CommandInOrder(s: State, e: Event)
    requires InOrder(s) && (e.Step? || e.Sweep? || e.LoopDies?)
    ensures OnlyTakesTake(s, e)
  {
    hide Perform, NextAttempt, NextLoop, ViewOf, Reverse;
    match e
    case Step(i, ok, note) =>
      if i < |s.attempts| && s.attempts[i].pc != Ended {
        var a := s.attempts[i];
        PerformInOrder(s, a.id, NextAttempt(ViewOf(s, a.id), a, ok, note, s.now).0);
      }
    case Sweep(l, ok) =>
      if l < |s.loops| && Subject(s.loops[l]).Some? {
        var on := Subject(s.loops[l]).value;
        PerformInOrder(s, on, NextLoop(ViewOf(s, on), s.loops[l], ok).0);
      }
    case LoopDies(l) =>
      if l < |s.loops| && s.loops[l].Returning? {
        PerformInOrder(s.(loops := s.loops[l := Waiting]), s.loops[l].id, Lose);
      }
  }

  lemma OtherInOrder(s: State, e: Event)
    requires InOrder(s) && !(e.Consume? || e.Step? || e.Sweep? || e.LoopDies?)
    ensures OnlyTakesTake(s, e)
  {
    hide RunningOn, RemovingOn, Threshold, Overdue, TallyOf, Reverse, LPush;
    if e.PublishPush? || e.PushBare? {
      ReversePush(s.redis.main, e.id);
    }
  }

  lemma ApplyInOrder(s: State, e: Event)
    requires InOrder(s)
    ensures OnlyTakesTake(s, e)
  {
    hide *;
    if e.Consume? {
      TakeInOrder(s, e);
    } else if e.Step? || e.Sweep? || e.LoopDies? {
      CommandInOrder(s, e);
    } else {
      OtherInOrder(s, e);
    }
  }

  lemma {:induction false} RunInOrder(s: State, es: seq<Event>)
    requires InOrder(s)
    ensures var t := Exec(s, es);
      InOrder(t) && s.pops <= t.pops
    decreases |es|
  {
    if es != [] {
      ApplyInOrder(s, es[0]);
      RunInOrder(Apply(s, es[0]), es[1..]);
    }
  }

  /** The k-th push is the k-th take, in every run. */
  lemma FirstInFirstOut(loops: nat, stuck: nat, es: seq<Event>)
    ensures var s := Exec(Init(loops, stuck), es);
      s.pops <= s.pushes && s.pushes == s.pops + Reverse(s.redis.main)
  {
    RunInOrder(Init(loops, stuck), es);
  }

  lemma {:induction false} PushesGrow(s: State, es: seq<Event>)
    requires InOrder(s)
    ensures s.pushes <= Exec(s, es).pushes
    decreases |es|
  {
    if es != [] {
      ApplyInOrder(s, es[0]);
      PushesGrowOnce(s, es[0]);
      PushesGrow(Apply(s, es[0]), es[1..]);
    }
  }

  lemma PushesGrowOnce(s: State, e: Event)
    ensures s.pushes <= Apply(s, e).pushes
  {
    hide NextAttempt, NextLoop, ViewOf, RunningOn, Threshold, Overdue, TallyAfter, ObjectsAfter, RedisAfter;
  }

  /** The same as sequences: what was in the list is still ahead of anything pushed since. */
  lemma StillAhead<T>(pops: seq<T>, main: seq<T>, laterPops: seq<T>, laterMain: seq<T>, behind: nat)
    requires behind < |main| && pops <= laterPops
    requires pops + Reverse(main) <= laterPops + Reverse(laterMain)
    ensures var entry, at := main[|main| - 1 - behind], |pops| + behind;
      && (at < |laterPops| ==> laterPops[at] == entry)
      && (at >= |laterPops| ==>
            at - |laterPops| < |laterMain| && laterMain[|laterMain| - 1 - (at - |laterPops|)] == entry)
  {
    hide Reverse;
    var before, after := pops + Reverse(main), laterPops + Reverse(laterMain);
    assert before[|pops| + behind] == after[|pops| + behind];
  }

  /** An entry with `behind` entries between it and the consuming end is the one taken after
      exactly `behind` further takes, whatever is published, retried or recovered meanwhile. */
  lemma BoundedOvertaking(s: State, es: seq<Event>, behind: nat)
    requires InOrder(s) && behind < |s.redis.main|
    ensures var t := Exec(s, es);
      var entry := s.redis.main[|s.redis.main| - 1 - behind];
      && (|t.pops| > |s.pops| + behind ==> t.pops[|s.pops| + behind] == entry)
      && (|t.pops| <= |s.pops| + behind ==>
            var left := |s.pops| + behind - |t.pops|;
            left < |t.redis.main| && t.redis.main[|t.redis.main| - 1 - left] == entry)
  {
    hide Exec, Apply, Reverse;
    RunInOrder(s, es);
    PushesGrow(s, es);
    var t := Exec(s, es);
    StillAhead(s.pops, s.redis.main, t.pops, t.redis.main, behind);
  }
}
