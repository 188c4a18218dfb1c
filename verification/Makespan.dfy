/** How long the parallel section takes: Graham's bound for list scheduling, on durations in
    nanoseconds, for any number of tasks, any capacity and any order of acquiring tokens. */
module Makespan {

  function Sum(xs: seq<nat>): nat
    decreases |xs|
  {
    if |xs| == 0 then 0 else Sum(xs[..|xs| - 1]) + xs[|xs| - 1]
  }

  function Max(xs: seq<nat>): (m: nat)
    ensures forall i :: 0 <= i < |xs| ==> xs[i] <= m
    ensures |xs| > 0 ==> m in xs
    decreases |xs|
  {
    if |xs| == 0 then 0
    else
      var rest, last := Max(xs[..|xs| - 1]), xs[|xs| - 1];
      if |xs| == 1 || rest < last then last else rest
  }

  predicate Runs(start: nat, duration: nat, t: nat) {
    start <= t < start + duration
  }

  /** How many tasks hold a token at instant `t`. */
  function Busy(starts: seq<nat>, durations: seq<nat>, t: nat): nat
    requires |starts| == |durations|
    decreases |starts|
  {
    if |starts| == 0 then 0
    else
      var n := |starts| - 1;
      Busy(starts[..n], durations[..n], t) + if Runs(starts[n], durations[n], t) then 1 else 0
  }

  /** Never more than `capacity` tokens out, and none free while a task is still waiting. */
  ghost predicate WithoutDelay(starts: seq<nat>, durations: seq<nat>, capacity: nat) {
    && |starts| == |durations|
    && (forall t: nat :: Busy(starts, durations, t) <= capacity)
    && (forall i, t: nat :: 0 <= i < |starts| && t < starts[i] ==> Busy(starts, durations, t) == capacity)
  }

  function Ends(starts: seq<nat>, durations: seq<nat>): (ends: seq<nat>)
    requires |starts| == |durations|
  {
    seq(|starts|, i requires 0 <= i < |starts| => starts[i] + durations[i])
  }

  /** When the wait group drops to zero. */
  function Finish(starts: seq<nat>, durations: seq<nat>): nat
    requires |starts| == |durations|
  {
    Max(Ends(starts, durations))
  }

  /** Time a task spends holding a token before `t`. */
  function Spent(start: nat, duration: nat, t: nat): nat {
    if t <= start then 0 else if t >= start + duration then duration else t - start
  }

  function TotalSpent(starts: seq<nat>, durations: seq<nat>, t: nat): nat
    requires |starts| == |durations|
    decreases |starts|
  {
    if |starts| == 0 then 0
    else
      var n := |starts| - 1;
      TotalSpent(starts[..n], durations[..n], t) + Spent(starts[n], durations[n], t)
  }

  lemma {:induction false} SpentGrows(starts: seq<nat>, durations: seq<nat>, t: nat)
    requires |starts| == |durations|
    ensures TotalSpent(starts, durations, t + 1) == TotalSpent(starts, durations, t) + Busy(starts, durations, t)
    decreases |starts|
  {
    if |starts| > 0 {
      var n := |starts| - 1;
      SpentGrows(starts[..n], durations[..n], t);
    }
  }

  lemma {:induction false} NothingSpentAtStart(starts: seq<nat>, durations: seq<nat>)
    requires |starts| == |durations|
    ensures TotalSpent(starts, durations, 0) == 0
    decreases |starts|
  {
    if |starts| > 0 {
      NothingSpentAtStart(starts[..|starts| - 1], durations[..|starts| - 1]);
    }
  }

  lemma {:induction false} FullUntil(starts: seq<nat>, durations: seq<nat>, capacity: nat, t: nat)
    requires |starts| == |durations|
    requires forall u: nat :: u < t ==> Busy(starts, durations, u) == capacity
    ensures TotalSpent(starts, durations, t) == capacity * t
    decreases t
  {
    if t == 0 {
      NothingSpentAtStart(starts, durations);
    } else {
      FullUntil(starts, durations, capacity, t - 1);
      SpentGrows(starts, durations, t - 1);
      assert capacity * t == capacity * (t - 1) + capacity;
    }
  }

  lemma {:induction false} SomeUntil(starts: seq<nat>, durations: seq<nat>, t: nat)
    requires |starts| == |durations|
    requires forall u: nat :: u < t ==> Busy(starts, durations, u) >= 1
    ensures TotalSpent(starts, durations, t) >= t
    decreases t
  {
    if t > 0 {
      SomeUntil(starts, durations, t - 1);
      SpentGrows(starts, durations, t - 1);
    }
  }

  lemma {:induction false} SpentAtMost(starts: seq<nat>, durations: seq<nat>, t: nat)
    requires |starts| == |durations|
    ensures TotalSpent(starts, durations, t) <= Sum(durations)
    decreases |starts|
  {
    if |starts| > 0 {
      SpentAtMost(starts[..|starts| - 1], durations[..|starts| - 1], t);
    }
  }

  /** A task that has not started by `t` has spent nothing of its own duration. */
  lemma {:induction false} SpentWithout(starts: seq<nat>, durations: seq<nat>, t: nat, i: nat)
    requires |starts| == |durations| && i < |starts| && t <= starts[i]
    ensures TotalSpent(starts, durations, t) + durations[i] <= Sum(durations)
    decreases |starts|
  {
    var n := |starts| - 1;
    if i == n {
      SpentAtMost(starts[..n], durations[..n], t);
    } else {
      SpentWithout(starts[..n], durations[..n], t, i);
    }
  }

  /** Each task ends within (sum p)/k + (1 - 1/k) * its own p. */
  lemma EndBound(starts: seq<nat>, durations: seq<nat>, capacity: nat, i: nat)
    requires WithoutDelay(starts, durations, capacity) && i < |starts|
    ensures capacity * (starts[i] + durations[i]) + durations[i] <= Sum(durations) + capacity * durations[i]
  {
    FullUntil(starts, durations, capacity, starts[i]);
    SpentWithout(starts, durations, starts[i], i);
    assert capacity * (starts[i] + durations[i]) == capacity * starts[i] + capacity * durations[i];
  }

  lemma Times(k: nat, a: nat, b: nat)
    requires a <= b
    ensures k * a <= k * b
  {
  }

  lemma LastEnd(k: nat, end: nat, own: nat, sum: nat, max: nat)
    requires k >= 1 && own <= max && k * end + own <= sum + k * own
    ensures k * end <= sum + (k - 1) * max
  {
    Times(k - 1, own, max);
    assert k * own == (k - 1) * own + own;
  }

  /** Graham's bound, cleared of its denominator: finish <= (sum p)/k + (1 - 1/k) * max p. */
  lemma GrahamBound(starts: seq<nat>, durations: seq<nat>, capacity: nat)
    requires WithoutDelay(starts, durations, capacity) && capacity >= 1
    ensures capacity * Finish(starts, durations) <= Sum(durations) + (capacity - 1) * Max(durations)
    ensures Max(durations) <= Finish(starts, durations) <= Sum(durations)
  {
    var ends := Ends(starts, durations);
    MaxBelowSum(durations);
    if |starts| > 0 {
      var i :| 0 <= i < |starts| && ends[i] == Max(ends);
      EndBound(starts, durations, capacity, i);
      LastEnd(capacity, ends[i], durations[i], Sum(durations), Max(durations));
      SmallerQuotient(capacity, Max(ends), Sum(durations), Max(durations));
      var j :| 0 <= j < |durations| && durations[j] == Max(durations);
      assert ends[j] >= durations[j];
    } else {
      Times(capacity - 1, 0, Max(durations));
    }
  }

  lemma {:induction false} MaxBelowSum(xs: seq<nat>)
    ensures Max(xs) <= Sum(xs)
    decreases |xs|
  {
    if |xs| > 0 {
      MaxBelowSum(xs[..|xs| - 1]);
    }
  }

  lemma SmallerQuotient(k: nat, finish: nat, sum: nat, max: nat)
    requires k >= 1 && max <= sum && k * finish <= sum + (k - 1) * max
    ensures finish <= sum
  {
    Times(k - 1, max, sum);
    assert sum + (k - 1) * sum == k * sum;
    if finish > sum {
      Times(k, sum + 1, finish);
    }
  }

  /** With a token for every task the section lasts exactly as long as its longest task. */
  lemma EnoughTokens(starts: seq<nat>, durations: seq<nat>, capacity: nat)
    requires WithoutDelay(starts, durations, capacity) && |starts| <= capacity
    ensures Finish(starts, durations) == Max(durations)
  {
    forall i | 0 <= i < |starts|
      ensures starts[i] == 0
    {
      if starts[i] > 0 {
        BusyWithout(starts, durations, 0, i);
      }
    }
    assert Ends(starts, durations) == durations;
  }

  lemma {:induction false} BusyAtMost(starts: seq<nat>, durations: seq<nat>, t: nat)
    requires |starts| == |durations|
    ensures Busy(starts, durations, t) <= |starts|
    decreases |starts|
  {
    if |starts| > 0 {
      BusyAtMost(starts[..|starts| - 1], durations[..|starts| - 1], t);
    }
  }

  lemma {:induction false} BusyWithout(starts: seq<nat>, durations: seq<nat>, t: nat, i: nat)
    requires |starts| == |durations| && i < |starts| && t < starts[i]
    ensures Busy(starts, durations, t) < |starts|
    decreases |starts|
  {
    var n := |starts| - 1;
    if i == n {
      BusyAtMost(starts[..n], durations[..n], t);
    } else {
      BusyWithout(starts[..n], durations[..n], t, i);
    }
  }

  /* ---- list scheduling keeps the tokens busy ---- */

  function Above(frees: seq<nat>, t: nat): nat
    decreases |frees|
  {
    if |frees| == 0 then 0 else Above(frees[..|frees| - 1], t) + if frees[|frees| - 1] > t then 1 else 0
  }

  function Earliest(frees: seq<nat>): (c: nat)
    requires |frees| > 0
    ensures c < |frees| && forall i :: 0 <= i < |frees| ==> frees[c] <= frees[i]
    decreases |frees|
  {
    var n := |frees| - 1;
    if n == 0 then 0
    else
      var c := Earliest(frees[..n]);
      if frees[n] < frees[c] then n else c
  }

  /** Start times when tasks take, in this order, whichever token comes back first; `frees` says
      when each token does. */
  function ListSchedule(durations: seq<nat>, frees: seq<nat>): (starts: seq<nat>)
    requires |frees| > 0
    ensures |starts| == |durations|
    decreases |durations|
  {
    if |durations| == 0 then []
    else
      var c := Earliest(frees);
      [frees[c]] + ListSchedule(durations[1..], frees[c := frees[c] + durations[0]])
  }

  lemma {:induction false} AboveUpdate(frees: seq<nat>, c: nat, free: nat, t: nat)
    requires c < |frees|
    ensures Above(frees[c := free], t) + (if frees[c] > t then 1
        else 0) == Above(frees, t) + (if free > t then 1 else 0)
    decreases |frees|
  {
    var n := |frees| - 1;
    if c == n {
      assert frees[c := free][..n] == frees[..n];
    } else {
      assert frees[c := free][..n] == frees[..n][c := free];
      AboveUpdate(frees[..n], c, free, t);
    }
  }

  lemma {:induction false} AboveBounds(frees: seq<nat>, t: nat)
    ensures Above(frees, t) <= |frees|
    ensures (forall i :: 0 <= i < |frees| ==> frees[i] > t) ==> Above(frees, t) == |frees|
    decreases |frees|
  {
    if |frees| > 0 {
      AboveBounds(frees[..|frees| - 1], t);
    }
  }

  lemma {:induction false} BusyCons(start: nat, duration: nat, starts: seq<nat>, durations: seq<nat>, t: nat)
    requires |starts| == |durations|
    ensures Busy([start] + starts, [duration] + durations, t) ==
            Busy(starts, durations, t) + if Runs(start, duration, t) then 1 else 0
    decreases |starts|
  {
    var n := |starts|;
    if n > 0 {
      assert ([start] + starts)[..n] == [start] + starts[..n - 1];
      assert ([duration] + durations)[..n] == [duration] + durations[..n - 1];
      BusyCons(start, duration, starts[..n - 1], durations[..n - 1], t);
    } else {
      assert ([start] + starts)[..0] == [] && ([duration] + durations)[..0] == [];
    }
  }

  /** From tokens that come back at `frees`: the later tasks and the current holders together
      never exceed the tokens, and no token is idle before a start. */
  lemma {:induction false} ListScheduleBusy(durations: seq<nat>, frees: seq<nat>, t: nat)
    requires |frees| > 0
    ensures var starts := ListSchedule(durations, frees);
      && Above(frees, t) + Busy(starts, durations, t) <= |frees|
      && forall i :: 0 <= i < |starts| && t < starts[i] ==> Above(frees, t) + Busy(starts, durations, t) == |frees|
    decreases |durations|
  {
    AboveBounds(frees, t);
    if |durations| > 0 {
      hide Above, Busy, Earliest;
      var c := Earliest(frees);
      var next := frees[c := frees[c] + durations[0]];
      var rest := ListSchedule(durations[1..], next);
      var starts := ListSchedule(durations, frees);
      ListScheduleBusy(durations[1..], next, t);
      AboveUpdate(frees, c, frees[c] + durations[0], t);
      BusyCons(frees[c], durations[0], rest, durations[1..], t);
      assert [durations[0]] + durations[1..] == durations;
      assert starts == [frees[c]] + rest;
      forall i | 0 <= i < |starts| && t < starts[i]
        ensures Above(frees, t) + Busy(starts, durations, t) == |frees|
      {
        if i > 0 {
          assert rest[i - 1] == starts[i];
        }
      }
    }
  }

  lemma {:induction false} AboveZero(frees: seq<nat>, t: nat)
    requires forall i :: 0 <= i < |frees| ==> frees[i] == 0
    ensures Above(frees, t) == 0
    decreases |frees|
  {
    if |frees| > 0 {
      AboveZero(frees[..|frees| - 1], t);
    }
  }

  /** Whatever the order in which the tasks get their tokens, handing tokens on as they come back
      is a schedule without delay, so the bound applies to it. */
  lemma AnyOrderMeetsBound(durations: seq<nat>, capacity: nat)
    requires capacity >= 1
    ensures var starts := ListSchedule(durations, seq(capacity, _ => 0));
      && WithoutDelay(starts, durations, capacity)
      && capacity * Finish(starts, durations) <= Sum(durations) + (capacity - 1) * Max(durations)
      && Finish(starts, durations) <= Sum(durations)
  {
    var frees := seq(capacity, _ => 0);
    var starts := ListSchedule(durations, frees);
    forall t: nat
      ensures Busy(starts, durations, t) <= capacity
      ensures forall i :: 0 <= i < |starts| && t < starts[i] ==> Busy(starts, durations, t) == capacity
    {
      AboveZero(frees, t);
      ListScheduleBusy(durations, frees, t);
    }
    GrahamBound(starts, durations, capacity);
  }
}
