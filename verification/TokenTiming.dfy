/** The token machine against the clock: when every action happens as soon as it can, and a step
    takes its duration, the starts form a schedule without delay. */
module TokenTiming {
  import opened Counting
  import opened Scheduler
  import Makespan

  /** `starts[i]` is when task i acquired its token, `returned` when Wait returned. */
  datatype Timed = Timed(s: State, now: nat, starts: seq<nat>, returned: nat)

  /** An action of the machine, or the passing of one unit of time. */
  datatype Tock = Do(action: Action) | Tick

  predicate Waiting(pc: Pc) {
    pc == Unspawned || pc == Queued
  }

  function Start(p: Plan): Timed {
    Timed(Init(p), 0, seq(|p.outcomes|, _ => 0), 0)
  }

  predicate Shaped(p: Plan, durations: seq<nat>, x: Timed) {
    Fits(p, x.s) && |durations| == |x.starts| == |x.s.pcs|
  }

  /** The action can happen now; a step ends exactly when its duration is over. */
  predicate Possible(p: Plan, durations: seq<nat>, x: Timed, a: Action)
    requires Shaped(p, durations, x)
  {
    && Enabled(p, x.s, a)
    && (a.Move? && x.s.pcs[a.task] == Working ==> x.now == x.starts[a.task] + durations[a.task])
  }

  /** Nothing can happen any more before time passes. */
  predicate Still(p: Plan, durations: seq<nat>, x: Timed)
    requires Shaped(p, durations, x)
  {
    && !Possible(p, durations, x, Spawn) && !Possible(p, durations, x, Wait)
    && forall i :: 0 <= i < |x.s.pcs| ==> !Possible(p, durations, x, Move(i))
  }

  predicate Allowed(p: Plan, durations: seq<nat>, x: Timed, e: Tock)
    requires Shaped(p, durations, x)
  {
    if e.Tick? then Still(p, durations, x) else Possible(p, durations, x, e.action)
  }

  function After(p: Plan, x: Timed, e: Tock): (y: Timed)
    requires Fits(p, x.s) && |x.starts| == |x.s.pcs|
    ensures Fits(p, y.s) && |y.starts| == |x.starts| == |y.s.pcs|
  {
    match e
    case Tick => x.(now := x.now + 1)
    case Do(a) =>
      x.(s := Apply(p, x.s, a),
         starts := if a.Move? && a.task < |x.s.pcs| &&
             x.s.pcs[a.task] == Queued then x.starts[a.task := x.now] else x.starts,
         returned := if a.Wait? then x.now else x.returned)
  }

  /** A run in which actions happen when they can, and time passes only when none can. */
  predicate Prompt(p: Plan, durations: seq<nat>, x: Timed, es: seq<Tock>)
    requires Shaped(p, durations, x)
    decreases |es|
  {
    |es| > 0 ==>
      && Allowed(p, durations, x, es[0])
      && Prompt(p, durations, After(p, x, es[0]), es[1..])
  }

  function Run(p: Plan, x: Timed, es: seq<Tock>): (y: Timed)
    requires Fits(p, x.s) && |x.starts| == |x.s.pcs|
    ensures Fits(p, y.s) && |y.starts| == |x.starts| == |y.s.pcs|
    decreases |es|
  {
    if |es| == 0 then x else Run(p, After(p, x, es[0]), es[1..])
  }

  /** The starts as far as they are known: a task without a token starts now at the earliest. */
  function Known(x: Timed): (starts: seq<nat>)
    requires |x.starts| == |x.s.pcs|
    ensures |starts| == |x.starts|
  {
    seq(|x.starts|, i requires 0 <= i < |x.starts| => if Waiting(x.s.pcs[i]) then x.now else x.starts[i])
  }

  /** A task holds its token for its duration, and gives it back without delay. */
  predicate OnTime(durations: seq<nat>, x: Timed)
    requires |durations| == |x.starts| == |x.s.pcs|
  {
    forall i :: 0 <= i < |x.s.pcs| ==>
      (match x.s.pcs[i]
       case Unspawned => true
       case Queued => true
       case Working => x.starts[i] <= x.now <= x.starts[i] + durations[i]
       case _ => x.starts[i] + durations[i] <= x.now)
  }

  /** So far the schedule is without delay. */
  ghost predicate NoDelayYet(durations: seq<nat>, x: Timed, capacity: nat)
    requires |durations| == |x.starts| == |x.s.pcs|
  {
    var starts := Known(x);
    && (forall t: nat :: t < x.now ==> Makespan.Busy(starts, durations, t) <= capacity)
    && (forall i, t: nat :: 0 <= i < |starts| && t < starts[i] ==> Makespan.Busy(starts, durations, t) == capacity)
  }

  predicate EndsLate(durations: seq<nat>, x: Timed)
    requires |durations| == |x.starts| == |x.s.pcs|
  {
    exists i :: 0 <= i < |x.s.pcs| && !Waiting(x.s.pcs[i]) && x.starts[i] + durations[i] >= x.now
  }

  /** At no time so far have all tokens been back while a task was left. */
  ghost predicate NeverIdle(durations: seq<nat>, x: Timed)
    requires |durations| == |x.starts| == |x.s.pcs|
  {
    var starts := Known(x);
    forall t: nat :: t < x.now ==> Makespan.Busy(starts, durations, t) >= 1
  }

  ghost predicate Good(p: Plan, durations: seq<nat>, x: Timed) {
    && Shaped(p, durations, x) && Inv(p, x.s) && OnTime(durations, x) && NoDelayYet(durations, x, p.capacity)
    && (!x.s.waited ==> NeverIdle(durations, x))
    && (!x.s.waited && x.now > 0 ==> EndsLate(durations, x))
    && (x.s.waited ==>
          && (forall i :: 0 <= i < |x.s.pcs| ==> x.starts[i] + durations[i] <= x.returned)
          && (x.returned > 0 ==> exists i :: 0 <= i < |x.s.pcs| && x.starts[i] + durations[i] >= x.returned))
  }

  lemma {:induction false} SameBusy(a: seq<nat>, b: seq<nat>, durations: seq<nat>, t: nat)
    requires |a| == |b| == |durations|
    requires forall i :: 0 <= i < |a| ==>
        (Makespan.Runs(a[i], durations[i], t) <==> Makespan.Runs(b[i], durations[i], t))
    ensures Makespan.Busy(a, durations, t) == Makespan.Busy(b, durations, t)
    decreases |a|
  {
    if |a| > 0 {
      var n := |a| - 1;
      SameBusy(a[..n], b[..n], durations[..n], t);
    }
  }

  lemma {:induction false} BusyIsTokens(pcs: seq<Pc>, starts: seq<nat>, durations: seq<nat>, t: nat)
    requires |pcs| == |starts| == |durations|
    requires forall i :: 0 <= i < |pcs| ==> (Makespan.Runs(starts[i], durations[i], t) <==> HasToken()(pcs[i]))
    ensures Makespan.Busy(starts, durations, t) == Count(pcs, HasToken())
    decreases |pcs|
  {
    if |pcs| > 0 {
      var n := |pcs| - 1;
      BusyIsTokens(pcs[..n], starts[..n], durations[..n], t);
    }
  }

  /** Before time passes every task is queued, working or finished, and if one is queued all tokens
      are out. */
  lemma StillMeansWorking(p: Plan, durations: seq<nat>, x: Timed)
    requires Shaped(p, durations, x) && Inv(p, x.s) && Still(p, durations, x)
    ensures forall i :: 0 <= i < |x.s.pcs| ==> x.s.pcs[i] == Queued || x.s.pcs[i] == Working || x.s.pcs[i] == Finished
    ensures forall i :: 0 <= i < |x.s.pcs| && x.s.pcs[i] == Working ==> x.now != x.starts[i] + durations[i]
    ensures forall i :: 0 <= i < |x.s.pcs| && x.s.pcs[i] == Queued ==> x.s.channel == p.capacity
  {
    hide Count, Sequential;
    forall i | 0 <= i < |x.s.pcs|
      ensures !HasLock()(x.s.pcs[i])
    {
      assert !Possible(p, durations, x, Move(i));
    }
    CountZero(x.s.pcs, HasLock());
    forall i | 0 <= i < |x.s.pcs|
      ensures x.s.pcs[i] == Queued || x.s.pcs[i] == Working || x.s.pcs[i] == Finished
      ensures x.s.pcs[i] == Working ==> x.now != x.starts[i] + durations[i]
      ensures x.s.pcs[i] == Queued ==> x.s.channel == p.capacity
    {
      assert !Possible(p, durations, x, Move(i));
    }
  }

  /** The passing of time adds one moment to the schedule, in which the tokens are out as they are now. */
  lemma TickSchedule(p: Plan, durations: seq<nat>, x: Timed)
    requires Good(p, durations, x) && Still(p, durations, x)
    ensures var y := After(p, x, Tick);
      && (forall t: nat :: t < x.now ==>
            Makespan.Busy(Known(y), durations, t) == Makespan.Busy(Known(x), durations, t))
      && Makespan.Busy(Known(y), durations, x.now) == x.s.channel <= p.capacity
      && (forall i :: 0 <= i < |x.s.pcs| ==> Known(x)[i] <= x.now)
      && (forall i :: 0 <= i < |x.s.pcs| ==>
            Known(y)[i] == Known(x)[i] || (Known(y)[i] == x.now + 1 && Known(x)[i] == x.now &&
                x.s.channel == p.capacity))
      && OnTime(durations, y)
  {
    hide Count, Inv, Sequential, Makespan.Busy, NoDelayYet, NeverIdle;
    var y := After(p, x, Tick);
    var a, b := Known(x), Known(y);
    StillMeansWorking(p, durations, x);
    Occupancy(p, x.s);
    forall t: nat | t < x.now
      ensures Makespan.Busy(b, durations, t) == Makespan.Busy(a, durations, t)
    {
      SameBusy(b, a, durations, t);
    }
    BusyIsTokens(x.s.pcs, b, durations, x.now);
  }

  lemma TickGood(p: Plan, durations: seq<nat>, x: Timed)
    requires Good(p, durations, x) && Still(p, durations, x)
    ensures Good(p, durations, After(p, x, Tick))
  {
    hide Count, Inv, Sequential, Makespan.Busy, Known, OnTime;
    TickSchedule(p, durations, x);
    TickEnds(p, durations, x);
    Occupancy(p, x.s);
    var y := After(p, x, Tick);
    forall i, t: nat | 0 <= i < |x.s.pcs| && t < Known(y)[i]
      ensures Makespan.Busy(Known(y), durations, t) == p.capacity
    {
      if t < x.now {
        assert t < Known(x)[i];
      }
    }
    if !x.s.waited {
      var i :| 0 <= i < |x.s.pcs| && x.s.pcs[i] == Working;
      CountMember(x.s.pcs, i, HasToken());
    }
  }

  lemma Occupancy(p: Plan, s: State)
    requires Inv(p, s)
    ensures s.channel == Count(s.pcs, HasToken()) <= p.capacity
  {
  }

  /** Time passes only while some task is at work. */
  lemma TickEnds(p: Plan, durations: seq<nat>, x: Timed)
    requires Shaped(p, durations, x) && Inv(p, x.s) && OnTime(durations, x) && Still(p, durations, x)
    ensures !x.s.waited ==> EndsLate(durations, x.(now := x.now + 1))
    ensures !x.s.waited ==> exists i :: 0 <= i < |x.s.pcs| && x.s.pcs[i] == Working
  {
    hide Count, Sequential;
    StillMeansWorking(p, durations, x);
    if !x.s.waited {
      var a := Progress(p, x.s);
      assert a.Move? && x.s.pcs[a.task] == Working;
    }
  }

  /** The same tasks hold or have held a token, from the same starts, and on time. */
  predicate Continues(durations: seq<nat>, x: Timed, y: Timed)
    requires |durations| == |x.starts| == |x.s.pcs|
  {
    && |y.starts| == |y.s.pcs| == |x.s.pcs|
    && Known(y) == Known(x) && OnTime(durations, y)
    && forall i :: 0 <= i < |x.s.pcs| && !Waiting(x.s.pcs[i]) ==> !Waiting(y.s.pcs[i]) && y.starts[i] == x.starts[i]
  }

  /** Task `i` moves from one pc to another, and if it acquires a token it starts now. */
  lemma TaskContinues(durations: seq<nat>, x: Timed, y: Timed, i: nat, pc: Pc)
    requires |durations| == |x.starts| == |x.s.pcs| && i < |x.s.pcs| && OnTime(durations, x)
    requires y.now == x.now && y.s.pcs == x.s.pcs[i := pc]
    requires y.starts == if x.s.pcs[i] == Queued then x.starts[i := x.now] else x.starts
    requires if x.s.pcs[i] == Unspawned then pc == Queued
             else if x.s.pcs[i] == Queued then pc == Working
             else !Waiting(pc) && pc != Working && x.starts[i] + durations[i] <= x.now
    ensures Continues(durations, x, y)
  {
  }

  lemma DoKnown(p: Plan, durations: seq<nat>, x: Timed, a: Action)
    requires Shaped(p, durations, x) && Inv(p, x.s) && OnTime(durations, x) && Possible(p, durations, x, a)
    ensures Shaped(p, durations, After(p, x, Do(a))) && Continues(durations, x, After(p, x, Do(a)))
  {
    hide Count, Inv, Sequential, Known, Continues;
    var y := After(p, x, Do(a));
    match a
    case Spawn =>
      SpawnsFresh(p, x.s);
      TaskContinues(durations, x, y, x.s.spawned, Queued);
    case Move(i) => TaskContinues(durations, x, y, i, y.s.pcs[i]);
    case Wait => SameContinues(durations, x, y);
  }

  lemma SameContinues(durations: seq<nat>, x: Timed, y: Timed)
    requires |durations| == |x.starts| == |x.s.pcs| && OnTime(durations, x)
    requires y.now == x.now && y.s.pcs == x.s.pcs && y.starts == x.starts
    ensures Continues(durations, x, y)
  {
  }

  lemma NothingAfterWait(p: Plan, s: State, a: Action)
    requires Inv(p, s) && s.waited && |s.pcs| == |p.outcomes|
    ensures !Enabled(p, s, a)
  {
    hide Count, Sequential;
    if s.spawned < |s.pcs| {
      SpawnsFresh(p, s);
    }
  }

  lemma DoGood(p: Plan, durations: seq<nat>, x: Timed, a: Action)
    requires Good(p, durations, x) && Possible(p, durations, x, a)
    ensures Good(p, durations, After(p, x, Do(a)))
  {
    hide Count, Inv, Makespan.Busy, Sequential, Known, OnTime;
    var y := After(p, x, Do(a));
    Keeps(p, x.s, a);
    DoKnown(p, durations, x, a);
    if !x.s.waited && x.now > 0 {
      var i :| 0 <= i < |x.s.pcs| && !Waiting(x.s.pcs[i]) && x.starts[i] + durations[i] >= x.now;
      assert !Waiting(y.s.pcs[i]) && y.starts[i] == x.starts[i];
    }
    if y.s.waited {
      WaitedFinished(p, y.s);
      AllOver(durations, y);
      if x.s.waited {
        NothingAfterWait(p, x.s, a);
      }
    }
  }

  lemma AllOver(durations: seq<nat>, x: Timed)
    requires |durations| == |x.starts| == |x.s.pcs| && OnTime(durations, x)
    requires forall i :: 0 <= i < |x.s.pcs| ==> x.s.pcs[i] == Finished
    ensures forall i :: 0 <= i < |x.s.pcs| ==> x.starts[i] + durations[i] <= x.now
    ensures Known(x) == x.starts
  {
  }

  lemma SpawnsFresh(p: Plan, s: State)
    requires Inv(p, s) && s.spawned < |s.pcs|
    ensures s.pcs[s.spawned] == Unspawned
  {
  }

  lemma WaitedFinished(p: Plan, s: State)
    requires Inv(p, s) && s.waited
    ensures forall i :: 0 <= i < |s.pcs| ==> s.pcs[i] == Finished
  {
  }

  lemma {:induction false} AlwaysGood(p: Plan, durations: seq<nat>, x: Timed, es: seq<Tock>)
    requires Good(p, durations, x) && Prompt(p, durations, x, es)
    ensures Good(p, durations, Run(p, x, es))
    decreases |es|
  {
    hide Good, Still, Possible;
    if |es| > 0 {
      assert Shaped(p, durations, x) by { GoodShape(p, durations, x); }
      if es[0].Tick? {
        TickGood(p, durations, x);
      } else {
        DoGood(p, durations, x, es[0].action);
      }
      AlwaysGood(p, durations, After(p, x, es[0]), es[1..]);
    }
  }

  lemma GoodShape(p: Plan, durations: seq<nat>, x: Timed)
    requires Good(p, durations, x)
    ensures Shaped(p, durations, x) && Inv(p, x.s)
  {
  }

  lemma {:induction false} NobodyRuns(starts: seq<nat>, durations: seq<nat>, t: nat)
    requires |starts| == |durations|
    requires forall i :: 0 <= i < |starts| ==> starts[i] + durations[i] <= t
    ensures Makespan.Busy(starts, durations, t) == 0
    decreases |starts|
  {
    if |starts| > 0 {
      NobodyRuns(starts[..|starts| - 1], durations[..|starts| - 1], t);
    }
  }

  lemma OverIsWithoutDelay(p: Plan, durations: seq<nat>, x: Timed)
    requires Good(p, durations, x) && x.s.waited
    ensures Makespan.WithoutDelay(x.starts, durations, p.capacity)
  {
    hide Count, Makespan.Busy, Inv;
    WaitedFinished(p, x.s);
    AllOver(durations, x);
    forall t: nat
      ensures Makespan.Busy(x.starts, durations, t) <= p.capacity
    {
      if t >= x.now {
        NobodyRuns(x.starts, durations, t);
      }
    }
  }

  lemma ReturnsAtFinish(p: Plan, durations: seq<nat>, x: Timed)
    requires Good(p, durations, x) && x.s.waited
    ensures x.returned == Makespan.Finish(x.starts, durations)
  {
    hide Count, Makespan.Busy, Inv, OnTime, NoDelayYet, NeverIdle;
    var ends := Makespan.Ends(x.starts, durations);
    if x.returned > 0 {
      var i :| 0 <= i < |x.s.pcs| && x.starts[i] + durations[i] >= x.returned;
      assert ends[i] == x.returned;
    }
    if |ends| > 0 {
      var j :| 0 <= j < |ends| && ends[j] == Makespan.Max(ends);
    }
  }

  lemma StartGood(p: Plan, durations: seq<nat>)
    requires ValidPlan(p) && |durations| == |p.outcomes|
    ensures Good(p, durations, Start(p))
  {
    hide Count;
    Starts(p);
  }

  /** Every prompt run that has waited is a schedule without delay, whatever the order of its actions;
      so it meets Graham's bound, and Wait returns at the moment the schedule finishes. */
  lemma PromptMeetsBound(p: Plan, durations: seq<nat>, es: seq<Tock>)
    requires ValidPlan(p) && |durations| == |p.outcomes|
    requires Prompt(p, durations, Start(p), es) && Run(p, Start(p), es).s.waited
    ensures var x := Run(p, Start(p), es);
      && Makespan.WithoutDelay(x.starts, durations, p.capacity)
      && x.returned == Makespan.Finish(x.starts, durations)
      && p.capacity * x.returned <= Makespan.Sum(durations) + (p.capacity - 1) * Makespan.Max(durations)
      && Makespan.Max(durations) <= x.returned <= Makespan.Sum(durations)
  {
    hide Count, Makespan.Busy, Inv, Prompt, Run, OnTime, NoDelayYet;
    StartGood(p, durations);
    AlwaysGood(p, durations, Start(p), es);
    var x := Run(p, Start(p), es);
    OverIsWithoutDelay(p, durations, x);
    ReturnsAtFinish(p, durations, x);
    Makespan.GrahamBound(x.starts, durations, p.capacity);
  }

  /* ---- prompt runs come to an end ---- */

  /** As long as Wait has not returned, the clock has not passed the sum of the durations. */
  lemma ClockBounded(p: Plan, durations: seq<nat>, x: Timed)
    requires Good(p, durations, x) && !x.s.waited
    ensures x.now <= Makespan.Sum(durations)
  {
    hide Makespan.Busy, Inv, OnTime, NoDelayYet;
    Makespan.SomeUntil(Known(x), durations, x.now);
    Makespan.SpentAtMost(Known(x), durations, x.now);
  }

  /** Every action uses up some of the machine's measure, everything else some time. */
  lemma {:induction false} RunCounts(p: Plan, durations: seq<nat>, x: Timed, es: seq<Tock>)
    requires Good(p, durations, x) && Prompt(p, durations, x, es)
    ensures var t := Run(p, x, es);
      |es| + x.now + Measure(t.s) <= t.now + Measure(x.s)
    decreases |es|
  {
    hide Good, Still, Measure, Possible, Inv, Apply;
    if |es| > 0 {
      GoodShape(p, durations, x);
      if es[0].Tick? {
        TickGood(p, durations, x);
      } else {
        DoGood(p, durations, x, es[0].action);
        assert Enabled(p, x.s, es[0].action) by { PossibleIsEnabled(p, durations, x, es[0].action); }
        Decreases(p, x.s, es[0].action);
      }
      RunCounts(p, durations, After(p, x, es[0]), es[1..]);
    }
  }

  lemma PossibleIsEnabled(p: Plan, durations: seq<nat>, x: Timed, a: Action)
    requires Shaped(p, durations, x) && Possible(p, durations, x, a)
    ensures Enabled(p, x.s, a)
  {
  }

  /** A prompt run in which Wait has not returned has at most 8n actions and `Sum(durations)` units of
      time in it. */
  lemma PromptEnds(p: Plan, durations: seq<nat>, es: seq<Tock>)
    requires ValidPlan(p) && |durations| == |p.outcomes|
    requires Prompt(p, durations, Start(p), es) && !Run(p, Start(p), es).s.waited
    ensures |es| <= 8 * |p.outcomes| + Makespan.Sum(durations)
  {
    hide Prompt, Run, Good, Weights;
    StartGood(p, durations);
    AlwaysGood(p, durations, Start(p), es);
    RunCounts(p, durations, Start(p), es);
    InitialWeights(Init(p).pcs);
    ClockBounded(p, durations, Run(p, Start(p), es));
  }

  lemma {:induction false} RunSplit(p: Plan, durations: seq<nat>, x: Timed, es: seq<Tock>, e: Tock)
    requires Shaped(p, durations, x) && Prompt(p, durations, x, es)
    ensures Run(p, x, es + [e]) == After(p, Run(p, x, es), e) && Shaped(p, durations, Run(p, x, es))
    ensures Allowed(p, durations, Run(p, x, es), e) ==> Prompt(p, durations, x, es + [e])
    decreases |es|
  {
    hide Still, Possible, Apply;
    if |es| == 0 {
      assert es + [e] == [e] && |[e][1..]| == 0;
    } else {
      assert (es + [e])[1..] == es[1..] + [e];
      RunSplit(p, durations, After(p, x, es[0]), es[1..], e);
    }
  }

  /** Every prompt run can be continued to one in which Wait has returned. */
  lemma {:induction false} PromptCompletes(p: Plan, durations: seq<nat>, es: seq<Tock>) returns (more: seq<Tock>)
    requires ValidPlan(p) && |durations| == |p.outcomes|
    requires Prompt(p, durations, Start(p), es)
    ensures Prompt(p, durations, Start(p), es + more) && Run(p, Start(p), es + more).s.waited
    decreases 8 * |p.outcomes| + Makespan.Sum(durations) + 1 - |es|
  {
    hide Prompt, Run, Still, Possible, After;
    var x := Run(p, Start(p), es);
    if x.s.waited {
      more := [];
      assert es + more == es;
    } else {
      RunSplit(p, durations, Start(p), es, Tick);
      var e := Continuation(p, durations, x);
      RunSplit(p, durations, Start(p), es, e);
      PromptEnds(p, durations, es);
      var rest := PromptCompletes(p, durations, es + [e]);
      more := [e] + rest;
      assert es + [e] + rest == es + more;
    }
  }

  /** If nothing is possible now, time may pass. */
  lemma Continuation(p: Plan, durations: seq<nat>, x: Timed) returns (e: Tock)
    requires Shaped(p, durations, x)
    ensures Allowed(p, durations, x, e)
  {
    hide Possible;
    if Possible(p, durations, x, Spawn) {
      e := Do(Spawn);
    } else if Possible(p, durations, x, Wait) {
      e := Do(Wait);
    } else if i :| 0 <= i < |x.s.pcs| && Possible(p, durations, x, Move(i)) {
      e := Do(Move(i));
    } else {
      e := Tick;
    }
  }
}
