/** runNonCriticalStepsParallel as a step machine: a token channel, a wait group and a mutex, for
    any number of tasks and any capacity.  `outcomes[i]` says whether task i's step succeeds and
    `paths[i]` is what it then stores; the code's four tasks are one instance. */
module Scheduler {
  import opened Counting

  datatype Pc =
    | Unspawned
    | Queued      // next: send on the channel
    | Working     // next: the step ends
    | Succeeded   // next: mu.Lock
    | Locked      // next: onSuccess
    | Written     // next: mu.Unlock
    | Returning   // next: receive from the channel
    | Released    // next: wg.Done
    | Finished

  datatype Plan = Plan(capacity: nat, outcomes: seq<bool>, paths: seq<string>)

  /** `results[i]` is the field task i writes, "" until then; `waited` means Wait has returned. */
  datatype State = State(
    pcs: seq<Pc>, spawned: nat, channel: nat, group: nat, mutexHeld: bool, results: seq<string>, waited: bool)

  datatype Action = Spawn | Move(task: nat) | Wait

  predicate ValidPlan(p: Plan) {
    p.capacity >= 1 && |p.outcomes| == |p.paths|
  }

  function Init(p: Plan): State {
    State(seq(|p.outcomes|, _ => Unspawned), 0, 0, 0, false, seq(|p.outcomes|, _ => ""), false)
  }

  predicate Fits(p: Plan, s: State) {
    ValidPlan(p) && |s.pcs| == |s.results| == |p.outcomes| && s.spawned <= |s.pcs|
  }

  /** A send waits while the channel is full, a lock while the mutex is held, Wait while the
      counter is not zero. */
  predicate Enabled(p: Plan, s: State, a: Action) {
    match a
    case Spawn => s.spawned < |s.pcs|
    case Wait => s.spawned == |s.pcs| && s.group == 0 && !s.waited
    case Move(i) =>
      i < |s.pcs| &&
      match s.pcs[i]
      case Unspawned => false
      case Queued => s.channel < p.capacity
      case Succeeded => !s.mutexHeld
      case Finished => false
      case _ => true
  }

  function Moved(p: Plan, s: State, i: nat): State
    requires Fits(p, s) && i < |s.pcs|
  {
    match s.pcs[i]
    case Unspawned => s
    case Queued => s.(pcs := s.pcs[i := Working], channel := s.channel + 1)
    case Working => s.(pcs := s.pcs[i := if p.outcomes[i] then Succeeded else Returning])
    case Succeeded => s.(pcs := s.pcs[i := Locked], mutexHeld := true)
    case Locked => s.(pcs := s.pcs[i := Written], results := s.results[i := p.paths[i]])
    case Written => s.(pcs := s.pcs[i := Returning], mutexHeld := false)
    case Returning => s.(pcs := s.pcs[i := Released], channel := if s.channel == 0 then 0 else s.channel - 1)
    case Released => s.(pcs := s.pcs[i := Finished], group := if s.group == 0 then 0 else s.group - 1)
    case Finished => s
  }

  /** An action that is not enabled waits. */
  function Apply(p: Plan, s: State, a: Action): State
    requires Fits(p, s)
  {
    if !Enabled(p, s, a) then s
    else
      match a
      case Spawn => s.(pcs := s.pcs[s.spawned := Queued], spawned := s.spawned + 1, group := s.group + 1)
      case Wait => s.(waited := true)
      case Move(i) => Moved(p, s, i)
  }

  function Exec(p: Plan, s: State, as_: seq<Action>): (t: State)
    requires Fits(p, s)
    ensures Fits(p, t)
    decreases |as_|
  {
    if |as_| == 0 then s else Exec(p, Apply(p, s, as_[0]), as_[1..])
  }

  /** The sequential twin: each field in turn gets its path or keeps what it had. */
  function Sequential(p: Plan): seq<string>
    requires ValidPlan(p)
  {
    seq(|p.outcomes|, i requires 0 <= i < |p.outcomes| => if p.outcomes[i] then p.paths[i] else "")
  }

  function HasToken(): Pc -> bool {
    (pc: Pc) => pc == Working || pc == Succeeded || pc == Locked || pc == Written || pc == Returning
  }

  function Pending(): Pc -> bool {
    (pc: Pc) => pc != Unspawned && pc != Finished
  }

  function HasLock(): Pc -> bool {
    (pc: Pc) => pc == Locked || pc == Written
  }

  predicate ResultOk(p: Plan, s: State, i: nat)
    requires Fits(p, s) && i < |s.pcs|
  {
    match s.pcs[i]
    case Succeeded => p.outcomes[i] && s.results[i] == ""
    case Locked => p.outcomes[i] && s.results[i] == ""
    case Written => p.outcomes[i] && s.results[i] == p.paths[i]
    case Returning => s.results[i] == Sequential(p)[i]
    case Released => s.results[i] == Sequential(p)[i]
    case Finished => s.results[i] == Sequential(p)[i]
    case _ => s.results[i] == ""
  }

  /** The channel holds exactly the tasks between acquire and release and never overflows, the
      wait group counts the spawned tasks not yet done, the mutex is held by exactly one task or
      none, and Wait has returned only if every task is done. */
  predicate Inv(p: Plan, s: State) {
    && Fits(p, s)
    && s.channel == Count(s.pcs, HasToken()) <= p.capacity
    && s.group == Count(s.pcs, Pending())
    && Count(s.pcs, HasLock()) == (if s.mutexHeld then 1 else 0)
    && (forall i :: 0 <= i < |s.pcs| ==> ResultOk(p, s, i) && (s.pcs[i] == Unspawned <==> i >= s.spawned))
    && (s.waited ==> forall i :: 0 <= i < |s.pcs| ==> s.pcs[i] == Finished)
  }

  lemma Starts(p: Plan)
    requires ValidPlan(p)
    ensures Inv(p, Init(p))
  {
    var s := Init(p);
    CountZero(s.pcs, HasToken());
    CountZero(s.pcs, Pending());
    CountZero(s.pcs, HasLock());
  }

  lemma Keeps(p: Plan, s: State, a: Action)
    requires Inv(p, s)
    ensures Inv(p, Apply(p, s, a))
  {
    hide Count, Sequential;
    if Enabled(p, s, a) {
      match a
      case Spawn =>
        CountUpdate(s.pcs, s.spawned, Queued, HasToken());
        CountUpdate(s.pcs, s.spawned, Queued, Pending());
        CountUpdate(s.pcs, s.spawned, Queued, HasLock());
      case Wait =>
        forall i | 0 <= i < |s.pcs|
          ensures s.pcs[i] == Finished
        {
          if s.pcs[i] != Finished {
            CountMember(s.pcs, i, Pending());
          }
        }
      case Move(i) => KeepsMoved(p, s, i);
    }
  }

  lemma KeepsMoved(p: Plan, s: State, i: nat)
    requires Inv(p, s) && Enabled(p, s, Move(i))
    ensures Inv(p, Moved(p, s, i))
  {
    hide Count, ResultOk;
    var t := Moved(p, s, i);
    CountUpdate(s.pcs, i, t.pcs[i], HasToken());
    CountUpdate(s.pcs, i, t.pcs[i], Pending());
    CountUpdate(s.pcs, i, t.pcs[i], HasLock());
    CountMember(s.pcs, i, Pending());
    MovedResults(p, s, i);
  }

  lemma MovedResults(p: Plan, s: State, i: nat)
    requires Fits(p, s) && Enabled(p, s, Move(i)) && forall j :: 0 <= j < |s.pcs| ==> ResultOk(p, s, j)
    ensures var t := Moved(p, s, i);
      Fits(p, t) && forall j :: 0 <= j < |t.pcs| ==> ResultOk(p, t, j)
  {
    var t := Moved(p, s, i);
    forall j | 0 <= j < |t.pcs|
      ensures ResultOk(p, t, j)
    {
      assert ResultOk(p, s, j);
    }
  }

  lemma {:induction false} KeepsAlways(p: Plan, s: State, as_: seq<Action>)
    requires Inv(p, s)
    ensures Inv(p, Exec(p, s, as_))
    decreases |as_|
  {
    hide Count, ResultOk, Sequential, Moved;
    if |as_| > 0 {
      Keeps(p, s, as_[0]);
      KeepsAlways(p, Apply(p, s, as_[0]), as_[1..]);
    }
  }

  /** Wait returns only after every task has released and stored its result; the results are then
      the sequential ones, whatever the interleaving, and nothing can write to them any more. */
  lemma RefinesSequential(p: Plan, as_: seq<Action>, later: Action)
    requires ValidPlan(p)
    ensures var t := Exec(p, Init(p), as_);
      && t.channel == Count(t.pcs, HasToken()) <= p.capacity && Count(t.pcs, HasLock()) <= 1
      && (t.waited ==> t.results == Sequential(p) && t.channel == 0 && Apply(p, t, later) == t)
  {
    Starts(p);
    KeepsAlways(p, Init(p), as_);
    var t := Exec(p, Init(p), as_);
    hide Init, Exec;
    if t.waited {
      CountZero(t.pcs, HasToken());
      forall i | 0 <= i < |t.pcs|
        ensures t.results[i] == Sequential(p)[i]
      {
        assert ResultOk(p, t, i);
      }
    }
  }

  /** The next move waits for nothing. */
  predicate Unblocked(pc: Pc) {
    pc == Working || HasLock()(pc) || pc == Returning || pc == Released
  }

  /** Until Wait has returned, somebody can always move. */
  lemma Progress(p: Plan, s: State) returns (a: Action)
    requires Inv(p, s) && !s.waited
    ensures Enabled(p, s, a)
  {
    hide Count, ResultOk, Sequential;
    if s.spawned < |s.pcs| {
      return Spawn;
    }
    if i :| 0 <= i < |s.pcs| && Unblocked(s.pcs[i]) {
      return Move(i);
    }
    if i :| 0 <= i < |s.pcs| && s.pcs[i] == Succeeded {
      CountZero(s.pcs, HasLock());
      return Move(i);
    }
    if i :| 0 <= i < |s.pcs| && s.pcs[i] == Queued {
      CountZero(s.pcs, HasToken());
      return Move(i);
    }
    CountZero(s.pcs, Pending());
    return Wait;
  }

  function Weight(pc: Pc): nat {
    match pc
    case Unspawned => 8
    case Queued => 7
    case Working => 6
    case Succeeded => 5
    case Locked => 4
    case Written => 3
    case Returning => 2
    case Released => 1
    case Finished => 0
  }

  function Weights(pcs: seq<Pc>): nat
    decreases |pcs|
  {
    if |pcs| == 0 then 0 else Weights(pcs[..|pcs| - 1]) + Weight(pcs[|pcs| - 1])
  }

  function Measure(s: State): nat {
    Weights(s.pcs) + if s.waited then 0 else 1
  }

  lemma {:induction false} WeightsUpdate(pcs: seq<Pc>, i: nat, pc: Pc)
    requires i < |pcs|
    ensures Weights(pcs[i := pc]) + Weight(pcs[i]) == Weights(pcs) + Weight(pc)
    decreases |pcs|
  {
    var n := |pcs| - 1;
    if i == n {
      assert pcs[i := pc][..n] == pcs[..n];
    } else {
      assert pcs[i := pc][..n] == pcs[..n][i := pc];
      WeightsUpdate(pcs[..n], i, pc);
    }
  }

  lemma Decreases(p: Plan, s: State, a: Action)
    requires Inv(p, s) && Enabled(p, s, a)
    ensures Measure(Apply(p, s, a)) < Measure(s)
  {
    hide Weights, Count, ResultOk, Sequential;
    match a
    case Spawn =>
      assert s.pcs[s.spawned] == Unspawned;
      WeightsUpdate(s.pcs, s.spawned, Queued);
    case Move(i) => WeightsUpdate(s.pcs, i, Moved(p, s, i).pcs[i]);
    case Wait =>
  }

  /** Runs without waiting actions. */
  predicate Busy(p: Plan, s: State, as_: seq<Action>)
    requires Fits(p, s)
    decreases |as_|
  {
    |as_| == 0 || (Enabled(p, s, as_[0]) && Busy(p, Apply(p, s, as_[0]), as_[1..]))
  }

  lemma {:induction false} BusyIsBounded(p: Plan, s: State, as_: seq<Action>)
    requires Inv(p, s) && Busy(p, s, as_)
    ensures |as_| + Measure(Exec(p, s, as_)) <= Measure(s)
    decreases |as_|
  {
    hide Count, ResultOk, Sequential, Moved, Measure;
    if |as_| > 0 {
      Keeps(p, s, as_[0]);
      Decreases(p, s, as_[0]);
      BusyIsBounded(p, Apply(p, s, as_[0]), as_[1..]);
    }
  }

  lemma {:induction false} InitialWeights(pcs: seq<Pc>)
    requires forall i :: 0 <= i < |pcs| ==> pcs[i] == Unspawned
    ensures Weights(pcs) == 8 * |pcs|
    decreases |pcs|
  {
    if |pcs| > 0 {
      InitialWeights(pcs[..|pcs| - 1]);
    }
  }

  /** Every run ends, after at most 8n + 1 actions, and it ends with the sequential results. */
  lemma EveryRunCompletes(p: Plan, as_: seq<Action>)
    requires ValidPlan(p) && Busy(p, Init(p), as_)
    ensures |as_| <= 8 * |p.outcomes| + 1
    ensures var t := Exec(p, Init(p), as_);
      (forall a :: !Enabled(p, t, a)) ==> t.waited && t.results == Sequential(p)
  {
    Starts(p);
    BusyIsBounded(p, Init(p), as_);
    InitialWeights(Init(p).pcs);
    KeepsAlways(p, Init(p), as_);
    RefinesSequential(p, as_, Wait);
    var t := Exec(p, Init(p), as_);
    if !t.waited {
      var a := Progress(p, t);
    }
  }
}
