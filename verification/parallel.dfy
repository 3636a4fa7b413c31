/** executor/parallel.go: `ExecuteBatch` as interleaved steps of the caller and one goroutine per action. */
module Parallel {
  import opened Wrappers
  import opened Chat

  datatype ExecResult = ExecResult(toolName: string, output: string, error: Option<string>)

  /** Where a worker stands. The deferred calls run in reverse order: first the slot is given back, then the
      wait group is counted down. */
  datatype Phase =
    | Unspawned
    | Waiting    // in the select
    | Holding    // has a slot, executes the tool
    | Written    // result stored, slot still held
    | Leaving    // result stored, no slot, wait group not yet counted down
    | Finished

  datatype Batch = Batch(
    actions: seq<Action>, limit: nat, phases: seq<Phase>, results: seq<Option<ExecResult>>, writes: seq<nat>,
    slots: nat,        // filled slots of the semaphore channel
    group: nat,        // the wait group's counter
    cancelled: bool,   // the context is done
    returned: bool)    // the caller is past wg.Wait

  datatype Step =
    | Spawn                                        // the caller's next wg.Add and go
    | Acquire(i: nat)
    | GiveUp(i: nat, reason: string)               // the select takes ctx.Done
    | Execute(i: nat, output: string, error: Option<string>)
    | Release(i: nat)
    | Done(i: nat)
    | Cancel
    | Return

  function NormalLimit(limit: int, n: nat): nat {
    if limit <= 0 || limit > n then n else limit
  }

  function Repeat<T>(x: T, n: nat): seq<T> {
    seq(n, _ => x)
  }

  function Init(actions: seq<Action>, limit: int): Batch {
    var n := |actions|;
    Batch(actions, NormalLimit(limit, n), Repeat(Unspawned, n), Repeat(None, n), Repeat(0, n), 0, 0, false, false)
  }

  /** How many workers have been spawned; they are spawned in order. */
  function Spawned(phases: seq<Phase>): (k: nat)
    ensures k <= |phases|
    ensures forall i :: 0 <= i < k ==> !phases[i].Unspawned?
    ensures k < |phases| ==> phases[k].Unspawned?
  {
    if phases == [] || phases[0].Unspawned? then 0 else 1 + Spawned(phases[1..])
  }

  predicate Enabled(b: Batch, s: Step) {
    match s
    case Spawn => Spawned(b.phases) < |b.phases|
    case Acquire(i) => i < |b.phases| && b.phases[i].Waiting? && b.slots < b.limit
    case GiveUp(i, _) => i < |b.phases| && b.phases[i].Waiting? && b.cancelled
    case Execute(i, _, _) => i < |b.phases| && b.phases[i].Holding?
    case Release(i) => i < |b.phases| && b.phases[i].Written? && b.slots > 0
    case Done(i) => i < |b.phases| && b.phases[i].Leaving? && b.group > 0
    case Cancel => !b.cancelled
    case Return => !b.returned && Spawned(b.phases) == |b.phases| && b.group == 0
  }

  function Move(b: Batch, i: nat, p: Phase): Batch
    requires i < |b.phases|
  {
    b.(phases := b.phases[i := p])
  }

  function Write(b: Batch, i: nat, r: ExecResult): Batch
    requires i < |b.results| == |b.writes|
  {
    b.(results := b.results[i := Some(r)], writes := b.writes[i := b.writes[i] + 1])
  }

  predicate Shaped(b: Batch) {
    |b.actions| == |b.phases| == |b.results| == |b.writes|
  }

  function Next(b: Batch, s: Step): Batch
    requires Shaped(b) && Enabled(b, s)
  {
    match s
    case Spawn => Move(b, Spawned(b.phases), Waiting).(group := b.group + 1)
    case Acquire(i) => Move(b, i, Holding).(slots := b.slots + 1)
    case GiveUp(i, reason) => Write(Move(b, i, Leaving), i, ExecResult(b.actions[i].toolName, "", Some(reason)))
    case Execute(i, output, error) => Write(Move(b, i, Written), i, ExecResult(b.actions[i].toolName, output, error))
    case Release(i) => Move(b, i, Leaving).(slots := b.slots - 1)
    case Done(i) => Move(b, i, Finished).(group := b.group - 1)
    case Cancel => b.(cancelled := true)
    case Return => b.(returned := true)
  }

  // ----- what every interleaving keeps -----

  predicate HoldsSlot(p: Phase) { p.Holding? || p.Written? }
  predicate InGroup(p: Phase) { !p.Unspawned? && !p.Finished? }
  predicate HasResult(p: Phase) { p.Written? || p.Leaving? || p.Finished? }

  function CountSlots(ps: seq<Phase>): nat {
    if ps == [] then 0 else (if HoldsSlot(ps[0]) then 1 else 0) + CountSlots(ps[1..])
  }

  function CountGroup(ps: seq<Phase>): nat {
    if ps == [] then 0 else (if InGroup(ps[0]) then 1 else 0) + CountGroup(ps[1..])
  }

  /** Slots in use are the running workers, the wait group counts those not finished, and a result is there
      exactly once the worker has stored it, once, under its action's tool name. */
  ghost predicate Valid(b: Batch) {
    && Shaped(b) && b.limit <= |b.actions| && (b.actions != [] ==> b.limit > 0)
    && b.slots == CountSlots(b.phases) && b.slots <= b.limit
    && b.group == CountGroup(b.phases)
    && (forall i :: Spawned(b.phases) <= i < |b.phases| ==> b.phases[i].Unspawned?)
    && (forall i :: 0 <= i < |b.phases| ==> (b.results[i].Some? <==> HasResult(b.phases[i])))
    && (forall i :: 0 <= i < |b.phases| ==> b.writes[i] == if HasResult(b.phases[i]) then 1 else 0)
    && (forall i :: 0 <= i < |b.phases| && b.results[i].Some? ==> b.results[i].value.toolName == b.actions[i].toolName)
    && (b.returned ==> forall i :: 0 <= i < |b.phases| ==> b.phases[i].Finished?)
  }

  lemma {:induction false} CountsAfterMove(ps: seq<Phase>, i: nat, p: Phase)
    requires i < |ps|
    ensures CountSlots(ps[i := p]) == CountSlots(ps) - (if HoldsSlot(ps[i]) then 1 else 0) + (if HoldsSlot(p) then 1 else 0)
    ensures CountGroup(ps[i := p]) == CountGroup(ps) - (if InGroup(ps[i]) then 1 else 0) + (if InGroup(p) then 1 else 0)
  {
    if i == 0 {
      assert ps[0 := p][1..] == ps[1..];
    } else {
      assert ps[i := p][1..] == ps[1..][i - 1 := p];
      CountsAfterMove(ps[1..], i - 1, p);
    }
  }

  lemma {:induction false} CountsPositive(ps: seq<Phase>, i: nat)
    requires i < |ps|
    ensures HoldsSlot(ps[i]) ==> CountSlots(ps) > 0
    ensures InGroup(ps[i]) ==> CountGroup(ps) > 0
  {
    if i > 0 { CountsPositive(ps[1..], i - 1); }
  }

  lemma {:induction false} CountsUnspawned(n: nat)
    ensures CountSlots(Repeat(Unspawned, n)) == 0 && CountGroup(Repeat(Unspawned, n)) == 0
  {
    if n > 0 {
      assert Repeat(Unspawned, n)[1..] == Repeat(Unspawned, n - 1);
      CountsUnspawned(n - 1);
    }
  }

  lemma SpawnedIs(ps: seq<Phase>, k: nat)
    requires k <= |ps|
    requires forall i :: 0 <= i < k ==> !ps[i].Unspawned?
    requires k < |ps| ==> ps[k].Unspawned?
    ensures Spawned(ps) == k
  {
  }

  lemma InitValid(actions: seq<Action>, limit: int)
    ensures Valid(Init(actions, limit))
  {
    CountsUnspawned(|actions|);
    SpawnedIs(Init(actions, limit).phases, 0);
  }

  lemma SpawnKeepsValid(b: Batch)
    requires Valid(b) && Enabled(b, Spawn)
    ensures Valid(Next(b, Spawn))
  {
    var k := Spawned(b.phases);
    CountsAfterMove(b.phases, k, Waiting);
    SpawnedIs(Next(b, Spawn).phases, k + 1);
  }

  /** A spawned worker that moves on without storing a result. */
  lemma MoveKeepsValid(b: Batch, s: Step, i: nat, p: Phase)
    requires Valid(b) && Enabled(b, s)
    requires (s == Acquire(i) && p == Holding) || (s == Release(i) && p == Leaving) || (s == Done(i) && p == Finished)
    ensures Valid(Next(b, s))
  {
    hide CountSlots, CountGroup, Spawned;
    CountsAfterMove(b.phases, i, p);
    SpawnedIs(Next(b, s).phases, Spawned(b.phases));
  }

  /** A worker that stores its result. */
  lemma WriteKeepsValid(b: Batch, s: Step, i: nat, p: Phase)
    requires Valid(b) && Enabled(b, s)
    requires (s.GiveUp? && s.i == i && p == Leaving) || (s.Execute? && s.i == i && p == Written)
    ensures Valid(Next(b, s))
  {
    hide CountSlots, CountGroup, Spawned;
    CountsAfterMove(b.phases, i, p);
    SpawnedIs(Next(b, s).phases, Spawned(b.phases));
  }

  lemma ReturnKeepsValid(b: Batch)
    requires Valid(b) && Enabled(b, Return)
    ensures Valid(Next(b, Return))
  {
    forall i | 0 <= i < |b.phases| ensures b.phases[i].Finished? {
      CountsPositive(b.phases, i);
    }
  }

  lemma StepKeepsValid(b: Batch, s: Step)
    requires Valid(b) && Enabled(b, s)
    ensures Valid(Next(b, s))
  {
    match s {
      case Spawn => SpawnKeepsValid(b);
      case Acquire(i) => MoveKeepsValid(b, s, i, Holding);
      case GiveUp(i, _) => WriteKeepsValid(b, s, i, Leaving);
      case Execute(i, _, _) => WriteKeepsValid(b, s, i, Written);
      case Release(i) => MoveKeepsValid(b, s, i, Leaving);
      case Done(i) => MoveKeepsValid(b, s, i, Finished);
      case Cancel =>
      case Return => ReturnKeepsValid(b);
    }
  }

  /** The steps of a schedule that are all enabled in turn. */
  predicate Runs(b: Batch, schedule: seq<Step>)
    requires Shaped(b)
    decreases |schedule|
  {
    schedule == [] || (Enabled(b, schedule[0]) && Runs(Next(b, schedule[0]), schedule[1..]))
  }

  function After(b: Batch, schedule: seq<Step>): (r: Batch)
    requires Shaped(b) && Runs(b, schedule)
    ensures Shaped(r)
    decreases |schedule|
  {
    if schedule == [] then b else After(Next(b, schedule[0]), schedule[1..])
  }

  lemma {:induction false} RunKeepsValid(b: Batch, schedule: seq<Step>)
    requires Valid(b) && Runs(b, schedule)
    ensures Valid(After(b, schedule))
    ensures After(b, schedule).actions == b.actions && After(b, schedule).limit == b.limit
    decreases |schedule|
  {
    if schedule != [] {
      StepKeepsValid(b, schedule[0]);
      RunKeepsValid(Next(b, schedule[0]), schedule[1..]);
    }
  }

  /** In every interleaving, with cancellation at any point: never more workers run than the limit allows, no
      slot of the results is written twice, and once the caller returns every result is there and names its
      action's tool. */
  lemma BatchSafety(actions: seq<Action>, limit: int, schedule: seq<Step>)
    requires Runs(Init(actions, limit), schedule)
    ensures var b := After(Init(actions, limit), schedule);
            && Shaped(b) && b.actions == actions
            && b.slots == CountSlots(b.phases) <= |actions|
            && (limit > 0 ==> CountSlots(b.phases) <= limit)
            && (forall i :: 0 <= i < |actions| ==> b.writes[i] <= 1)
            && (b.returned ==> forall i :: 0 <= i < |actions| ==>
                  b.writes[i] == 1 && b.results[i].Some? && b.results[i].value.toolName == actions[i].toolName)
  {
    InitValid(actions, limit);
    RunKeepsValid(Init(actions, limit), schedule);
  }

  function FirstSpawns(n: nat): seq<Step> {
    seq(n, _ => Spawn)
  }

  function FirstAcquires(n: nat): seq<Step> {
    seq(n, i requires 0 <= i < n => Acquire(i))
  }

  lemma {:induction false} RunsConcat(b: Batch, s: seq<Step>, t: seq<Step>)
    requires Shaped(b) && Runs(b, s) && Runs(After(b, s), t)
    ensures Runs(b, s + t) && After(b, s + t) == After(After(b, s), t)
    decreases |s|
  {
    if s == [] {
      assert s + t == t;
    } else {
      assert (s + t)[1..] == s[1..] + t;
      RunsConcat(Next(b, s[0]), s[1..], t);
    }
  }

  lemma RunsOne(b: Batch, s: Step)
    requires Shaped(b) && Enabled(b, s)
    ensures Runs(b, [s]) && After(b, [s]) == Next(b, s)
  {
    assert [s][1..] == [];
  }

  /** After k spawns, k workers wait. */
  lemma {:induction false} AfterSpawns(actions: seq<Action>, limit: int, k: nat)
    requires k <= |actions|
    ensures var (b, n) := (Init(actions, limit), |actions|);
            && Runs(b, FirstSpawns(k))
            && var c := After(b, FirstSpawns(k));
               && c.phases == Repeat(Waiting, k) + Repeat(Unspawned, n - k) && c.limit == b.limit && c.slots == 0
  {
    var (b, n) := (Init(actions, limit), |actions|);
    if k == 0 {
      assert FirstSpawns(0) == [] && Repeat(Waiting, 0) + Repeat(Unspawned, n) == Repeat(Unspawned, n);
    } else {
      hide Runs, After, NormalLimit, Spawned, Repeat;
      AfterSpawns(actions, limit, k - 1);
      var c := After(b, FirstSpawns(k - 1));
      OneMore(Waiting, Unspawned, k - 1, n);
      SpawnedIs(c.phases, k - 1);
      RunsOne(c, Spawn);
      RunsConcat(b, FirstSpawns(k - 1), [Spawn]);
      assert FirstSpawns(k - 1) + [Spawn] == FirstSpawns(k);
    }
  }

  /** The first k phases are p, the others q; then one more is p. */
  lemma OneMore(p: Phase, q: Phase, k: nat, n: nat)
    requires k < n
    ensures var ps := Repeat(p, k) + Repeat(q, n - k);
            && |ps| == n && (forall i :: 0 <= i < k ==> ps[i] == p) && (forall i :: k <= i < n ==> ps[i] == q)
            && ps[k := p] == Repeat(p, k + 1) + Repeat(q, n - k - 1)
  {
  }

  /** Then k of them take slots, as far as the limit goes. */
  lemma {:induction false} AfterAcquires(b: Batch, k: nat)
    requires Shaped(b) && b.phases == Repeat(Waiting, |b.actions|) && b.slots == 0 && k <= b.limit && k <= |b.actions|
    ensures Runs(b, FirstAcquires(k))
    ensures var c := After(b, FirstAcquires(k));
            c.phases == Repeat(Holding, k) + Repeat(Waiting, |b.actions| - k) && c.limit == b.limit && c.slots == k
  {
    var n := |b.actions|;
    if k == 0 {
      assert FirstAcquires(0) == [] && Repeat(Holding, 0) + Repeat(Waiting, n) == Repeat(Waiting, n);
    } else {
      AfterAcquires(b, k - 1);
      var c := After(b, FirstAcquires(k - 1));
      RunsOne(c, Acquire(k - 1));
      RunsConcat(b, FirstAcquires(k - 1), [Acquire(k - 1)]);
      assert FirstAcquires(k - 1) + [Acquire(k - 1)] == FirstAcquires(k);
      assert c.phases[k - 1 := Holding] == Repeat(Holding, k) + Repeat(Waiting, n - k);
    }
  }

  lemma {:induction false} CountHolding(k: nat, m: nat)
    ensures CountSlots(Repeat(Holding, k) + Repeat(Waiting, m)) == k
  {
    var ps := Repeat(Holding, k) + Repeat(Waiting, m);
    if k > 0 {
      assert ps[1..] == Repeat(Holding, k - 1) + Repeat(Waiting, m);
      CountHolding(k - 1, m);
    } else if m > 0 {
      assert ps[1..] == Repeat(Holding, 0) + Repeat(Waiting, m - 1);
      CountHolding(0, m - 1);
    }
  }

  /** The limit is not just kept but reached: some interleaving has as many workers running as the limit allows, or
      all of them if there is no limit or fewer actions. */
  lemma {:induction false} LimitIsReached(actions: seq<Action>, limit: int) returns (schedule: seq<Step>)
    ensures Runs(Init(actions, limit), schedule)
    ensures CountSlots(After(Init(actions, limit), schedule).phases)
         == if 0 < limit < |actions| then limit else |actions|
  {
    hide CountSlots;
    var (b, n) := (Init(actions, limit), |actions|);
    var m := if 0 < limit < n then limit else n;
    AfterSpawns(actions, limit, n);
    var c := After(b, FirstSpawns(n));
    assert c.phases == Repeat(Waiting, n);
    AfterKeepsActions(b, FirstSpawns(n));
    AfterAcquires(c, m);
    RunsConcat(b, FirstSpawns(n), FirstAcquires(m));
    CountHolding(m, n - m);
    schedule := FirstSpawns(n) + FirstAcquires(m);
  }

  lemma {:induction false} AfterKeepsActions(b: Batch, schedule: seq<Step>)
    requires Shaped(b) && Runs(b, schedule)
    ensures After(b, schedule).actions == b.actions
    decreases |schedule|
  {
    if schedule != [] { AfterKeepsActions(Next(b, schedule[0]), schedule[1..]); }
  }

  /** The k-th step stored this result of worker i: what the tool returned, or that the context was done. */
  predicate Stores(b: Batch, schedule: seq<Step>, k: nat, i: nat, r: ExecResult)
    requires k < |schedule|
  {
    schedule[k] == Execute(i, r.output, r.error)
    || (r.output == "" && r.error.Some? && schedule[k] == GiveUp(i, r.error.value)
        && (b.cancelled || Cancel in schedule[..k]))
  }

  lemma Shifted(b: Batch, schedule: seq<Step>, k: nat, i: nat, r: ExecResult)
    requires Shaped(b) && Runs(b, schedule) && schedule != [] && k < |schedule| - 1
    requires Stores(Next(b, schedule[0]), schedule[1..], k, i, r)
    ensures Stores(b, schedule, k + 1, i, r)
  {
  }

  /** A result is what it was, or a step of the schedule has stored it. */
  lemma {:induction false} ResultsHaveOrigin(b: Batch, schedule: seq<Step>, i: nat)
    requires Shaped(b) && Runs(b, schedule) && i < |b.results|
    ensures |After(b, schedule).results| == |b.results|
    ensures var r := After(b, schedule).results[i];
            r == b.results[i] || (r.Some? && exists k :: 0 <= k < |schedule| && Stores(b, schedule, k, i, r.value))
    decreases |schedule|
  {
    if schedule != [] {
      var s, rest := schedule[0], schedule[1..];
      var b1 := Next(b, s);
      ResultsHaveOrigin(b1, rest, i);
      var last := After(b, schedule).results[i];
      if last == b1.results[i] {
        if (s.Execute? || s.GiveUp?) && s.i == i { assert Stores(b, schedule, 0, i, last.value); }
      } else {
        var k :| 0 <= k < |rest| && last.Some? && Stores(b1, rest, k, i, last.value);
        Shifted(b, schedule, k, i, last.value);
      }
    }
  }

  /** What the caller gets back for each action is its worker's own execution, or the context's error if the
      context was done before the worker got a slot. */
  lemma BatchResults(actions: seq<Action>, limit: int, schedule: seq<Step>, i: nat)
    requires Runs(Init(actions, limit), schedule) && i < |actions| && After(Init(actions, limit), schedule).returned
    ensures var b := After(Init(actions, limit), schedule);
            |b.results| == |actions| && b.results[i].Some?
            && exists k :: 0 <= k < |schedule| && Stores(Init(actions, limit), schedule, k, i, b.results[i].value)
  {
    BatchSafety(actions, limit, schedule);
    ResultsHaveOrigin(Init(actions, limit), schedule, i);
  }

  // ----- progress -----

  /** Until the caller returns, some step other than cancelling the context can be taken. */
  lemma NeverStuck(b: Batch) returns (s: Step)
    requires Valid(b) && !b.returned
    ensures Enabled(b, s) && !s.Cancel?
  {
    var k := Spawned(b.phases);
    if k < |b.phases| {
      s := Spawn;
    } else if i :| 0 <= i < |b.phases| && b.phases[i].Holding? {
      s := Execute(i, "", None);
    } else if i :| 0 <= i < |b.phases| && b.phases[i].Written? {
      CountsPositive(b.phases, i);
      s := Release(i);
    } else if i :| 0 <= i < |b.phases| && b.phases[i].Leaving? {
      CountsPositive(b.phases, i);
      s := Done(i);
    } else if i :| 0 <= i < |b.phases| && b.phases[i].Waiting? {
      NoSlots(b.phases);
      s := Acquire(i);
    } else {
      NoGroup(b.phases);
      s := Return;
    }
  }

  lemma {:induction false} NoSlots(ps: seq<Phase>)
    requires forall i :: 0 <= i < |ps| ==> !HoldsSlot(ps[i])
    ensures CountSlots(ps) == 0
  {
    if ps != [] { NoSlots(ps[1..]); }
  }

  lemma {:induction false} NoGroup(ps: seq<Phase>)
    requires forall i :: 0 <= i < |ps| ==> !InGroup(ps[i])
    ensures CountGroup(ps) == 0
  {
    if ps != [] { NoGroup(ps[1..]); }
  }

  function StepsLeftOf(p: Phase): nat {
    match p
    case Unspawned => 5
    case Waiting => 4
    case Holding => 3
    case Written => 2
    case Leaving => 1
    case Finished => 0
  }

  function WorkersLeft(ps: seq<Phase>): nat {
    if ps == [] then 0 else StepsLeftOf(ps[0]) + WorkersLeft(ps[1..])
  }

  function StepsLeft(b: Batch): nat {
    WorkersLeft(b.phases) + (if b.cancelled then 0 else 1) + (if b.returned then 0 else 1)
  }

  lemma {:induction false} WorkersLeftAfterMove(ps: seq<Phase>, i: nat, p: Phase)
    requires i < |ps|
    ensures WorkersLeft(ps[i := p]) == WorkersLeft(ps) - StepsLeftOf(ps[i]) + StepsLeftOf(p)
  {
    if i == 0 {
      assert ps[0 := p][1..] == ps[1..];
    } else {
      assert ps[i := p][1..] == ps[1..][i - 1 := p];
      WorkersLeftAfterMove(ps[1..], i - 1, p);
    }
  }

  lemma StepUsesUp(b: Batch, s: Step)
    requires Shaped(b) && Enabled(b, s)
    ensures StepsLeft(Next(b, s)) < StepsLeft(b)
  {
    match s {
      case Spawn => WorkersLeftAfterMove(b.phases, Spawned(b.phases), Waiting);
      case Acquire(i) => WorkersLeftAfterMove(b.phases, i, Holding);
      case GiveUp(i, _) => WorkersLeftAfterMove(b.phases, i, Leaving);
      case Execute(i, _, _) => WorkersLeftAfterMove(b.phases, i, Written);
      case Release(i) => WorkersLeftAfterMove(b.phases, i, Leaving);
      case Done(i) => WorkersLeftAfterMove(b.phases, i, Finished);
      case Cancel =>
      case Return =>
    }
  }

  lemma {:induction false} RunUsesUp(b: Batch, schedule: seq<Step>)
    requires Shaped(b) && Runs(b, schedule)
    ensures |schedule| + StepsLeft(After(b, schedule)) <= StepsLeft(b)
    decreases |schedule|
  {
    if schedule != [] {
      StepUsesUp(b, schedule[0]);
      RunUsesUp(Next(b, schedule[0]), schedule[1..]);
    }
  }

  lemma {:induction false} WorkersLeftAtStart(n: nat)
    ensures WorkersLeft(Repeat(Unspawned, n)) == 5 * n
  {
    if n > 0 {
      assert Repeat(Unspawned, n)[1..] == Repeat(Unspawned, n - 1);
      WorkersLeftAtStart(n - 1);
    }
  }

  /** Every schedule is finite, and one that cannot be continued has returned: the batch always completes. */
  lemma BatchCompletes(actions: seq<Action>, limit: int, schedule: seq<Step>)
    requires Runs(Init(actions, limit), schedule)
    ensures |schedule| <= 5 * |actions| + 2
    ensures (forall s: Step :: Enabled(After(Init(actions, limit), schedule), s) ==> s.Cancel?)
            ==> After(Init(actions, limit), schedule).returned
  {
    var b := Init(actions, limit);
    InitValid(actions, limit);
    RunKeepsValid(b, schedule);
    RunUsesUp(b, schedule);
    WorkersLeftAtStart(|actions|);
    if !After(b, schedule).returned {
      var s := NeverStuck(After(b, schedule));
    }
  }
}
