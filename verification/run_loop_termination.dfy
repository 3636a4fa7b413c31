/** Every run ends: the iteration cap bounds the planning rounds, the loop detector bounds the retries within
    one, and only rejected plan reviews come on top. */
module RunLoopTermination {
  import opened Wrappers
  import opened Chat
  import opened LoopDetection
  import opened Planner
  import opened RunLoop
  import opened RunLoopControl
  import opened RunLoopSafety

  /** `n` rounds of `size` units each. */
  function Rounds(n: nat, size: nat): nat {
    if n == 0 then 0 else size + Rounds(n - 1, size)
  }

  lemma {:induction false} RoundsIsProduct(n: nat, size: nat)
    ensures Rounds(n, size) == n * size
  {
    if n > 0 {
      RoundsIsProduct(n - 1, size);
      assert n * size == (n - 1) * size + size;
    }
  }

  function RoundsLeft(cfg: Config, c: Control): nat {
    Minus(cfg.maxIterations, c.iteration)
  }

  function Minus(n: nat, used: nat): nat {
    if used >= n then 0 else n - used
  }

  /** A planning round uses up one of the rounds left. */
  lemma RoundUsed(cfg: Config, c: Control, d: Control, size: nat)
    requires c.iteration < cfg.maxIterations && d.iteration == c.iteration + 1
    ensures Rounds(RoundsLeft(cfg, c), size) == size + Rounds(RoundsLeft(cfg, d), size)
  {
  }

  /** How many identical calls already precede the given one. */
  function Ahead(calls: seq<Signature>, a: Action): nat {
    if calls != [] && calls[|calls| - 1] == SignatureOf(a) then Streak(calls) else 0
  }

  /** Executions still possible in the current planning round. */
  function CallsLeft(cfg: Config, c: Control): nat {
    match c.state
    case StateInterrupt => if c.escalate then 0 else cfg.threshold
    case StateExecuting => if c.pending.Some? then Minus(cfg.threshold, Ahead(c.calls, c.pending.value)) else 0
    case StateEvaluating => Minus(cfg.threshold, Streak(c.calls))
    case _ => 0
  }

  /** After an execution, the last recorded call is the one a retry would repeat. */
  ghost predicate RetryRepeats(cfg: Config, c: Control) {
    c.state.StateEvaluating? ==>
      && c.lastExec.Some? && c.calls != [] && Streak(c.calls) <= cfg.threshold
      && c.calls[|c.calls| - 1] == SignatureOf(c.lastExec.value.action)
  }

  /** An execution that does not end the run uses up one of the calls left. */
  lemma ExecutionCounts(cfg: Config, calls: seq<Signature>, a: Action)
    requires cfg.threshold >= 1
    requires !Verdict(cfg.threshold, calls + [SignatureOf(a)]).LoopTerminate?
    ensures Streak(calls + [SignatureOf(a)]) == Ahead(calls, a) + 1 <= cfg.threshold
  {
    assert (calls + [SignatureOf(a)])[..|calls|] == calls;
    ContinuingBoundsStreak(cfg.threshold, calls + [SignatureOf(a)]);
  }

  /** Turns that the loop can still take without a rejected plan review. */
  function Rank(cfg: Config, c: Control): nat {
    Rounds(RoundsLeft(cfg, c), 2 * cfg.threshold + 5)
    + match c.state
      case StatePlanning => 1
      case StatePlanReview => 2
      case StateCompleting => 2
      case StatePlanGen => 3
      case StateInit => 4
      case StateExecuting => 4 + 2 * CallsLeft(cfg, c)
      case StateEvaluating => 5 + 2 * CallsLeft(cfg, c)
      case StateInterrupt => if c.escalate then 2 else 5 + 2 * cfg.threshold
      case _ => 0
  }

  function Rejections(log: seq<Event>): nat {
    if log == [] then 0 else (if log[0].ReviewRejected? then 1 else 0) + Rejections(log[1..])
  }

  function Executions(log: seq<Event>): nat {
    if log == [] then 0 else (if log[0].Executed? then 1 else 0) + Executions(log[1..])
  }

  function PlanRounds(log: seq<Event>): nat {
    if log == [] then 0 else (if log[0].PlanRound? then 1 else 0) + PlanRounds(log[1..])
  }

  lemma CountsOne(e: Event)
    ensures Rejections([e]) == (if e.ReviewRejected? then 1 else 0)
    ensures Executions([e]) == (if e.Executed? then 1 else 0)
    ensures PlanRounds([e]) == (if e.PlanRound? then 1 else 0)
  {
    assert [e][1..] == [];
  }

  lemma {:induction false} CountsConcat(a: seq<Event>, b: seq<Event>)
    ensures Rejections(a + b) == Rejections(a) + Rejections(b)
    ensures Executions(a + b) == Executions(a) + Executions(b)
    ensures PlanRounds(a + b) == PlanRounds(a) + PlanRounds(b)
  {
    if a == [] {
      assert a + b == b;
    } else {
      assert (a + b)[1..] == a[1..] + b;
      CountsConcat(a[1..], b);
    }
  }

  ghost predicate Good(cfg: Config, c: Control) {
    Sound(cfg, c) && RetryRepeats(cfg, c)
  }

  lemma MoveKeepsGood(cfg: Config, c: Control, d: Control, events: seq<Event>)
    requires cfg.threshold >= 1 && Good(cfg, c) && Moves(cfg, c, d, events)
    ensures Good(cfg, d)
  {
    hide Verdict;
    MoveKeepsSound(cfg, c, d, events);
    if c.state.StateExecuting? { ExecutionCounts(cfg, c.calls, c.pending.value); }
  }

  /** A turn that goes on lowers the rank, unless it is a rejected plan review, which keeps it. */
  lemma MoveDescends(cfg: Config, c: Control, d: Control, events: seq<Event>)
    requires cfg.threshold >= 1 && Good(cfg, c) && Moves(cfg, c, d, events)
    ensures Rank(cfg, d) + 1 <= Rank(cfg, c) + Rejections(events)
  {
    hide Verdict, Streak, Rounds, IssuedIn;
    if c.state.StateExecuting? {
      ExecutionCounts(cfg, c.calls, c.pending.value);
    } else if c.state.StatePlanning? {
      RoundUsed(cfg, c, d, 2 * cfg.threshold + 5);
    }
    if events != [] {
      assert events == [events[0]];
      CountsOne(events[0]);
    }
  }

  /** A run that is still going after n turns has n bounded by the rank and the rejected plan reviews. */
  lemma {:induction false} RunDescends(cfg: Config, l: Loop, script: seq<Oracle>)
    requires cfg.threshold >= 1 && Good(cfg, ControlOf(l))
    ensures var t := Run(cfg, l, script);
            t.result.None? ==> |script| + Rank(cfg, ControlOf(t.loop)) <= Rank(cfg, ControlOf(l)) + Rejections(t.events)
    decreases |script|
  {
    hide Step, Good, Rank, Moves, Stops;
    if script != [] {
      StepFollows(cfg, l, script[0]);
      var t := Step(cfg, l, script[0]);
      if t.result.None? {
        MoveKeepsGood(cfg, ControlOf(l), ControlOf(t.loop), t.events);
        MoveDescends(cfg, ControlOf(l), ControlOf(t.loop), t.events);
        RunDescends(cfg, t.loop, script[1..]);
        CountsConcat(t.events, Run(cfg, t.loop, script[1..]).events);
      }
    }
  }

  /** Turns a run can take on top of its rejected plan reviews. */
  function Bound(cfg: Config): nat {
    cfg.maxIterations * (2 * cfg.threshold + 5) + 4
  }

  /** Every run ends: a longer script than the bound and the rejected reviews allow finishes it. */
  lemma RunTerminates(cfg: Config, memory: seq<Message>, calls: seq<Signature>, plan: Option<ActionPlan>, script: seq<Oracle>)
    requires cfg.threshold >= 1
    ensures var t := RunFromStart(cfg, Start(cfg, memory, calls, plan), script);
            t.result.None? ==> |script| <= Bound(cfg) + Rejections(t.events)
  {
    hide Run;
    RunDescends(cfg, Start(cfg, memory, calls, plan), script);
    RoundsIsProduct(cfg.maxIterations, 2 * cfg.threshold + 5);
  }

  /** Executions that the rest of the run can still make. */
  function Budget(cfg: Config, c: Control): nat {
    Rounds(RoundsLeft(cfg, c), cfg.threshold) + CallsLeft(cfg, c)
  }

  lemma MoveSpends(cfg: Config, c: Control, d: Control, events: seq<Event>)
    requires cfg.threshold >= 1 && Good(cfg, c) && Moves(cfg, c, d, events)
    ensures Executions(events) + Budget(cfg, d) <= Budget(cfg, c)
    ensures PlanRounds(events) + RoundsLeft(cfg, d) <= RoundsLeft(cfg, c)
  {
    hide Verdict, Streak, Rounds, IssuedIn;
    if c.state.StateExecuting? {
      ExecutionCounts(cfg, c.calls, c.pending.value);
    } else if c.state.StatePlanning? {
      RoundUsed(cfg, c, d, cfg.threshold);
    }
    if events != [] {
      assert events == [events[0]];
      CountsOne(events[0]);
    }
  }

  lemma StopSpends(cfg: Config, c: Control, outcome: Outcome, events: seq<Event>)
    requires cfg.threshold >= 1 && Stops(cfg, c, outcome, events)
    ensures Executions(events) <= Budget(cfg, c)
    ensures PlanRounds(events) <= RoundsLeft(cfg, c)
  {
    hide Verdict;
    if events != [] && c.state.StateExecuting? { ExecutionCounts(cfg, c.calls, c.pending.value); }
  }

  lemma {:induction false} RunSpends(cfg: Config, l: Loop, script: seq<Oracle>)
    requires cfg.threshold >= 1 && Good(cfg, ControlOf(l))
    ensures Executions(Run(cfg, l, script).events) <= Budget(cfg, ControlOf(l))
    ensures PlanRounds(Run(cfg, l, script).events) <= RoundsLeft(cfg, ControlOf(l))
    decreases |script|
  {
    hide Step, Good, Budget, RoundsLeft, Moves, Stops;
    if script != [] {
      StepFollows(cfg, l, script[0]);
      var t := Step(cfg, l, script[0]);
      if t.result.None? {
        MoveKeepsGood(cfg, ControlOf(l), ControlOf(t.loop), t.events);
        MoveSpends(cfg, ControlOf(l), ControlOf(t.loop), t.events);
        RunSpends(cfg, t.loop, script[1..]);
        CountsConcat(t.events, Run(cfg, t.loop, script[1..]).events);
      } else {
        StopSpends(cfg, ControlOf(l), t.result.value, t.events);
      }
    }
  }

  /** A run plans at most maxIterations times and executes at most threshold tools for each of them, whatever
      the evaluator retries. */
  lemma RunIsBounded(cfg: Config, memory: seq<Message>, calls: seq<Signature>, plan: Option<ActionPlan>, script: seq<Oracle>)
    requires cfg.threshold >= 1
    ensures var log := RunFromStart(cfg, Start(cfg, memory, calls, plan), script).events;
            PlanRounds(log) <= cfg.maxIterations && Executions(log) <= cfg.maxIterations * cfg.threshold
  {
    hide Run;
    RunSpends(cfg, Start(cfg, memory, calls, plan), script);
    RoundsIsProduct(cfg.maxIterations, cfg.threshold);
  }
}
