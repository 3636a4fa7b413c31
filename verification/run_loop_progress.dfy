/** How a run gets through its plan: every execution is reported on its step, the next round hands out the next
    one, and so the executed actions follow the plan in order. */
module RunLoopProgress {
  import opened Wrappers
  import opened Chat
  import opened BufferedMemory
  import opened LoopDetection
  import opened Planner
  import opened RunLoop
  import opened RunLoopControl
  import opened RunLoopSafety
  import opened RunLoopTermination
  import opened RunLoopPlan
  import Text

  /** The steps after an execution has been reported on step r. */
  function ReportedOn(steps: seq<PlanStep>, r: nat, res: ExecResult): seq<PlanStep>
    requires r < |steps|
  {
    steps[r := if res.error.Some? then steps[r].(status := StepFailed, result := res.error.value)
               else steps[r].(status := StepDone, result := res.output)]
  }

  predicate NoneRunning(steps: seq<PlanStep>) {
    forall i :: 0 <= i < |steps| ==> !steps[i].status.StepRunning?
  }

  /** With distinct IDs an execution that returns is reported on the step under way and on no other, and then no
      step is running. */
  lemma ExecutionIsReported(cfg: Config, l: Loop, o: Oracle)
    requires cfg.planAndSolve && cfg.hasSolver && l.plan.Some? && StagedPlan(l.plan)
    requires l.state.StateExecuting? && Step(cfg, l, o).result.None?
    ensures o.executed.Given?
    ensures var (u, steps) := (Step(cfg, l, o).loop, l.plan.value.steps);
            var r := RunningIndex(steps);
            && u.plan.Some? && StagedPlan(u.plan)
            && u.plan.value.steps == (if r < |steps| then ReportedOn(steps, r, o.executed.value) else steps)
            && NoneRunning(u.plan.value.steps)
  {
    hide ResultMemory, Verdict, InjectLoopWarning, Reported, Staged, DistinctIds;
    var steps := l.plan.value.steps;
    var res := o.executed.value;
    if res.error.Some? { ReportKeepsStaged(l.plan, StepFailed, res.error.value); } else { ReportKeepsStaged(l.plan, StepDone, res.output); }
    NoneRunningAfter(steps, res);
  }

  lemma NoneRunningAfter(steps: seq<PlanStep>, res: ExecResult)
    requires Staged(steps)
    ensures var r := RunningIndex(steps); NoneRunning(if r < |steps| then ReportedOn(steps, r, res) else steps)
  {
  }

  /** A planning round on a plan without a running step hands out the first unfinished step if it is pending, and
      else gives the final answer. */
  lemma RoundHandsOut(cfg: Config, l: Loop, o: Oracle)
    requires cfg.planAndSolve && cfg.hasSolver && l.state.StatePlanning? && l.planGenFirst.None? && l.plan.Some?
    requires NoneRunning(l.plan.value.steps) && CanPlan(cfg, l, o)
    ensures var (t, steps) := (Step(cfg, l, o), l.plan.value.steps);
            var n := FirstUnfinished(steps);
            if n < |steps| && steps[n].status.StepPending? then
              && t.loop.plan == Some(ActionPlan(steps[n := steps[n].(status := StepRunning)], n))
              && t.loop.pending == Some(steps[n].action)
              && t.result == (if steps[n].action.typ.UnknownAction? then Some(Failed(UnknownActionType)) else None)
            else
              && t.result.None? && t.loop.state.StateCompleting? && t.loop.plan == l.plan
              && t.loop.completeAnswer == Text.TrimSpace(SummarizeResults(steps))
  {
    hide CompressedMemory, Text.TrimSpace, SummarizeResults;
  }

  lemma StagedAround(steps: seq<PlanStep>, r: nat, res: ExecResult)
    requires Staged(steps) && r < |steps| && steps[r].status.StepRunning?
    ensures var after := ReportedOn(steps, r, res);
            && |after| == |steps| && after[r].status == (if res.error.Some? then StepFailed else StepDone)
            && FirstUnfinished(after) == (if res.error.Some? then r else r + 1)
            && (r + 1 < |steps| ==> after[r + 1] == steps[r + 1] && steps[r + 1].status.StepPending?)
  {
    FirstUnfinishedIs(ReportedOn(steps, r, res), if res.error.Some? then r else r + 1);
  }

  lemma FirstUnfinishedIs(steps: seq<PlanStep>, n: nat)
    requires n <= |steps| && (forall k :: 0 <= k < n ==> Finished(steps[k])) && (n < |steps| ==> !Finished(steps[n]))
    ensures FirstUnfinished(steps) == n
  {
    hide FirstUnfinished;
  }

  /** Over all runs with distinct step IDs: an execution that returns while a step is under way makes exactly that
      step done with its output, or failed with its error. The next planning round that nothing else stops hands
      out the next step if it is done and there is one, and else gives the final answer. (The round starts in the
      position after the execution, or, with an evaluator, in the same position once it lets the run continue.) */
  lemma {:induction false} RunProceeds(cfg: Config, memory: seq<Message>, calls: seq<Signature>, plan: Option<ActionPlan>,
                                       script: seq<Oracle>, o: Oracle, o': Oracle)
    requires cfg.planAndSolve && StagedPlan(plan) && GeneratesDistinct(script)
    requires var t := RunFromStart(cfg, Start(cfg, memory, calls, plan), script);
             && t.result.None? && t.loop.state.StateExecuting? && Step(cfg, t.loop, o).result.None?
             && t.loop.plan.Some? && RunningIndex(t.loop.plan.value.steps) < |t.loop.plan.value.steps|
    ensures o.executed.Given?
    ensures var l := RunFromStart(cfg, Start(cfg, memory, calls, plan), script).loop;
            var (steps, res, u) := (l.plan.value.steps, o.executed.value, Step(cfg, l, o).loop);
            var (r, next) := (RunningIndex(steps), u.(state := StatePlanning));
            && u.plan.Some? && u.plan.value.steps == ReportedOn(steps, r, res) && NoneRunning(u.plan.value.steps)
            && (CanPlan(cfg, next, o') ==>
                  var t := Step(cfg, next, o');
                  if res.error.None? && r + 1 < |steps| then
                    && t.loop.plan.Some?
                    && t.loop.plan.value.steps == u.plan.value.steps[r + 1 := steps[r + 1].(status := StepRunning)]
                    && t.loop.pending == Some(steps[r + 1].action)
                    && t.result == (if steps[r + 1].action.typ.UnknownAction? then Some(Failed(UnknownActionType)) else None)
                  else
                    && t.result.None? && t.loop.state.StateCompleting? && t.loop.plan == u.plan
                    && t.loop.completeAnswer == Text.TrimSpace(SummarizeResults(u.plan.value.steps)))
  {
    hide RunFromStart, Step, SummarizeResults, FirstAction, ReportedOn, Text.TrimSpace, CanPlan;
    var l := RunFromStart(cfg, Start(cfg, memory, calls, plan), script).loop;
    ReachedTogether(cfg, memory, calls, plan, script);
    StagedFromStart(cfg, memory, calls, plan, script);
    SolverFromStart(cfg, memory, calls, plan, script);
    ExecutionIsReported(cfg, l, o);
    ExecutingKeepsRest(cfg, l, o);
    var u := Step(cfg, l, o).loop;
    var next := u.(state := StatePlanning);
    StagedAround(l.plan.value.steps, RunningIndex(l.plan.value.steps), o.executed.value);
    if CanPlan(cfg, next, o') { RoundHandsOut(cfg, next, o'); }
  }

  lemma StagedFromStart(cfg: Config, memory: seq<Message>, calls: seq<Signature>, plan: Option<ActionPlan>, script: seq<Oracle>)
    requires StagedPlan(plan) && GeneratesDistinct(script)
    ensures StagedPlan(RunFromStart(cfg, Start(cfg, memory, calls, plan), script).loop.plan)
  {
    hide Run, StagedPlan;
    PlanStaysStaged(cfg, Start(cfg, memory, calls, plan), script);
  }

  lemma SolverFromStart(cfg: Config, memory: seq<Message>, calls: seq<Signature>, plan: Option<ActionPlan>, script: seq<Oracle>)
    requires cfg.planAndSolve
    requires var t := RunFromStart(cfg, Start(cfg, memory, calls, plan), script); t.result.None? && t.loop.state.StateExecuting?
    ensures cfg.hasSolver
  {
    RunStaysSound(cfg, memory, calls, plan, script);
  }

  lemma ExecutingKeepsRest(cfg: Config, l: Loop, o: Oracle)
    requires l.state.StateExecuting?
    ensures Step(cfg, l, o).loop.planGenFirst == l.planGenFirst && Step(cfg, l, o).loop.iteration == l.iteration
  {
    hide ResultMemory, Verdict, InjectLoopWarning, Reported;
  }

  // ----- the executed actions in order -----

  function ActionsOf(steps: seq<PlanStep>): (actions: seq<Action>)
    ensures |actions| == |steps| && forall i :: 0 <= i < |steps| ==> actions[i] == steps[i].action
  {
    seq(|steps|, i requires 0 <= i < |steps| => steps[i].action)
  }

  /** Same tool and kind; a human may have given another input. */
  predicate SameCall(a: Action, b: Action) {
    a.typ == b.typ && a.toolName == b.toolName && a.answer == b.answer
  }

  /** All is done, or a step has failed: planning can only answer. */
  predicate Over(steps: seq<PlanStep>) {
    NoneRunning(steps) && (FirstUnfinished(steps) == |steps| || steps[FirstUnfinished(steps)].status.StepFailed?)
  }

  /** After `rounds` planning rounds on a plan with these actions, of which `base` had been handed out before: one
      more has been handed out in each round, and the last of them is the one that is acted on. */
  ghost predicate InOrder(actions: seq<Action>, base: nat, l: Loop, rounds: nat) {
    && l.plan.Some? && StagedPlan(l.plan) && ActionsOf(l.plan.value.steps) == actions
    && var (steps, n) := (l.plan.value.steps, base + rounds);
       match l.state
       case StatePlanReview | StatePlanning =>
         if l.planGenFirst.Some? then n == 0 && Started(steps) == 1 && l.planGenFirst.value.action == actions[0]
         else Started(steps) == n || Over(steps)
       case StatePlanGen | StateCompleting => l.planGenFirst.None? && (Started(steps) == n || Over(steps))
       case StateInterrupt =>
         && l.planGenFirst.None?
         && if l.evalEscalate then Started(steps) == n || Over(steps)
            else Started(steps) == n > base && l.pending == Some(actions[n - 1])
       case StateExecuting =>
         l.planGenFirst.None? && Started(steps) == n > base && l.pending.Some? && SameCall(l.pending.value, actions[n - 1])
       case StateEvaluating =>
         l.planGenFirst.None? && Started(steps) == n > base && l.lastExec.Some? && SameCall(l.lastExec.value.action, actions[n - 1])
       case _ => false
  }

  /** Each executed call is that of the step handed out in its planning round. */
  ghost predicate FollowsInOrder(actions: seq<Action>, base: nat, log: seq<Event>) {
    forall j :: 0 <= j < |log| && log[j].Executed? ==> IsStepOf(actions, base, PlanRounds(log[..j]), log[j].action)
  }

  predicate IsStepOf(actions: seq<Action>, base: nat, rounds: nat, a: Action) {
    rounds >= 1 && base + rounds <= |actions| && SameCall(a, actions[base + rounds - 1])
  }

  /** No new plan is asked for in this turn. */
  predicate NoReplan(o: Oracle) {
    !(o.evaluated.Given? && o.evaluated.value.decision.DecisionReplan?)
  }

  lemma GenerationKeepsOrder(cfg: Config, actions: seq<Action>, base: nat, l: Loop, o: Oracle, rounds: nat)
    requires l.state.StatePlanGen? || l.state.StatePlanReview?
    requires InOrder(actions, base, l, rounds)
    ensures var t := Step(cfg, l, o);
            t.result.None? && t.events != [ReviewRejected] ==> t.events == [] && InOrder(actions, base, t.loop, rounds)
  {
    hide AfterPlan, FreshPlan, Added, Started, Over, StagedPlan;
  }

  lemma RoundKeepsOrder(cfg: Config, actions: seq<Action>, base: nat, l: Loop, o: Oracle, rounds: nat)
    requires cfg.planAndSolve && l.state.StatePlanning? && InOrder(actions, base, l, rounds)
    ensures var t := Step(cfg, l, o);
            t.result.None? ==> t.events == [PlanRound] && InOrder(actions, base, t.loop, rounds + 1)
  {
    hide AfterPlan, CompressedMemory, Text.TrimSpace, StagedPlan, Started, Over;
    AskKeepsOrder(l.plan.value, o.generated, actions);
    var (x, p) := AfterPlan(l.plan, o.generated);
    var t := Step(cfg, l, o);
    if t.result.None? && l.planGenFirst.None? {
      assert x.Planned? && t.loop.plan == p && t.loop.pending == Some(x.result.action);
    }
    EscalationIsOver(cfg, l, o);
  }

  lemma EscalationIsOver(cfg: Config, l: Loop, o: Oracle)
    requires l.state.StatePlanning?
    ensures Step(cfg, l, o).loop.evalEscalate == l.evalEscalate
  {
    hide AfterPlan, CompressedMemory, Text.TrimSpace;
  }

  lemma AskKeepsOrder(plan: ActionPlan, generated: Option<seq<RawStep>>, actions: seq<Action>)
    requires StagedPlan(Some(plan)) && ActionsOf(plan.steps) == actions
    ensures var (x, p) := AfterPlan(Some(plan), generated);
            && p.Some? && StagedPlan(p) && ActionsOf(p.value.steps) == actions
            && (x.Planned? ==>
                  || (p == Some(plan) && Over(plan.steps) && x.result.action.typ.FinalAnswerAction?)
                  || (!Over(plan.steps) && Started(plan.steps) < |actions| && x.result.action == actions[Started(plan.steps)]
                      && Started(p.value.steps) == Started(plan.steps) + 1))
  {
    hide Staged, DistinctIds, Started, FirstUnfinished, RunningIndex, SummarizeResults;
    ApplyStarts(plan, AskPlan);
    PlanAnswersWhen(plan);
  }

  lemma GateKeepsOrder(cfg: Config, actions: seq<Action>, base: nat, l: Loop, o: Oracle, rounds: nat)
    requires Sound(cfg, ControlOf(l)) && l.state.StateInterrupt? && InOrder(actions, base, l, rounds)
    ensures var t := Step(cfg, l, o);
            t.result.None? ==>
              && InOrder(actions, base, t.loop, rounds)
              && (t.events == [] || (|t.events| == 1 && !t.events[0].Executed? && !t.events[0].PlanRound?))
  {
    hide Started, Over, StagedPlan, InterruptTurn, IssuedIn;
    GateKeepsPlan(cfg, l, o);
    StepFollows(cfg, l, o);
    GatePassesSameCall(cfg, l, o);
  }

  lemma GatePassesSameCall(cfg: Config, l: Loop, o: Oracle)
    requires l.state.StateInterrupt? && l.pending.Some?
    ensures var t := InterruptTurn(cfg, l, o);
            t.result.None? && t.loop.state.StateExecuting? ==> t.loop.pending.Some? && SameCall(t.loop.pending.value, l.pending.value)
  {
    hide Added, Text.TrimSpace, CallId;
  }

  lemma ExecutionKeepsOrder(cfg: Config, actions: seq<Action>, base: nat, l: Loop, o: Oracle, rounds: nat)
    requires cfg.planAndSolve && cfg.hasSolver && l.state.StateExecuting? && InOrder(actions, base, l, rounds)
    ensures var t := Step(cfg, l, o);
            t.result.None? ==> InOrder(actions, base, t.loop, rounds)
    ensures var t := Step(cfg, l, o);
            t.events == [] || (t.events == [Executed(l.pending.value, l.pendingCallId)] && IsStepOf(actions, base, rounds, l.pending.value))
  {
    hide Over, StagedPlan, ReportedOn, NoneRunning, Started, Step, Follows;
    StepFollows(cfg, l, o);
    ExecutionMoves(cfg, l, Step(cfg, l, o));
    if Step(cfg, l, o).result.None? {
      ExecutionIsReported(cfg, l, o);
      ExecutingKeepsRest(cfg, l, o);
      ReportKeepsStarted(l.plan.value.steps, o.executed.value);
    }
  }

  lemma ExecutionMoves(cfg: Config, l: Loop, t: Turn)
    requires l.state.StateExecuting? && l.pending.Some? && Follows(cfg, l, t)
    ensures t.events == [] || t.events == [Executed(l.pending.value, l.pendingCallId)]
    ensures t.result.None? ==>
              && (t.loop.state.StateEvaluating? || t.loop.state.StatePlanning?)
              && t.loop.lastExec == Some(Snapshot(l.pendingCallId, l.pending.value))
  {
    hide Verdict, IssuedIn, Permits;
  }

  lemma ReportKeepsStarted(steps: seq<PlanStep>, res: ExecResult)
    ensures var r := RunningIndex(steps);
            r < |steps| ==> Started(ReportedOn(steps, r, res)) == Started(steps) && ActionsOf(ReportedOn(steps, r, res)) == ActionsOf(steps)
  {
    var r := RunningIndex(steps);
    if r < |steps| { StartedIs(ReportedOn(steps, r, res), Started(steps)); }
  }

  lemma EvaluationKeepsOrder(cfg: Config, actions: seq<Action>, base: nat, l: Loop, o: Oracle, rounds: nat)
    requires l.state.StateEvaluating? && InOrder(actions, base, l, rounds) && NoReplan(o)
    ensures var t := Step(cfg, l, o); t.events == [] && (t.result.None? ==> InOrder(actions, base, t.loop, rounds))
  {
    hide LastOutput, FreshPlan, Text.TrimSpace, Over, StagedPlan, Started;
  }

  lemma CompletionKeepsOrder(cfg: Config, actions: seq<Action>, base: nat, l: Loop, o: Oracle, rounds: nat)
    requires l.state.StateCompleting? && InOrder(actions, base, l, rounds)
    ensures var t := Step(cfg, l, o); t.events == [] && (t.result.None? ==> InOrder(actions, base, t.loop, rounds))
  {
    hide Added, Text.TrimSpace, Over, StagedPlan, Started;
  }

  lemma OrderSnoc(actions: seq<Action>, base: nat, log: seq<Event>, events: seq<Event>)
    requires FollowsInOrder(actions, base, log) && |events| <= 1
    requires events != [] && events[0].Executed? ==> IsStepOf(actions, base, PlanRounds(log), events[0].action)
    ensures FollowsInOrder(actions, base, log + events)
    ensures PlanRounds(log + events) == PlanRounds(log) + if events == [PlanRound] then 1 else 0
  {
    hide IsStepOf;
    var all := log + events;
    CountsConcat(log, events);
    if events != [] { CountsOne(events[0]); assert events == [events[0]]; }
    forall j | 0 <= j < |all| && all[j].Executed? ensures IsStepOf(actions, base, PlanRounds(all[..j]), all[j].action) {
      assert all[..j] == if j < |log| then log[..j] else log;
    }
  }

  /** One turn keeps the order, unless it replaces the plan. */
  lemma StepKeepsOrder(cfg: Config, actions: seq<Action>, base: nat, l: Loop, o: Oracle, log: seq<Event>)
    requires cfg.planAndSolve && cfg.hasSolver && Sound(cfg, ControlOf(l)) && NoReplan(o)
    requires InOrder(actions, base, l, PlanRounds(log)) && FollowsInOrder(actions, base, log)
    requires ReviewRejected !in Step(cfg, l, o).events
    ensures var t := Step(cfg, l, o);
            && FollowsInOrder(actions, base, log + t.events)
            && (t.result.None? ==> InOrder(actions, base, t.loop, PlanRounds(log + t.events)))
  {
    hide Step, FollowsInOrder, IsStepOf, Started, Over, StagedPlan, Sound, Moves, Stops;
    var rounds := PlanRounds(log);
    var t := Step(cfg, l, o);
    StepFollows(cfg, l, o);
    EventsOfTurn(cfg, l, t);
    match l.state {
      case StatePlanGen | StatePlanReview => GenerationKeepsOrder(cfg, actions, base, l, o, rounds); assert t.events == [ReviewRejected] ==> ReviewRejected in t.events;
      case StatePlanning => RoundKeepsOrder(cfg, actions, base, l, o, rounds);
      case StateInterrupt => GateKeepsOrder(cfg, actions, base, l, o, rounds);
      case StateExecuting => ExecutionKeepsOrder(cfg, actions, base, l, o, rounds);
      case StateEvaluating => EvaluationKeepsOrder(cfg, actions, base, l, o, rounds);
      case StateCompleting => CompletionKeepsOrder(cfg, actions, base, l, o, rounds);
      case StateInit | StateComplete | StateError =>
    }
    OrderSnoc(actions, base, log, t.events);
  }

  lemma EventsOfTurn(cfg: Config, l: Loop, t: Turn)
    requires Follows(cfg, l, t)
    ensures |t.events| <= 1
    ensures t.events != [] && t.events[0].Executed? ==> l.state.StateExecuting?
    ensures t.events == [PlanRound] ==> l.state.StatePlanning?
  {
    hide Verdict, IssuedIn;
  }

  ghost predicate NoReplans(script: seq<Oracle>) {
    forall i :: 0 <= i < |script| ==> NoReplan(script[i])
  }

  /** From any position of a plan, and for as long as the plan is not replaced, the executed calls are those of the
      plan's steps in order, one step for each planning round. */
  lemma {:induction false} SegmentFollowsPlan(cfg: Config, actions: seq<Action>, base: nat, l: Loop, script: seq<Oracle>, log: seq<Event>)
    requires cfg.planAndSolve && cfg.hasSolver && Sound(cfg, ControlOf(l)) && NoReplans(script)
    requires InOrder(actions, base, l, PlanRounds(log)) && FollowsInOrder(actions, base, log)
    requires ReviewRejected !in Run(cfg, l, script).events
    ensures FollowsInOrder(actions, base, log + Run(cfg, l, script).events)
    decreases |script|
  {
    hide Step, InOrder, FollowsInOrder, Sound, Moves, Stops, PlanRounds;
    if script == [] {
      assert log + [] == log;
    } else {
      var t := Step(cfg, l, script[0]);
      var all := Run(cfg, l, script).events;
      StepFollows(cfg, l, script[0]);
      assert NoReplan(script[0]);
      assert forall e :: e in t.events ==> e in all;
      StepKeepsOrder(cfg, actions, base, l, script[0], log);
      if t.result.None? {
        var rest := Run(cfg, t.loop, script[1..]).events;
        MoveKeepsSound(cfg, ControlOf(l), ControlOf(t.loop), t.events);
        assert all == t.events + rest;
        assert forall e :: e in rest ==> e in all;
        SegmentFollowsPlan(cfg, actions, base, t.loop, script[1..], log + t.events);
        assert log + t.events + rest == log + (t.events + rest);
      }
    }
  }

  /** After a new plan has been made for the evaluator, its calls are executed in order, from the first step on. */
  lemma {:induction false} FollowsNewPlan(cfg: Config, l: Loop, script: seq<Oracle>)
    requires cfg.planAndSolve && cfg.hasSolver && Sound(cfg, ControlOf(l)) && NoReplans(script)
    requires l.state.StatePlanGen? && l.planGenFirst.None? && Untouched(l.plan) && StagedPlan(l.plan)
    requires ReviewRejected !in Run(cfg, l, script).events
    ensures FollowsInOrder(ActionsOf(l.plan.value.steps), 0, Run(cfg, l, script).events)
  {
    hide Run, Sound, StagedPlan;
    StartedIs(l.plan.value.steps, 0);
    SegmentFollowsPlan(cfg, ActionsOf(l.plan.value.steps), 0, l, script, []);
    assert [] + Run(cfg, l, script).events == Run(cfg, l, script).events;
  }

  /** The plan that a run follows: the one at its start, or the one it generates. */
  function PlanFollowed(plan: Option<ActionPlan>, script: seq<Oracle>): Option<ActionPlan> {
    if plan.Some? then plan else if |script| > 1 then FreshPlan(script[1].generated) else None
  }

  /** Over all runs that neither reject nor replace the plan: the executed calls are those of the plan's steps in
      order, from the first one that has not been handed out before, one step for each planning round. */
  lemma {:induction false} RunFollowsPlan(cfg: Config, memory: seq<Message>, calls: seq<Signature>, plan: Option<ActionPlan>, script: seq<Oracle>)
    requires cfg.planAndSolve && StagedPlan(plan) && GeneratesDistinct(script) && NoReplans(script)
    requires ReviewRejected !in RunFromStart(cfg, Start(cfg, memory, calls, plan), script).events
    ensures var log := RunFromStart(cfg, Start(cfg, memory, calls, plan), script).events;
            var followed := PlanFollowed(plan, script);
            if followed.None? then log == []
            else FollowsInOrder(ActionsOf(followed.value.steps), if plan.Some? then Started(plan.value.steps) else 0, log)
  {
    hide StagedPlan, Step, Started, FreshPlan, Run, InOrder;
    var l := Start(cfg, memory, calls, plan);
    if cfg.hasPlanner && script != [] {
      InitLeads(cfg, l, script[0]);
      var t := Step(cfg, l, script[0]);
      if t.result.None? && |script| > 1 {
        var rest := script[1..];
        assert rest[0] == script[1] && rest[1..] == script[2..];
        var u := Step(cfg, t.loop, rest[0]);
        GenerationLeads(cfg, t.loop, rest[0], plan);
        RunTwo(cfg, l, script);
        if u.result.None? {
          var p := PlanFollowed(plan, script).value;
          var base := if plan.Some? then Started(plan.value.steps) else 0;
          var events := Run(cfg, u.loop, script[2..]).events;
          assert Run(cfg, l, script).events == events;
          assert forall i :: 0 <= i < |script[2..]| ==> script[2..][i] == script[i + 2];
          SegmentFollowsPlan(cfg, ActionsOf(p.steps), base, u.loop, script[2..], []);
          assert [] + events == events;
        }
      } else {
        RunShort(cfg, l, script);
      }
    } else {
      RunOfNothing(cfg, l);
    }
  }

  lemma RunOfNothing(cfg: Config, l: Loop)
    ensures Run(cfg, l, []).events == []
  {
  }

  lemma RunShort(cfg: Config, l: Loop, script: seq<Oracle>)
    requires script != [] && Step(cfg, l, script[0]).events == []
    requires Step(cfg, l, script[0]).result.Some? || |script| == 1
    ensures Run(cfg, l, script).events == []
  {
    hide Step;
    if |script| == 1 { assert script[1..] == []; }
  }

  /** The first two turns of a run, if they log nothing. */
  lemma RunTwo(cfg: Config, l: Loop, script: seq<Oracle>)
    requires |script| > 1 && Step(cfg, l, script[0]).result.None?
    requires Step(cfg, l, script[0]).events == [] && Step(cfg, Step(cfg, l, script[0]).loop, script[1]).events == []
    ensures var u := Step(cfg, Step(cfg, l, script[0]).loop, script[1]);
            Run(cfg, l, script).events == if u.result.Some? then [] else Run(cfg, u.loop, script[2..]).events
  {
    hide Step;
    var t := Step(cfg, l, script[0]);
    var rest := script[1..];
    assert rest[0] == script[1] && rest[1..] == script[2..];
    var u := Step(cfg, t.loop, rest[0]);
    var r := Run(cfg, t.loop, rest);
    assert [] + r.events == r.events;
    if u.result.None? {
      var events := Run(cfg, u.loop, rest[1..]).events;
      assert [] + events == events;
    }
  }

  lemma InitLeads(cfg: Config, l: Loop, o: Oracle)
    requires cfg.planAndSolve && l.state.StateInit?
    ensures var t := Step(cfg, l, o); t.events == [] && (t.result.None? ==> t.loop == l.(state := StatePlanGen))
  {
  }

  lemma GenerationLeads(cfg: Config, l: Loop, o: Oracle, plan: Option<ActionPlan>)
    requires l.state.StatePlanGen? && l.plan == plan && StagedPlan(plan) && StagedPlan(FreshPlan(o.generated))
    requires l.planGenFirst.None? && l.pending.None? && l.lastExec.None? && !l.evalEscalate
    ensures var t := Step(cfg, l, o);
            && t.events == []
            && (t.result.None? ==>
                  && cfg.hasSolver && Sound(cfg, ControlOf(t.loop))
                  && (plan.None? ==> FreshPlan(o.generated).Some?)
                  && var p := if plan.Some? then plan.value else FreshPlan(o.generated).value;
                     InOrder(ActionsOf(p.steps), if plan.Some? then Started(plan.value.steps) else 0, t.loop, 0))
  {
    hide AfterPlan, StagedPlan, Started, Over, FreshPlan;
    AfterPlanFails(o.generated);
    var made := FreshPlan(o.generated);
    if plan.None? && made.Some? {
      FreshUntouched(o.generated);
      FirstIsUnfinished(made.value.steps);
      StartedIs(made.value.steps, 0);
      AskKeepsOrder(made.value, o.generated, ActionsOf(made.value.steps));
      AfterGeneration(o.generated);
      NotOver(made.value.steps);
    }
  }

  lemma FreshUntouched(generated: Option<seq<RawStep>>)
    requires FreshPlan(generated).Some?
    ensures Untouched(FreshPlan(generated))
  {
  }

  lemma AfterGeneration(generated: Option<seq<RawStep>>)
    ensures AfterPlan(None, generated) == AfterPlan(FreshPlan(generated), None)
    ensures FreshPlan(generated).Some? ==> AfterPlan(FreshPlan(generated), None) == AfterPlan(FreshPlan(generated), generated)
  {
    hide FreshPlan, NextPlanned;
  }

  lemma NotOver(steps: seq<PlanStep>)
    requires steps != [] && forall i :: 0 <= i < |steps| ==> steps[i].status.StepPending?
    ensures !Over(steps)
  {
    FirstIsUnfinished(steps);
  }
}
