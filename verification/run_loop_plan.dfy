/** The plan during a run in plan-and-solve mode. */
module RunLoopPlan {
  import opened Wrappers
  import opened Chat
  import opened BufferedMemory
  import opened LoopDetection
  import opened Planner
  import opened RunLoop
  import opened RunLoopControl
  import opened RunLoopSafety
  import Text

  /** Every plan that the model generates has distinct step IDs. */
  ghost predicate GeneratesDistinct(script: seq<Oracle>) {
    forall i :: 0 <= i < |script| ==> StagedPlan(FreshPlan(script[i].generated))
  }

  lemma StepKeepsStaged(cfg: Config, l: Loop, o: Oracle)
    requires StagedPlan(l.plan) && StagedPlan(FreshPlan(o.generated))
    ensures StagedPlan(Step(cfg, l, o).loop.plan)
  {
    hide PlanGenTurn, PlanReviewTurn, PlanningTurn, InterruptTurn, ExecutingTurn, EvaluatingTurn, CompletingTurn,
         StagedPlan, Reported, FreshPlan;
    AfterPlanStaged(None, o.generated);
    match l.state {
      case StatePlanGen | StatePlanReview | StatePlanning => PlanningKeepsStaged(cfg, l, o);
      case StateInterrupt => GateKeepsPlan(cfg, l, o);
      case StateExecuting => ReportedStaged(l.plan, o); PlanAfterExecuting(cfg, l, o);
      case StateEvaluating | StateCompleting => PlanAfterEvaluating(cfg, l, o);
      case _ =>
    }
  }

  lemma PlanAfterExecuting(cfg: Config, l: Loop, o: Oracle)
    ensures var p := ExecutingTurn(cfg, l, o).loop.plan;
            || p == l.plan
            || (o.executed.Given? && var res := o.executed.value;
                if res.error.Some? then p == Reported(l.plan, StepFailed, res.error.value)
                else p == Reported(l.plan, StepDone, res.output))
  {
    hide ResultMemory, Verdict, InjectLoopWarning, Reported;
  }

  lemma PlanAfterEvaluating(cfg: Config, l: Loop, o: Oracle)
    ensures EvaluatingTurn(cfg, l, o).loop.plan in {l.plan, FreshPlan(o.generated)}
    ensures CompletingTurn(cfg, l, o).loop.plan == l.plan
  {
    hide LastOutput, FreshPlan, Text.TrimSpace, Added;
  }

  lemma PlanningKeepsStaged(cfg: Config, l: Loop, o: Oracle)
    requires StagedPlan(l.plan) && StagedPlan(FreshPlan(o.generated))
    ensures StagedPlan(PlanGenTurn(cfg, l, o).loop.plan)
    ensures StagedPlan(PlanReviewTurn(cfg, l, o).loop.plan)
    ensures StagedPlan(PlanningTurn(cfg, l, o).loop.plan)
  {
    hide CompressedMemory, Added, Text.TrimSpace, StagedPlan, AfterPlan, FreshPlan;
    AfterPlanStaged(l.plan, o.generated);
    AfterPlanStaged(None, o.generated);
  }

  lemma AfterPlanStaged(plan: Option<ActionPlan>, generated: Option<seq<RawStep>>)
    requires StagedPlan(plan) && StagedPlan(FreshPlan(generated))
    ensures StagedPlan(AfterPlan(plan, generated).1)
    ensures StagedPlan(None)
  {
  }

  lemma ReportedStaged(plan: Option<ActionPlan>, o: Oracle)
    requires StagedPlan(plan)
    ensures o.executed.Given? ==> StagedPlan(Reported(plan, StepDone, o.executed.value.output))
    ensures o.executed.Given? && o.executed.value.error.Some? ==>
              StagedPlan(Reported(plan, StepFailed, o.executed.value.error.value))
  {
  }

  /** Throughout a run the statuses read: finished steps, at most one that is running or failed, pending ones. */
  lemma {:induction false} PlanStaysStaged(cfg: Config, l: Loop, script: seq<Oracle>)
    requires StagedPlan(l.plan) && GeneratesDistinct(script)
    ensures StagedPlan(Run(cfg, l, script).loop.plan)
    decreases |script|
  {
    hide Step, StagedPlan, FreshPlan;
    if script != [] {
      StepKeepsStaged(cfg, l, script[0]);
      var t := Step(cfg, l, script[0]);
      if t.result.None? { PlanStaysStaged(cfg, t.loop, script[1..]); }
    }
  }

  // ----- the first answer and the plan -----

  /** The first running step of the plan has this action. */
  predicate Underway(plan: Option<ActionPlan>, a: Action) {
    plan.Some? && var r := RunningIndex(plan.value.steps);
                  r < |plan.value.steps| && plan.value.steps[r].action == a
  }

  /** No step of the plan has been handed out. */
  predicate Untouched(plan: Option<ActionPlan>) {
    plan.Some? && plan.value.steps != [] && forall i :: 0 <= i < |plan.value.steps| ==> plan.value.steps[i].status.StepPending?
  }

  /** The plan is finished or stuck at a failed step, and this is the answer that says so. */
  predicate Exhausted(plan: Option<ActionPlan>, a: Action) {
    plan.Some? && var steps := plan.value.steps;
                  var n := FirstUnfinished(steps);
                  && RunningIndex(steps) == |steps| && (n == |steps| || steps[n].status.StepFailed?)
                  && a == Action(FinalAnswerAction, "", NilParams, SummarizeResults(steps))
  }

  /** What is proposed comes from the current plan: it is the step under way, or the final answer. */
  predicate FollowsPlan(l: Loop) {
    l.pending.Some? && (Underway(l.plan, l.pending.value) || Exhausted(l.plan, l.pending.value))
  }

  /** The run generated its plan itself, a review has rejected it, and this is still the first planning round. */
  predicate Stale(start: Option<ActionPlan>, iteration: nat, log: seq<Event>) {
    start.None? && iteration == 1 && ReviewRejected in log
  }

  function FirstAction(generated: Option<seq<RawStep>>): Option<Action> {
    if generated.Some? && generated.value != [] then Some(generated.value[0].action) else None
  }

  /** How the kept first answer, the plan and the proposed action go together, from the plan at the start, the
      first generated steps and the log so far. */
  predicate Together(start: Option<ActionPlan>, first: Option<seq<RawStep>>, l: Loop, log: seq<Event>) {
    match l.state
    case StateInit => l.planGenFirst.None? && l.iteration == 0 && l.plan == start && ReviewRejected !in log
    case StatePlanGen =>
      l.planGenFirst.None? && if l.iteration == 0 then l.plan == start && ReviewRejected !in log else l.plan.Some?
    case StatePlanReview | StatePlanning => l.plan.Some? && FirstKept(start, first, l, log)
    case StateInterrupt =>
      && l.planGenFirst.None? && l.plan.Some? && l.iteration >= 1
      && (!l.evalEscalate ==>
            l.pending.Some?
            && if Stale(start, l.iteration, log) then Untouched(l.plan) && l.pending == FirstAction(first)
               else Underway(l.plan, l.pending.value))
    case _ => l.planGenFirst.None? && l.plan.Some? && l.iteration >= 1
  }

  predicate FirstKept(start: Option<ActionPlan>, first: Option<seq<RawStep>>, l: Loop, log: seq<Event>) {
    && (l.planGenFirst.Some? <==> start.None? && l.iteration == 0)
    && (l.planGenFirst.Some? ==>
          && Some(l.planGenFirst.value.action) == FirstAction(first)
          && if ReviewRejected in log then Untouched(l.plan) else Underway(l.plan, l.planGenFirst.value.action))
  }

  /** The first plan is generated from these steps. */
  predicate Begins(l: Loop, script: seq<Oracle>, first: Option<seq<RawStep>>) {
    && (l.state.StateInit? && |script| > 1 ==> script[1].generated == first)
    && (l.state.StatePlanGen? && l.iteration == 0 && |script| > 0 ==> script[0].generated == first)
  }

  lemma FreshIsUntouched(generated: Option<seq<RawStep>>)
    requires FreshPlan(generated).Some?
    ensures Untouched(FreshPlan(generated))
    ensures Some(FreshPlan(generated).value.steps[0].action) == FirstAction(generated)
  {
  }

  /** Planning on a plan without a running step hands out a step that then runs, or answers. */
  lemma PlanningHandsOut(plan: Option<ActionPlan>, generated: Option<seq<RawStep>>)
    ensures var (o, p) := AfterPlan(plan, generated);
            o.Planned? ==> p.Some? && (Underway(p, o.result.action) || Exhausted(p, o.result.action))
    ensures Untouched(plan) ==>
              var (o, p) := AfterPlan(plan, generated);
              o.Planned? && o.result.action == plan.value.steps[0].action && Underway(p, o.result.action)
    ensures plan.None? && FreshPlan(generated).Some? ==>
              var (o, p) := AfterPlan(plan, generated);
              o.Planned? && Some(o.result.action) == FirstAction(generated) && Underway(p, o.result.action)
    ensures plan.Some? && RunningIndex(plan.value.steps) < |plan.value.steps| ==> AfterPlan(plan, generated).0.PlanFailed?
  {
    var p := if plan.None? then FreshPlan(generated) else plan;
    if p.Some? {
      var steps := p.value.steps;
      var n := FirstUnfinished(steps);
      if RunningIndex(steps) == |steps| && n < |steps| && steps[n].status.StepPending? {
        RunningIs(steps[n := steps[n].(status := StepRunning)], n);
      }
      if Untouched(p) { FirstIsUnfinished(steps); }
    }
  }

  lemma RunningIs(steps: seq<PlanStep>, r: nat)
    requires r < |steps| && steps[r].status.StepRunning?
    requires forall k :: 0 <= k < r ==> !steps[k].status.StepRunning?
    ensures RunningIndex(steps) == r
  {
  }

  lemma FirstIsUnfinished(steps: seq<PlanStep>)
    requires steps != [] && forall i :: 0 <= i < |steps| ==> steps[i].status.StepPending?
    ensures FirstUnfinished(steps) == 0 && RunningIndex(steps) == |steps|
  {
  }

  lemma GenerationKeepsTogether(cfg: Config, start: Option<ActionPlan>, first: Option<seq<RawStep>>, l: Loop, o: Oracle, log: seq<Event>)
    requires l.state.StatePlanGen? && Together(start, first, l, log)
    requires l.iteration == 0 ==> o.generated == first
    ensures var t := PlanGenTurn(cfg, l, o); t.result.None? ==> Together(start, first, t.loop, log + t.events)
  {
    hide AfterPlan, Underway, Exhausted, FirstAction;
    PlanningHandsOut(None, o.generated);
    AfterPlanFails(o.generated);
    assert log + [] == log;
  }

  lemma AfterPlanFails(generated: Option<seq<RawStep>>)
    ensures FreshPlan(generated).None? ==> AfterPlan(None, generated).0.PlanFailed?
  {
  }

  lemma ReviewKeepsTogether(cfg: Config, start: Option<ActionPlan>, first: Option<seq<RawStep>>, l: Loop, o: Oracle, log: seq<Event>)
    requires l.state.StatePlanReview? && Together(start, first, l, log)
    ensures var t := PlanReviewTurn(cfg, l, o); t.result.None? ==> Together(start, first, t.loop, log + t.events)
  {
    hide Added, FreshPlan, Underway, FirstAction, Untouched;
    if FreshPlan(o.generated).Some? { FreshIsUntouched(o.generated); }
    assert log + [] == log;
  }

  /** What the planning turn does with the kept answer or the plan. */
  lemma PlanningProposes(cfg: Config, start: Option<ActionPlan>, first: Option<seq<RawStep>>, l: Loop, o: Oracle, log: seq<Event>)
    requires cfg.planAndSolve && l.state.StatePlanning? && Together(start, first, l, log)
    ensures var t := PlanningTurn(cfg, l, o);
            t.result.None? ==>
              && t.loop.pending.Some? && t.loop.planGenFirst.None? && t.loop.plan.Some? && t.loop.iteration == l.iteration + 1
              && t.events == [PlanRound]
              && (t.loop.state.StateInterrupt? <==> !t.loop.pending.value.typ.FinalAnswerAction?)
              && (t.loop.state.StateInterrupt? || t.loop.state.StateCompleting?)
              && t.loop.evalEscalate == l.evalEscalate
              && if Stale(start, l.iteration + 1, log)
                 then t.loop.plan == l.plan && Untouched(l.plan) && t.loop.pending == FirstAction(first)
                 else FollowsPlan(t.loop)
  {
    hide AfterPlan, CompressedMemory, Text.TrimSpace, Underway, Exhausted, FirstAction, Untouched;
    PlanningHandsOut(l.plan, o.generated);
    var (x, p) := AfterPlan(l.plan, o.generated);
    var t := PlanningTurn(cfg, l, o);
    if l.planGenFirst.None? && t.result.None? {
      assert x.Planned? && t.loop.plan == p && t.loop.pending == Some(x.result.action);
    }
  }

  lemma PlanningKeepsTogether(cfg: Config, start: Option<ActionPlan>, first: Option<seq<RawStep>>, l: Loop, o: Oracle, log: seq<Event>)
    requires cfg.planAndSolve && l.state.StatePlanning? && Together(start, first, l, log)
    ensures var t := PlanningTurn(cfg, l, o); t.result.None? ==> Together(start, first, t.loop, log + t.events)
  {
    hide PlanningTurn, Underway, FirstAction, Untouched;
    PlanningProposes(cfg, start, first, l, o, log);
    assert ReviewRejected in log + [PlanRound] <==> ReviewRejected in log;
  }

  lemma InterruptKeepsTogether(cfg: Config, start: Option<ActionPlan>, first: Option<seq<RawStep>>, l: Loop, o: Oracle, log: seq<Event>)
    requires l.state.StateInterrupt? && Together(start, first, l, log)
    ensures var t := InterruptTurn(cfg, l, o); t.result.None? ==> Together(start, first, t.loop, log + t.events)
  {
    hide InterruptTurn, Underway, Untouched, FirstAction;
    GateKeepsPlan(cfg, l, o);
    GateLeads(cfg, l, o);
  }

  lemma GateLeads(cfg: Config, l: Loop, o: Oracle)
    requires l.state.StateInterrupt?
    ensures var t := InterruptTurn(cfg, l, o);
            t.result.None? ==> (t.loop.state.StatePlanning? || t.loop.state.StateExecuting?) && ReviewRejected !in t.events
  {
    hide Added, Text.TrimSpace, CallId;
  }

  lemma ExecutingKeepsTogether(cfg: Config, start: Option<ActionPlan>, first: Option<seq<RawStep>>, l: Loop, o: Oracle, log: seq<Event>)
    requires l.state.StateExecuting? && Together(start, first, l, log)
    ensures var t := ExecutingTurn(cfg, l, o); t.result.None? ==> Together(start, first, t.loop, log + t.events)
  {
    hide ResultMemory, Verdict, InjectLoopWarning, Underway, Untouched, FirstAction;
  }

  lemma EvaluatingKeepsTogether(cfg: Config, start: Option<ActionPlan>, first: Option<seq<RawStep>>, l: Loop, o: Oracle, log: seq<Event>)
    requires l.state.StateEvaluating? && Together(start, first, l, log)
    ensures var t := EvaluatingTurn(cfg, l, o); t.result.None? ==> Together(start, first, t.loop, log + t.events)
  {
    hide LastOutput, FreshPlan, Text.TrimSpace, Underway, Untouched, FirstAction;
  }

  lemma StepKeepsTogether(cfg: Config, start: Option<ActionPlan>, first: Option<seq<RawStep>>, l: Loop, o: Oracle, log: seq<Event>)
    requires cfg.planAndSolve && Together(start, first, l, log)
    requires l.state.StatePlanGen? && l.iteration == 0 ==> o.generated == first
    ensures var t := Step(cfg, l, o); t.result.None? ==> Together(start, first, t.loop, log + t.events)
  {
    hide PlanGenTurn, PlanReviewTurn, PlanningTurn, InterruptTurn, ExecutingTurn, EvaluatingTurn, Added, Text.TrimSpace,
         Underway, Untouched, FirstAction;
    match l.state {
      case StatePlanGen => GenerationKeepsTogether(cfg, start, first, l, o, log);
      case StatePlanReview => ReviewKeepsTogether(cfg, start, first, l, o, log);
      case StatePlanning => PlanningKeepsTogether(cfg, start, first, l, o, log);
      case StateInterrupt => InterruptKeepsTogether(cfg, start, first, l, o, log);
      case StateExecuting => ExecutingKeepsTogether(cfg, start, first, l, o, log);
      case StateEvaluating => EvaluatingKeepsTogether(cfg, start, first, l, o, log);
      case StateInit | StateCompleting => assert log + [] == log;
      case StateComplete | StateError =>
    }
  }

  lemma {:induction false} RunKeepsTogether(cfg: Config, start: Option<ActionPlan>, first: Option<seq<RawStep>>, l: Loop,
                                            script: seq<Oracle>, log: seq<Event>)
    requires cfg.planAndSolve && Together(start, first, l, log) && Begins(l, script, first)
    ensures var t := Run(cfg, l, script); t.result.None? ==> Together(start, first, t.loop, log + t.events)
    decreases |script|
  {
    hide Step, Together;
    if script == [] {
      assert log + [] == log;
    } else {
      var t := Step(cfg, l, script[0]);
      StepKeepsTogether(cfg, start, first, l, script[0], log);
      if t.result.None? {
        BeginsLater(cfg, start, first, l, script, log);
        RunKeepsTogether(cfg, start, first, t.loop, script[1..], log + t.events);
        var rest := Run(cfg, t.loop, script[1..]).events;
        assert log + t.events + rest == log + (t.events + rest);
      }
    }
  }

  lemma BeginsLater(cfg: Config, start: Option<ActionPlan>, first: Option<seq<RawStep>>, l: Loop, script: seq<Oracle>, log: seq<Event>)
    requires Together(start, first, l, log) && Begins(l, script, first)
    requires script != [] && Step(cfg, l, script[0]).result.None?
    ensures Begins(Step(cfg, l, script[0]).loop, script[1..], first)
  {
    hide Step, FirstKept, Stale, Untouched, Underway;
    StepFollows(cfg, l, script[0]);
  }

  /** The steps that the run's first plan generation yields. */
  function FirstGenerated(script: seq<Oracle>): Option<seq<RawStep>> {
    if |script| > 1 then script[1].generated else None
  }

  lemma ReachedTogether(cfg: Config, memory: seq<Message>, calls: seq<Signature>, plan: Option<ActionPlan>, script: seq<Oracle>)
    requires cfg.planAndSolve
    ensures var t := RunFromStart(cfg, Start(cfg, memory, calls, plan), script);
            t.result.None? ==> Together(plan, FirstGenerated(script), t.loop, t.events)
  {
    hide Run;
    var l := Start(cfg, memory, calls, plan);
    RunKeepsTogether(cfg, plan, FirstGenerated(script), l, script, []);
    assert [] + Run(cfg, l, script).events == Run(cfg, l, script).events;
  }

  /** In plan-and-solve mode the first planning round, if it goes on, acts on the current plan exactly if the
      plan was already there at the start or no review has rejected it. After a rejection it acts on the first
      step of the plan that was rejected, and leaves the new plan untouched. */
  lemma FirstRoundFollowsPlanIff(cfg: Config, memory: seq<Message>, calls: seq<Signature>, plan: Option<ActionPlan>,
                                 script: seq<Oracle>, o: Oracle)
    requires cfg.planAndSolve
    requires var t := RunFromStart(cfg, Start(cfg, memory, calls, plan), script);
             t.result.None? && t.loop.state.StatePlanning? && t.loop.iteration == 0
             && Step(cfg, t.loop, o).result.None?
    ensures var t := RunFromStart(cfg, Start(cfg, memory, calls, plan), script);
            var l := Step(cfg, t.loop, o).loop;
            && (FollowsPlan(l) <==> plan.Some? || ReviewRejected !in t.events)
            && (!FollowsPlan(l) ==> l.pending == FirstAction(FirstGenerated(script)) && l.plan == t.loop.plan && Untouched(l.plan))
  {
    hide RunFromStart, PlanningTurn, FirstAction, SummarizeResults;
    ReachedTogether(cfg, memory, calls, plan, script);
    var t := RunFromStart(cfg, Start(cfg, memory, calls, plan), script);
    PlanningProposes(cfg, plan, FirstGenerated(script), t.loop, o, t.events);
    if Untouched(t.loop.plan) { FirstIsUnfinished(t.loop.plan.value.steps); }
  }

  /** At the gate, in plan-and-solve mode, the kept answer is used up, and the proposed action is the step under
      way exactly if it is not the stale one of a rejected plan. */
  lemma GateFollowsPlanIff(cfg: Config, memory: seq<Message>, calls: seq<Signature>, plan: Option<ActionPlan>, script: seq<Oracle>)
    requires cfg.planAndSolve
    requires var t := RunFromStart(cfg, Start(cfg, memory, calls, plan), script);
             t.result.None? && t.loop.state.StateInterrupt? && !t.loop.evalEscalate
    ensures var t := RunFromStart(cfg, Start(cfg, memory, calls, plan), script);
            && t.loop.planGenFirst.None? && t.loop.pending.Some?
            && (Underway(t.loop.plan, t.loop.pending.value) <==> !Stale(plan, t.loop.iteration, t.events))
            && (Stale(plan, t.loop.iteration, t.events) ==> Untouched(t.loop.plan))
  {
    hide RunFromStart, FirstAction;
    ReachedTogether(cfg, memory, calls, plan, script);
    var t := RunFromStart(cfg, Start(cfg, memory, calls, plan), script);
    if Untouched(t.loop.plan) { FirstIsUnfinished(t.loop.plan.value.steps); }
  }

  /** Nothing but the planner can stop the next planning round. */
  predicate CanPlan(cfg: Config, l: Loop, o: Oracle) {
    !o.cancelled && l.iteration < cfg.maxIterations && o.read && !o.summary.Nil? && (o.summary.Given? ==> o.reread)
  }

  /** When a human denies an action, or the action is a question, its step stays running. The run gets through
      the next planning round exactly if nothing else stops that round, the action was the stale one of a
      rejected plan, and the new plan's first step has a known kind of action; otherwise the planner refuses. */
  lemma SurvivesUnexecutedIff(cfg: Config, memory: seq<Message>, calls: seq<Signature>, plan: Option<ActionPlan>,
                              script: seq<Oracle>, o1: Oracle, o2: Oracle)
    requires cfg.planAndSolve
    requires var t := RunFromStart(cfg, Start(cfg, memory, calls, plan), script);
             && t.result.None? && t.loop.state.StateInterrupt? && !t.loop.evalEscalate
             && var u := Step(cfg, t.loop, o1); u.result.None? && u.loop.state.StatePlanning?
    ensures var t := RunFromStart(cfg, Start(cfg, memory, calls, plan), script);
            var l := Step(cfg, t.loop, o1).loop;
            var stale := Stale(plan, t.loop.iteration, t.events);
            && l.plan == t.loop.plan && l.plan.Some?
            && (Step(cfg, l, o2).result.None?
                <==> CanPlan(cfg, l, o2) && stale
                     && l.plan.value.steps != [] && !l.plan.value.steps[0].action.typ.UnknownAction?)
            && (CanPlan(cfg, l, o2) && !stale ==> Step(cfg, l, o2).result == Some(Failed(PlannerFailed)))
  {
    hide RunFromStart, FirstAction, Together, Step;
    GateFollowsPlanIff(cfg, memory, calls, plan, script);
    ReachedTogether(cfg, memory, calls, plan, script);
    SoundAtGate(cfg, memory, calls, plan, script);
    var t := RunFromStart(cfg, Start(cfg, memory, calls, plan), script);
    GateKeepsPlan(cfg, t.loop, o1);
    GateStep(cfg, t.loop, o1);
    RoundAfterGate(cfg, Step(cfg, t.loop, o1).loop, o2);
  }

  lemma SoundAtGate(cfg: Config, memory: seq<Message>, calls: seq<Signature>, plan: Option<ActionPlan>, script: seq<Oracle>)
    requires cfg.planAndSolve
    requires var t := RunFromStart(cfg, Start(cfg, memory, calls, plan), script); t.result.None? && t.loop.state.StateInterrupt?
    ensures cfg.hasSolver
  {
    RunStaysSound(cfg, memory, calls, plan, script);
  }

  lemma GateKeepsPlan(cfg: Config, l: Loop, o: Oracle)
    requires l.state.StateInterrupt?
    ensures var u := InterruptTurn(cfg, l, o).loop; u.plan == l.plan && u.planGenFirst == l.planGenFirst && u.iteration == l.iteration
  {
    hide AnnounceTurn, QuestionTurn, EscalationTurn, Added;
    if l.pending.Some? {
      var a := l.pending.value;
      AnsweringKeepsPlan(cfg, l, a.answer, NO_HUMAN, o);
      AnsweringKeepsPlan(cfg, l, a.answer, SKIPPED, o);
      AnsweringKeepsPlan(cfg, l, a.answer, HumanText(o.human), o);
      AnnouncingKeepsPlan(cfg, l, a, Ungated(a), o);
      AnnouncingKeepsPlan(cfg, l, a, Cleared(a), o);
      if o.human.Reply? {
        var b := Revised(a, o.human.modified);
        AnnouncingKeepsPlan(cfg, l, b, Approved(a, o.human, b), o);
      }
    }
  }

  lemma AnsweringKeepsPlan(cfg: Config, l: Loop, question: string, answer: string, o: Oracle)
    ensures var u := QuestionTurn(cfg, l, question, answer, o).loop;
            u.plan == l.plan && u.planGenFirst == l.planGenFirst && u.iteration == l.iteration
    ensures var u := EscalationTurn(cfg, l, o).loop;
            u.plan == l.plan && u.planGenFirst == l.planGenFirst && u.iteration == l.iteration
  {
    hide Added, Text.TrimSpace;
  }

  lemma AnnouncingKeepsPlan(cfg: Config, l: Loop, a: Action, permit: Event, o: Oracle)
    ensures var u := AnnounceTurn(cfg, l, a, permit, o).loop;
            u.plan == l.plan && u.planGenFirst == l.planGenFirst && u.iteration == l.iteration
  {
    hide Added, CallId;
  }

  lemma GateStep(cfg: Config, l: Loop, o: Oracle)
    requires l.state.StateInterrupt? && Step(cfg, l, o).result.None?
    ensures Step(cfg, l, o) == InterruptTurn(cfg, l, o)
  {
    hide InterruptTurn;
  }

  lemma RoundAfterGate(cfg: Config, l: Loop, o: Oracle)
    requires cfg.planAndSolve && cfg.hasSolver && l.state.StatePlanning? && l.planGenFirst.None? && l.plan.Some?
    requires Untouched(l.plan) || RunningIndex(l.plan.value.steps) < |l.plan.value.steps|
    ensures Step(cfg, l, o).result.None?
            <==> CanPlan(cfg, l, o) && Untouched(l.plan) && !l.plan.value.steps[0].action.typ.UnknownAction?
    ensures CanPlan(cfg, l, o) && !Untouched(l.plan) ==> Step(cfg, l, o).result == Some(Failed(PlannerFailed))
  {
    hide AfterPlan, CompressedMemory, Text.TrimSpace;
    PlanningHandsOut(l.plan, o.generated);
    if Untouched(l.plan) { FirstIsUnfinished(l.plan.value.steps); }
  }
}
