/** Why a run ends as it does, and what its evaluator decides, for whole runs from the start. */
module RunLoopAnswers {
  import opened Wrappers
  import opened Chat
  import opened BufferedMemory
  import opened LoopDetection
  import opened Planner
  import opened RunLoop
  import opened RunLoopControl
  import opened RunLoopSafety
  import opened RunLoopEvents
  import opened RunLoopPlan
  import opened RunLoopTurns
  import Text

  /** A run that has ended did so in its last turn. */
  lemma {:induction false} LastTurn(cfg: Config, l: Loop, script: seq<Oracle>) returns (k: nat)
    requires Run(cfg, l, script).result.Some?
    ensures GoesOn(cfg, l, script, k)
    ensures var u := Step(cfg, At(cfg, l, script, k), script[k]);
            u.result == Run(cfg, l, script).result && u.loop == Run(cfg, l, script).loop
    decreases |script|
  {
    hide Step, GoesOn, At, LogBefore;
    var t := Step(cfg, l, script[0]);
    FirstTurn(cfg, l, script);
    if t.result.Some? {
      k := 0;
    } else {
      var rest := LastTurn(cfg, t.loop, script[1..]);
      LaterTurn(cfg, l, script, rest);
      k := rest + 1;
    }
  }

  /** Every turn but the first follows on the one before. */
  lemma {:induction false} TurnBefore(cfg: Config, l: Loop, script: seq<Oracle>, k: nat)
    requires GoesOn(cfg, l, script, k) && k > 0
    ensures GoesOn(cfg, l, script, k - 1)
    ensures var t := Step(cfg, At(cfg, l, script, k - 1), script[k - 1]);
            && t.result.None? && t.loop == At(cfg, l, script, k)
            && LogBefore(cfg, l, script, k) == LogBefore(cfg, l, script, k - 1) + t.events
    decreases |script|
  {
    hide Step, GoesOn, At, LogBefore;
    GoesOnFromStart(cfg, l, script, k);
    FirstTurn(cfg, l, script);
    LaterTurn(cfg, l, script, k - 1);
    if k == 1 {
      FirstTurn(cfg, Step(cfg, l, script[0]).loop, script[1..]);
    } else {
      LaterTurn(cfg, l, script, k - 2);
      TurnBefore(cfg, Step(cfg, l, script[0]).loop, script[1..], k - 1);
    }
  }

  lemma GoesOnFromStart(cfg: Config, l: Loop, script: seq<Oracle>, k: nat)
    requires GoesOn(cfg, l, script, k) && k > 0
    ensures |script| > 1 && Step(cfg, l, script[0]).result.None?
  {
    hide Step;
    assert script[..k][0] == script[0];
  }

  // ----- answers -----

  /** A planner says that this is the answer: the planner of a mode without plan, the plan-and-solve planner with
      the first answer kept from making a plan, or with the step under way or the plan's final answer. */
  predicate PlannerAnswers(cfg: Config, l: Loop, o: Oracle, u: Loop, answer: string) {
    && l.state.StatePlanning? && u.pending.Some? && u.pending.value.typ.FinalAnswerAction?
    && answer == Text.TrimSpace(u.pending.value.answer)
    && var a := u.pending.value;
       if l.planGenFirst.Some? then a == l.planGenFirst.value.action
       else if cfg.planAndSolve then Underway(u.plan, a) || Exhausted(u.plan, a)
       else o.planned.Given? && a == o.planned.value.action
  }

  /** The evaluator completes the run with its feedback, or with the newest output that is not blank. */
  predicate EvaluatorAnswers(l: Loop, o: Oracle, answer: string) {
    && l.state.StateEvaluating? && o.evaluated.Given? && o.evaluated.value.decision.DecisionComplete?
    && CompletesWith(o.evaluated.value.feedback, l.history, answer)
  }

  lemma CompletingComesFrom(cfg: Config, l: Loop, o: Oracle)
    requires Sound(cfg, ControlOf(l))
    requires var t := Step(cfg, l, o); t.result.None? && t.loop.state.StateCompleting?
    requires l.state.StateEvaluating? ==> cfg.evalOn
    ensures var u := Step(cfg, l, o).loop;
            PlannerAnswers(cfg, l, o, u, u.completeAnswer) || EvaluatorAnswers(l, o, u.completeAnswer)
  {
    hide Step, Underway, Exhausted, CompletesWith, Text.TrimSpace, Follows;
    CompletingFromPlanningOrEvaluating(cfg, l, o);
    if l.state.StateEvaluating? {
      EvaluatingTurnLeads(cfg, l, o);
    } else {
      PlanningAnswers(cfg, l, o);
    }
  }

  lemma CompletingFromPlanningOrEvaluating(cfg: Config, l: Loop, o: Oracle)
    requires var t := Step(cfg, l, o); t.result.None? && t.loop.state.StateCompleting?
    ensures l.state.StatePlanning? || l.state.StateEvaluating?
  {
    hide Step;
    StepFollows(cfg, l, o);
  }

  lemma PlanningAnswers(cfg: Config, l: Loop, o: Oracle)
    requires l.state.StatePlanning?
    requires var t := Step(cfg, l, o); t.result.None? && t.loop.state.StateCompleting?
    ensures var u := Step(cfg, l, o).loop; PlannerAnswers(cfg, l, o, u, u.completeAnswer)
  {
    hide AfterPlan, CompressedMemory, Underway, Exhausted, Text.TrimSpace;
    PlanningHandsOut(l.plan, o.generated);
    var (x, p) := AfterPlan(l.plan, o.generated);
    var u := Step(cfg, l, o).loop;
    if l.planGenFirst.None? && cfg.planAndSolve {
      assert x.Planned? && u.plan == p && u.pending == Some(x.result.action);
    }
  }

  lemma {:induction false} EvaluatesOnlyIfOn(cfg: Config, l: Loop, script: seq<Oracle>)
    requires l.state.StateEvaluating? ==> cfg.evalOn
    ensures var t := Run(cfg, l, script); t.loop.state.StateEvaluating? ==> cfg.evalOn
    decreases |script|
  {
    hide Step;
    if script != [] {
      var t := Step(cfg, l, script[0]);
      EvaluatingComesFrom(cfg, l, script[0]);
      if t.result.None? { EvaluatesOnlyIfOn(cfg, t.loop, script[1..]); }
    }
  }

  lemma EvaluatingComesFrom(cfg: Config, l: Loop, o: Oracle)
    requires l.state.StateEvaluating? ==> cfg.evalOn
    ensures Step(cfg, l, o).loop.state.StateEvaluating? ==> cfg.evalOn
  {
    hide AfterPlan, FreshPlan, CompressedMemory, ResultMemory, Added, Text.TrimSpace, CallId, Verdict, Reported,
         InjectLoopWarning, LastOutput;
  }

  /** A run ends with an answer only if that is what a planner or the evaluator said in the turn before the last. */
  lemma {:induction false} AnswerHasSource(cfg: Config, memory: seq<Message>, calls: seq<Signature>, plan: Option<ActionPlan>,
                                           script: seq<Oracle>, answer: string, messages: seq<Message>) returns (k: nat)
    requires RunFromStart(cfg, Start(cfg, memory, calls, plan), script).result == Some(Answered(answer, messages))
    ensures var start := Start(cfg, memory, calls, plan);
            && GoesOn(cfg, start, script, k) && GoesOn(cfg, start, script, k + 1)
            && At(cfg, start, script, k + 1).state.StateCompleting?
            && Step(cfg, At(cfg, start, script, k + 1), script[k + 1]).result == Some(Answered(answer, messages))
            && (PlannerAnswers(cfg, At(cfg, start, script, k), script[k], At(cfg, start, script, k + 1), answer)
                || EvaluatorAnswers(At(cfg, start, script, k), script[k], answer))
  {
    hide Run, Step, At, LogBefore, Sound, PlannerAnswers, EvaluatorAnswers;
    var start := Start(cfg, memory, calls, plan);
    assert cfg.hasPlanner;
    var last := LastTurn(cfg, start, script);
    OnlyCompletingTurnAnswers(cfg, At(cfg, start, script, last), script[last]);
    FirstTurn(cfg, start, script);
    k := last - 1;
    TurnBefore(cfg, start, script, last);
    StartIsSound(cfg, memory, calls, plan);
    SoundAt(cfg, start, script, k);
    EvaluatesAt(cfg, start, script, k);
    CompletingComesFrom(cfg, At(cfg, start, script, k), script[k]);
  }

  lemma EvaluatesAt(cfg: Config, l: Loop, script: seq<Oracle>, k: nat)
    requires GoesOn(cfg, l, script, k) && !l.state.StateEvaluating?
    ensures At(cfg, l, script, k).state.StateEvaluating? ==> cfg.evalOn
  {
    EvaluatesOnlyIfOn(cfg, l, script[..k]);
  }

  lemma OnlyCompletingTurnAnswers(cfg: Config, l: Loop, o: Oracle)
    requires var r := Step(cfg, l, o).result; r.Some? && r.value.Answered?
    ensures l.state.StateCompleting? && Step(cfg, l, o).result.value.answer == l.completeAnswer
  {
    hide AfterPlan, FreshPlan, CompressedMemory, Settled, Added, Text.TrimSpace, CallId, Verdict, LastOutput;
  }

  /** A run fails, or counts as cancelled, only for a reason in its last turn. */
  lemma {:induction false} RunEndsBecause(cfg: Config, memory: seq<Message>, calls: seq<Signature>, plan: Option<ActionPlan>,
                                          script: seq<Oracle>) returns (k: nat)
    requires var r := RunFromStart(cfg, Start(cfg, memory, calls, plan), script).result;
             cfg.hasPlanner && r.Some? && (r.value.Failed? || r.value.Cancelled?)
    ensures var start := Start(cfg, memory, calls, plan);
            GoesOn(cfg, start, script, k)
            && var t := Step(cfg, At(cfg, start, script, k), script[k]);
               t.result == RunFromStart(cfg, start, script).result
               && Explained(cfg, At(cfg, start, script, k), script[k], t)
  {
    hide Run, Step, At, Explained;
    var start := Start(cfg, memory, calls, plan);
    k := LastTurn(cfg, start, script);
    TurnExplained(cfg, At(cfg, start, script, k), script[k]);
  }

  // ----- invalid answers -----

  /** How many turns of the run send an invalid answer back to planning. */
  function SentBack(cfg: Config, l: Loop, script: seq<Oracle>): nat
    decreases |script|
  {
    if script == [] then 0
    else
      var t := Step(cfg, l, script[0]);
      if t.result.Some? then 0
      else (if l.state.StateCompleting? then 1 else 0) + SentBack(cfg, t.loop, script[1..])
  }

  lemma TurnSpendsRetry(cfg: Config, l: Loop, o: Oracle)
    ensures var t := Step(cfg, l, o);
            && l.validateLeft == t.loop.validateLeft + (if l.state.StateCompleting? && t.result.None? then 1 else 0)
            && (t.result == Some(Failed(OutputInvalid)) ==> t.loop.validateLeft == 0)
  {
    hide PlanGenTurn, PlanReviewTurn, PlanningTurn, InterruptTurn, ExecutingTurn, EvaluatingTurn, CompletingTurn;
    PlanTurnsSpendNothing(cfg, l, o);
    GateSpendsNothing(cfg, l, o);
    ExecutionSpendsNothing(cfg, l, o);
    EvaluationSpendsNothing(cfg, l, o);
    CompletingSpendsRetry(cfg, l, o);
  }

  predicate SpendsNothing(l: Loop, t: Turn) {
    t.loop.validateLeft == l.validateLeft && t.result != Some(Failed(OutputInvalid))
  }

  lemma PlanTurnsSpendNothing(cfg: Config, l: Loop, o: Oracle)
    ensures SpendsNothing(l, PlanGenTurn(cfg, l, o)) && SpendsNothing(l, PlanReviewTurn(cfg, l, o))
    ensures SpendsNothing(l, PlanningTurn(cfg, l, o))
  {
    hide AfterPlan, FreshPlan, CompressedMemory, Added, Text.TrimSpace;
  }

  lemma GateSpendsNothing(cfg: Config, l: Loop, o: Oracle)
    ensures SpendsNothing(l, InterruptTurn(cfg, l, o))
  {
    hide Added, Text.TrimSpace, CallId;
  }

  lemma ExecutionSpendsNothing(cfg: Config, l: Loop, o: Oracle)
    ensures SpendsNothing(l, ExecutingTurn(cfg, l, o))
  {
    hide ResultMemory, Verdict, Reported, InjectLoopWarning;
  }

  lemma EvaluationSpendsNothing(cfg: Config, l: Loop, o: Oracle)
    ensures SpendsNothing(l, EvaluatingTurn(cfg, l, o))
  {
    hide FreshPlan, Text.TrimSpace, LastOutput;
  }

  lemma CompletingSpendsRetry(cfg: Config, l: Loop, o: Oracle)
    ensures var t := CompletingTurn(cfg, l, o);
            && l.validateLeft == t.loop.validateLeft + (if t.result.None? then 1 else 0)
            && (t.result == Some(Failed(OutputInvalid)) ==> t.loop.validateLeft == 0)
  {
    hide Added, Text.TrimSpace;
  }

  lemma {:induction false} RunSpendsRetries(cfg: Config, l: Loop, script: seq<Oracle>)
    ensures var t := Run(cfg, l, script);
            && l.validateLeft == t.loop.validateLeft + SentBack(cfg, l, script)
            && (t.result == Some(Failed(OutputInvalid)) ==> t.loop.validateLeft == 0)
    decreases |script|
  {
    hide Step;
    if script != [] {
      var t := Step(cfg, l, script[0]);
      TurnSpendsRetry(cfg, l, script[0]);
      if t.result.None? { RunSpendsRetries(cfg, t.loop, script[1..]); }
    }
  }

  /** A run sends at most autoRetry invalid answers back, and fails for its output only after exactly that many. */
  lemma {:induction false} InvalidAnswersSentBack(cfg: Config, memory: seq<Message>, calls: seq<Signature>, plan: Option<ActionPlan>,
                                                  script: seq<Oracle>)
    ensures var start := Start(cfg, memory, calls, plan);
            && SentBack(cfg, start, script) <= cfg.autoRetry
            && (RunFromStart(cfg, start, script).result == Some(Failed(OutputInvalid)) ==> SentBack(cfg, start, script) == cfg.autoRetry)
  {
    hide Run, SentBack;
    RunSpendsRetries(cfg, Start(cfg, memory, calls, plan), script);
  }

  // ----- the evaluator -----

  /** While the evaluator is asked, the newest event is the execution it judges. */
  ghost predicate JustExecuted(l: Loop, log: seq<Event>) {
    l.state.StateEvaluating? ==>
      l.lastExec.Some? && log != [] && log[|log| - 1] == Executed(l.lastExec.value.action, l.lastExec.value.callId)
  }

  lemma {:induction false} RunJustExecuted(cfg: Config, l: Loop, script: seq<Oracle>, log: seq<Event>)
    requires JustExecuted(l, log)
    ensures var t := Run(cfg, l, script); t.result.None? ==> JustExecuted(t.loop, log + t.events)
    decreases |script|
  {
    hide Step, Moves, Stops;
    if script == [] {
      assert log + [] == log;
    } else {
      var t := Step(cfg, l, script[0]);
      StepFollows(cfg, l, script[0]);
      if t.result.None? {
        MoveJustExecuted(cfg, l, t.loop, t.events, log);
        RunJustExecuted(cfg, t.loop, script[1..], log + t.events);
        var rest := Run(cfg, t.loop, script[1..]).events;
        assert log + t.events + rest == log + (t.events + rest);
      }
    }
  }

  lemma MoveJustExecuted(cfg: Config, l: Loop, u: Loop, events: seq<Event>, log: seq<Event>)
    requires Moves(cfg, ControlOf(l), ControlOf(u), events)
    ensures JustExecuted(u, log + events)
  {
    hide Verdict, IssuedIn, Permits;
  }

  lemma JustExecutedAt(cfg: Config, l: Loop, script: seq<Oracle>, k: nat)
    requires GoesOn(cfg, l, script, k) && !l.state.StateEvaluating?
    ensures JustExecuted(At(cfg, l, script, k), LogBefore(cfg, l, script, k))
  {
    RunJustExecuted(cfg, l, script[..k], []);
    assert [] + Run(cfg, l, script[..k]).events == Run(cfg, l, script[..k]).events;
  }

  /** The events before a turn are the beginning of the log. */
  lemma {:induction false} LogGrows(cfg: Config, l: Loop, script: seq<Oracle>, k: nat)
    requires GoesOn(cfg, l, script, k)
    ensures LogBefore(cfg, l, script, k) <= Run(cfg, l, script).events
    decreases |script|
  {
    hide Step;
    if k > 0 {
      GoesOnFromStart(cfg, l, script, k);
      LaterTurn(cfg, l, script, k - 1);
      assert script[..k][1..] == script[1..][..k - 1] && script[..k][0] == script[0];
      LogGrows(cfg, Step(cfg, l, script[0]).loop, script[1..], k - 1);
    }
  }

  /** Two executions follow each other in the log only if the evaluator wants a retry in between, and then the
      second one is the first one over again: same action, same call ID. */
  lemma {:induction false} RepeatedOnlyOnRetry(cfg: Config, memory: seq<Message>, calls: seq<Signature>, plan: Option<ActionPlan>,
                                               script: seq<Oracle>, j: nat) returns (k: nat)
    requires var log := RunFromStart(cfg, Start(cfg, memory, calls, plan), script).events;
             j + 1 < |log| && log[j].Executed? && log[j + 1].Executed?
    ensures var start := Start(cfg, memory, calls, plan);
            var log := RunFromStart(cfg, start, script).events;
            && log[j + 1] == log[j]
            && GoesOn(cfg, start, script, k) && |LogBefore(cfg, start, script, k)| == j + 1
            && At(cfg, start, script, k).state.StateEvaluating?
            && script[k].evaluated.Given? && script[k].evaluated.value.decision.DecisionRetry?
  {
    hide Run, Step, Moves, Stops, At, LogBefore;
    assert cfg.hasPlanner;
    var start := Start(cfg, memory, calls, plan);
    var log := Run(cfg, start, script).events;
    var n := TurnOfEvent(cfg, start, script, j + 1);
    var l := At(cfg, start, script, n);
    var u := Step(cfg, l, script[n]);
    EventsAreHonest(cfg, l, script[n], u);
    StepFollows(cfg, l, script[n]);
    OneEventAtMost(cfg, l, u);
    FirstTurn(cfg, start, script);
    k := n - 1;
    TurnBefore(cfg, start, script, n);
    EvaluatesAt(cfg, start, script, k);
    var g := At(cfg, start, script, k);
    StepFollows(cfg, g, script[k]);
    LogGrows(cfg, start, script, n);
    var t := Step(cfg, g, script[k]);
    LeadsToExecuting(cfg, g, t);
    assert log[j] == (LogBefore(cfg, start, script, k) + t.events)[j];
    JustExecutedAt(cfg, start, script, k);
    RetryLeads(cfg, g, script[k]);
  }

  lemma OneEventAtMost(cfg: Config, l: Loop, u: Turn)
    requires Follows(cfg, l, u)
    ensures |u.events| <= 1
  {
    hide Verdict, IssuedIn, Permits;
  }

  /** The executor is reached from the evaluator without an event, and else with a permit. */
  lemma LeadsToExecuting(cfg: Config, l: Loop, t: Turn)
    requires Follows(cfg, l, t) && t.result.None? && t.loop.state.StateExecuting?
    ensures (l.state.StateEvaluating? && t.events == []) || (|t.events| == 1 && !t.events[0].Executed?)
  {
    hide Verdict, IssuedIn;
  }

  /** Only a retry leads from the evaluator back to the executor. */
  lemma RetryLeads(cfg: Config, l: Loop, o: Oracle)
    requires l.state.StateEvaluating? && cfg.evalOn
    requires var t := Step(cfg, l, o); t.result.None? && t.loop.state.StateExecuting?
    ensures o.evaluated.Given? && o.evaluated.value.decision.DecisionRetry?
    ensures var u := Step(cfg, l, o).loop;
            l.lastExec.Some? && u.pending == Some(l.lastExec.value.action) && u.pendingCallId == l.lastExec.value.callId
  {
    hide Step, CompletesWith, FreshPlan;
    EvaluatingTurnLeads(cfg, l, o);
  }
}
