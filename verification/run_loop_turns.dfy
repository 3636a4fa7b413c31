/** What a turn leaves behind for every answer of its environment, with a memory that neither trims nor fails. */
module RunLoopTurns {
  import opened Wrappers
  import opened Chat
  import opened BufferedMemory
  import opened Compressor
  import opened LoopDetection
  import opened Planner
  import opened RunLoop
  import opened RunLoopControl
  import opened RunLoopPlan
  import opened RunLoopTranscript
  import Text

  /** What the human said, if anything. */
  function Said(h: HumanReply): string {
    match h
    case Reply(_, message, _) => message
    case _ => ""
  }

  predicate Approves(h: HumanReply) {
    match h
    case Reply(approved, _, _) => approved
    case _ => false
  }

  /** A human is asked at the gate and answers at all. */
  predicate HumanAsked(cfg: Config, o: Oracle) {
    cfg.hasInterrupter && o.should.Some? && o.should.value
  }

  /** At the gate a call is announced and goes to the executor, and a question is recorded with its answer, unless
      a human who is asked does not approve, which is recorded too. */
  lemma GateTurn(cfg: Config, l: Loop, o: Oracle)
    requires cfg.maxMessages <= 0 && Faultless(o) && !o.cancelled
    requires l.state.StateInterrupt? && !l.evalEscalate && l.pending.Some?
    requires cfg.hasInterrupter ==> o.should.Some?
    requires HumanAsked(cfg, o) ==> !o.human.HumanFailed?
    ensures var (t, p, asked) := (Step(cfg, l, o), l.pending.value, HumanAsked(cfg, o));
            && t.result.None?
            && (asked && !Approves(o.human) ==>
                  t.loop == l.(state := StatePlanning,
                               memory := l.memory + [Plain(User, "Action denied or revised: " + Said(o.human))]))
            && (!(asked && !Approves(o.human)) && p.typ.AskHumanAction? ==>
                  t.loop == l.(state := StatePlanning,
                               memory := l.memory + [Plain(Assistant, Text.TrimSpace(p.answer)),
                                                     Plain(User, if asked then Said(o.human)
                                                                 else if cfg.hasInterrupter then "(interrupt skipped by interrupter)"
                                                                 else "(no human interrupter; provide answer in next turn if needed)")]))
  {
    hide AnnounceTurn, Text.TrimSpace;
    GateAnnounces(cfg, l, l.pending.value, Ungated(l.pending.value), o);
    GateAnnounces(cfg, l, l.pending.value, Cleared(l.pending.value), o);
    if o.human.Reply? {
      var b := Revised(l.pending.value, o.human.modified);
      GateAnnounces(cfg, l, b, Approved(l.pending.value, o.human, b), o);
    }
  }

  lemma GateAnnounces(cfg: Config, l: Loop, a: Action, permit: Event, o: Oracle)
    requires cfg.maxMessages <= 0 && Faultless(o)
    ensures var t := AnnounceTurn(cfg, l, a, permit, o);
            && t.result.None?
            && Announced(l, t.loop, a)
  {
    hide CallId;
  }

  /** The conversation and the loop announce this call. */
  predicate Announced(l: Loop, u: Loop, a: Action) {
    var args := if a.toolInput == NilParams then Params("{}") else a.toolInput;
    && u.memory == l.memory + [Message(Assistant, l.pendingReasoning, [ToolCall(u.pendingCallId, a.toolName, args)], "", "")]
    && u == l.(state := StateExecuting, pending := Some(a), pendingCallId := u.pendingCallId, memory := u.memory)
  }

  /** A call that is let through is announced with the input that it is executed with. */
  lemma GateTurnAnnounces(cfg: Config, l: Loop, o: Oracle)
    requires cfg.maxMessages <= 0 && Faultless(o) && !o.cancelled
    requires l.state.StateInterrupt? && !l.evalEscalate && l.pending.Some? && l.pending.value.typ.ToolCallAction?
    requires cfg.hasInterrupter ==> o.should.Some?
    requires HumanAsked(cfg, o) ==> Approves(o.human)
    ensures var (t, p) := (Step(cfg, l, o), l.pending.value);
            && t.result.None?
            && Announced(l, t.loop, p.(toolInput := if HumanAsked(cfg, o) && o.human.modified != NilParams
                                                    then o.human.modified else p.toolInput))
  {
    hide AnnounceTurn, Announced;
    GateAnnounces(cfg, l, l.pending.value, Ungated(l.pending.value), o);
    GateAnnounces(cfg, l, l.pending.value, Cleared(l.pending.value), o);
    if o.human.Reply? {
      var b := Revised(l.pending.value, o.human.modified);
      GateAnnounces(cfg, l, b, Approved(l.pending.value, o.human, b), o);
    }
  }

  /** The text of a tool result in the memory: what the tool gave, behind a notice if the last calls repeat. */
  ghost predicate ToolText(text: string, shown: string, toolName: string, repeats: bool) {
    if !repeats then text == shown else exists notice :: IsNotice(notice, toolName) && text == notice + shown
  }

  /** An execution that returns leaves one history entry, one tool message under the call's ID, and the memory
      pruned and then compacted. */
  lemma ExecutingTurnLeaves(cfg: Config, l: Loop, o: Oracle)
    requires l.state.StateExecuting? && Step(cfg, l, o).result.None?
    ensures l.pending.Some? && o.executed.Given?
    ensures var (u, a, res) := (Step(cfg, l, o).loop, l.pending.value, o.executed.value);
            && u.history == l.history + [StepResult(a, res.output, res.error)]
            && u.calls == l.calls + [SignatureOf(a)]
            && u.lastExec == Some(Snapshot(l.pendingCallId, a)) && u.pending.None? && u.pendingCallId == ""
            && u.state == (if cfg.evalOn then StateEvaluating else StatePlanning)
            && u == l.(history := u.history, calls := u.calls, lastExec := u.lastExec, pending := None, pendingCallId := "",
                       state := u.state, memory := u.memory, plan := u.plan)
            && (cfg.maxMessages <= 0 && Faultless(o) ==>
                  exists text :: ToolText(text, o.shown, a.toolName, Repeats(u.calls, cfg.threshold))
                    && u.memory == Compacted(Pruned(l.memory + [Message(Tool, text, [], l.pendingCallId, a.toolName)]), cfg.recentTokens))
  {
    hide Reported, Compacted, Pruned, InjectLoopWarning, Repeats;
    var a := l.pending.value;
    var calls := l.calls + [SignatureOf(a)];
    var text := if Verdict(cfg.threshold, calls).LoopWarning? then InjectLoopWarning(o.shown, a.toolName, cfg.threshold) else o.shown;
    WarningText(o.shown, a.toolName, cfg.threshold);
    assert ToolText(text, o.shown, a.toolName, Repeats(calls, cfg.threshold));
    var ms := l.memory + [Message(Tool, text, [], l.pendingCallId, a.toolName)];
    assert [] + Compacted(Pruned(ms), cfg.recentTokens) == Compacted(Pruned(ms), cfg.recentTokens);
  }

  lemma WarningText(shown: string, toolName: string, threshold: nat)
    ensures ToolText(InjectLoopWarning(shown, toolName, threshold), shown, toolName, true)
  {
    hide IsNotice, InjectLoopWarning;
    var _ := WarningKeepsResult(shown, toolName, threshold);
  }

  /** What each decision of the evaluator leads to. */
  lemma EvaluatingTurnLeads(cfg: Config, l: Loop, o: Oracle)
    requires l.state.StateEvaluating? && cfg.evalOn && Step(cfg, l, o).result.None?
    ensures o.evaluated.Given?
    ensures var (u, ev) := (Step(cfg, l, o).loop, o.evaluated.value);
            var canReplan := cfg.planAndSolve && cfg.hasSolver;
            && (ev.decision.DecisionRetry? && l.lastExec.Some? ==>
                  u == l.(state := StateExecuting, pending := Some(l.lastExec.value.action),
                          pendingCallId := l.lastExec.value.callId, pendingReasoning := ""))
            && (ev.decision.DecisionEscalate? ==>
                  u == l.(state := StateInterrupt, evalEscalate := true,
                          pending := if l.pending.None? && l.lastExec.Some? then Some(l.lastExec.value.action) else l.pending))
            && (ev.decision.DecisionReplan? && canReplan ==>
                  u.plan.Some? && u == l.(state := StatePlanGen, planGenFirst := None, plan := FreshPlan(o.generated)))
            && (ev.decision.DecisionComplete? ==>
                  u == l.(state := StateCompleting, completeAnswer := u.completeAnswer)
                  && CompletesWith(ev.feedback, l.history, u.completeAnswer))
            && (ev.decision.DecisionContinue? || ev.decision.OtherDecision? || (ev.decision.DecisionRetry? && l.lastExec.None?)
                || (ev.decision.DecisionReplan? && !canReplan) ==>
                  u == l.(state := StatePlanning))
  {
    hide FreshPlan, LastOutput, Text.TrimSpace;
  }

  /** The answer of a run that an evaluator completes: its feedback, or else the newest output that is not blank. */
  predicate CompletesWith(feedback: string, history: seq<StepResult>, answer: string) {
    if Text.TrimSpace(feedback) != "" then answer == Text.TrimSpace(feedback)
    else if forall i :: 0 <= i < |history| ==> Blank(history[i]) then answer == ""
    else exists i :: 0 <= i < |history| && history[i].output == answer && !Blank(history[i])
                     && forall j :: i < j < |history| ==> Blank(history[j])
  }

  /** Completing records the answer if it is not blank, asks for another one if it is invalid and there are
      attempts left, and otherwise ends the run with it. */
  lemma CompletingTurnLeaves(cfg: Config, l: Loop, o: Oracle)
    requires cfg.maxMessages <= 0 && Faultless(o) && !o.cancelled && l.state.StateCompleting?
    ensures var t := Step(cfg, l, o);
            var ms := if Text.TrimSpace(l.completeAnswer) == "" then l.memory
                      else l.memory + [Plain(Assistant, l.completeAnswer)];
            if !(cfg.hasSchema && o.invalid.Some?) then
              t.result == Some(Answered(l.completeAnswer, ms)) && t.loop == l.(memory := ms)
            else if l.validateLeft == 0 then
              t.result == Some(Failed(OutputInvalid)) && t.loop == l.(memory := ms)
            else
              && t.result.None?
              && t.loop == l.(memory := ms + [Plain(User, o.invalid.value)], validateLeft := l.validateLeft - 1, state := StatePlanning)
  {
    hide Text.TrimSpace;
  }

  /** Compressing keeps the leading system messages and everything from the last assistant message on, and puts
      the summary between them. */
  lemma PlanningTurnCompresses(cfg: Config, l: Loop, o: Oracle)
    requires cfg.maxMessages <= 0 && Faultless(o) && !o.cancelled
    requires l.state.StatePlanning? && l.iteration < cfg.maxIterations
    ensures var ms := Step(cfg, l, o).loop.memory;
            var (h, a) := (LeadingSystem(l.memory), LastAssistant(l.memory));
            ms == if o.summary.Given?
                  then l.memory[..h] + [Plain(User, o.summary.value)] + (if a >= 0 then l.memory[a..] else [])
                  else l.memory
  {
    hide AskTurn;
    if o.summary.Given? { CompressedBehindPrompt(cfg.systemPrompt, l.memory, o.summary.value); }
    AskKeepsMemory(cfg, l.(iteration := l.iteration + 1, memory := CompressedMemory(cfg, l.memory, o)), o);
  }

  lemma AskKeepsMemory(cfg: Config, l: Loop, o: Oracle)
    ensures AskTurn(cfg, l, o).loop.memory == l.memory
  {
    hide AfterPlan, Text.TrimSpace;
  }

  lemma CompressedBehindPrompt(prompt: string, ms: seq<Message>, summary: string)
    ensures var (h, a) := (LeadingSystem(ms), LastAssistant(ms));
            var out := Compressed([Plain(System, prompt)] + ms, summary);
            out != [] && [] + out[1..] == ms[..h] + [Plain(User, summary)] + (if a >= 0 then ms[a..] else [])
  {
    hide LeadingSystem, LastAssistant;
    var sys := Plain(System, prompt);
    var all := [sys] + ms;
    LeadingSystemBehind(sys, ms);
    LastAssistantBehind(sys, ms);
    var (h, a) := (LeadingSystem(ms), LastAssistant(ms));
    var recent := if a >= 0 then ms[a..] else [];
    BehindFirst(sys, ms, h);
    if a >= 0 { BehindFirst(sys, ms, a); }
    assert Compressed(all, summary) == [sys] + ms[..h] + [Plain(User, summary)] + recent;
    DropFirst(sys, ms[..h], [Plain(User, summary)], recent);
  }

  lemma BehindFirst(m: Message, ms: seq<Message>, i: nat)
    requires i <= |ms|
    ensures ([m] + ms)[..i + 1] == [m] + ms[..i] && ([m] + ms)[i + 1..] == ms[i..]
  {
  }

  lemma DropFirst(m: Message, a: seq<Message>, b: seq<Message>, c: seq<Message>)
    ensures [] + ([m] + a + b + c)[1..] == a + b + c
  {
    assert [m] + a + b + c == [m] + (a + b + c);
  }

  lemma LeadingSystemBehind(m: Message, ms: seq<Message>)
    requires m.role.System?
    ensures LeadingSystem([m] + ms) == 1 + LeadingSystem(ms)
  {
    assert ([m] + ms)[1..] == ms;
  }

  lemma LastAssistantBehind(m: Message, ms: seq<Message>)
    requires !m.role.Assistant?
    ensures LastAssistant([m] + ms) == if LastAssistant(ms) >= 0 then LastAssistant(ms) + 1 else -1
  {
    hide LastAssistant;
    var all, a := [m] + ms, LastAssistant(ms);
    var b := if a >= 0 then a + 1 else -1;
    assert forall k :: b < k < |all| ==> k == 0 || all[k] == ms[k - 1];
    LastAssistantIs(all, b);
  }

  lemma LastAssistantIs(ms: seq<Message>, i: int)
    requires -1 <= i < |ms| && (i >= 0 ==> ms[i].role.Assistant?)
    requires forall k :: i < k < |ms| ==> !ms[k].role.Assistant?
    ensures LastAssistant(ms) == i
  {
    hide LastAssistant;
  }

  /** What is proposed comes with its reasoning: the planner's, or the description of the step that is handed out. */
  lemma PlanningTurnProposes(cfg: Config, l: Loop, o: Oracle)
    requires l.state.StatePlanning? && Step(cfg, l, o).result.None?
    ensures var u := Step(cfg, l, o).loop;
            && u.pending.Some?
            && (var a := u.pending.value;
                && u.state == (if a.typ.FinalAnswerAction? then StateCompleting else StateInterrupt)
                && (a.typ.FinalAnswerAction? ==> u.completeAnswer == Text.TrimSpace(a.answer))
                && (l.planGenFirst.Some? ==> PlanResult(a, u.pendingReasoning) == l.planGenFirst.value)
                && (l.planGenFirst.None? && !cfg.planAndSolve ==>
                      o.planned.Given? && PlanResult(a, u.pendingReasoning) == o.planned.value)
                && (l.planGenFirst.None? && cfg.planAndSolve && l.plan.Some? && u.plan != l.plan ==>
                      var steps := l.plan.value.steps;
                      FirstUnfinished(steps) < |steps| && u.pendingReasoning == steps[FirstUnfinished(steps)].description))
            && u.history == l.history && u.calls == l.calls && u.lastExec == l.lastExec && u.validateLeft == l.validateLeft
  {
    hide AfterPlan, CompressedMemory, Text.TrimSpace;
    if l.plan.Some? { ReasonIsDescription(l.plan.value, o.generated); }
    var (x, p) := AfterPlan(l.plan, o.generated);
    if l.planGenFirst.None? && cfg.planAndSolve {
      assert x.Planned? && Step(cfg, l, o).loop.plan == p;
    }
  }

  lemma ReasonIsDescription(plan: ActionPlan, generated: Option<seq<RawStep>>)
    ensures var (x, p) := AfterPlan(Some(plan), generated);
            x.Planned? && p != Some(plan) ==>
              FirstUnfinished(plan.steps) < |plan.steps|
              && x.result.reasoning == plan.steps[FirstUnfinished(plan.steps)].description
  {
    hide SummarizeResults;
  }

  /** A review lets the plan pass unless a human who is asked does not approve; then it is replaced. */
  lemma ReviewTurnLeads(cfg: Config, l: Loop, o: Oracle)
    requires cfg.maxMessages <= 0 && Faultless(o) && !o.cancelled
    requires l.state.StatePlanReview? && cfg.hasSolver
    requires cfg.hasInterrupter ==> o.should.Some?
    requires HumanAsked(cfg, o) ==> !o.human.HumanFailed?
    ensures var t := Step(cfg, l, o);
            if HumanAsked(cfg, o) && !Approves(o.human) then
              && t.loop == l.(memory := l.memory + [Plain(User, "Plan review rejected: " + Said(o.human))], plan := FreshPlan(o.generated))
              && t.result == (if FreshPlan(o.generated).Some? then None else Some(Failed(PlannerFailed)))
            else t.result.None? && t.loop == l.(state := StatePlanning)
  {
    hide FreshPlan;
  }

  /** An escalation asks the human, records a refusal, and goes back to planning without the action. */
  lemma EscalationTurnLeads(cfg: Config, l: Loop, o: Oracle)
    requires cfg.maxMessages <= 0 && Faultless(o) && !o.cancelled
    requires l.state.StateInterrupt? && l.evalEscalate && l.pending.Some?
    requires cfg.hasInterrupter ==> o.should.Some?
    requires HumanAsked(cfg, o) ==> !o.human.HumanFailed?
    ensures var t := Step(cfg, l, o);
            && t.result.None?
            && t.loop == l.(state := StatePlanning, evalEscalate := false, pending := None,
                            memory := if HumanAsked(cfg, o) && !Approves(o.human)
                                      then l.memory + [Plain(User, "Escalation review: " + Said(o.human))] else l.memory)
  {
  }

  // ----- why a turn ends the run -----

  /** What must have happened in a turn that ends the run with this error. */
  predicate Cause(cfg: Config, l: Loop, o: Oracle, e: RunError) {
    match e
    case NoPlanner => false
    case PlanUnavailable => l.state.StatePlanGen? && !cfg.hasSolver
    case MemoryFailed =>
      || (!o.read && (l.state.StatePlanGen? || l.state.StatePlanReview? || l.state.StatePlanning? || l.state.StateEvaluating?
                      || l.state.StateCompleting?))
      || (!o.reread && ((l.state.StatePlanning? && o.summary.Given?) || l.state.StateEvaluating?))
    case PlannerFailed =>
      || ((l.state.StatePlanGen? || l.state.StatePlanReview? || l.state.StateEvaluating?) && FreshPlan(o.generated).None?)
      || (l.state.StatePlanning? && l.planGenFirst.None?
          && if cfg.planAndSolve then AfterPlan(l.plan, o.generated).0.PlanFailed? else o.planned.Erred?)
    case InterrupterFailed =>
      && cfg.hasInterrupter && (l.state.StatePlanReview? || l.state.StateInterrupt?)
      && (o.should.None? || (o.should.value && l.state.StatePlanReview? && o.human == HumanFailed(false)))
    case HumanTimeout => HumanAsked(cfg, o) && l.state.StateInterrupt? && o.human == HumanFailed(false)
    case MaxIterationsExceeded => l.state.StatePlanning? && l.iteration >= cfg.maxIterations
    case UnknownActionType => l.state.StatePlanning?
    case LoopDetected =>
      && l.state.StateExecuting? && l.pending.Some?
      && (cfg.threshold >= 2 ==> Repeats(l.calls + [SignatureOf(l.pending.value)], cfg.threshold + 1))
    case ExecutorFailed => l.state.StateExecuting? && o.executed.Erred?
    case EvaluatorFailed => l.state.StateEvaluating? && o.evaluated.Erred?
    case OutputInvalid => l.state.StateCompleting? && cfg.hasSchema && o.invalid.Some? && l.validateLeft == 0
  }

  ghost predicate Explained(cfg: Config, l: Loop, o: Oracle, t: Turn) {
    && (t.result.Some? && t.result.value.Failed? ==> Cause(cfg, l, o, t.result.value.error))
    && (t.result.Some? && t.result.value.Cancelled? ==>
          o.cancelled || (HumanAsked(cfg, o) && o.human == HumanFailed(true) && (l.state.StatePlanReview? || l.state.StateInterrupt?)))
  }

  lemma PlanTurnsExplained(cfg: Config, l: Loop, o: Oracle)
    requires !o.cancelled
    ensures l.state.StatePlanGen? ==> Explained(cfg, l, o, PlanGenTurn(cfg, l, o))
    ensures l.state.StatePlanReview? ==> Explained(cfg, l, o, PlanReviewTurn(cfg, l, o))
    ensures l.state.StatePlanning? ==> Explained(cfg, l, o, PlanningTurn(cfg, l, o))
  {
    hide FreshPlan, AfterPlan, Added, CompressedMemory, Text.TrimSpace, Repeats;
    PlanningHandsOut(None, o.generated);
  }

  lemma GateTurnExplained(cfg: Config, l: Loop, o: Oracle)
    requires !o.cancelled && l.state.StateInterrupt?
    ensures Explained(cfg, l, o, InterruptTurn(cfg, l, o))
  {
    hide FreshPlan, AfterPlan, Added, Text.TrimSpace, CallId, Repeats;
  }

  lemma ExecutingTurnExplained(cfg: Config, l: Loop, o: Oracle)
    requires !o.cancelled && l.state.StateExecuting?
    ensures Explained(cfg, l, o, ExecutingTurn(cfg, l, o))
  {
    hide Settled, Verdict, Repeats, FreshPlan, AfterPlan;
    if l.pending.Some? && cfg.threshold >= 2 { VerdictCountsRepeats(cfg.threshold, l.calls + [SignatureOf(l.pending.value)]); }
  }

  lemma EndTurnsExplained(cfg: Config, l: Loop, o: Oracle)
    requires !o.cancelled
    ensures l.state.StateEvaluating? ==> Explained(cfg, l, o, EvaluatingTurn(cfg, l, o))
    ensures l.state.StateCompleting? ==> Explained(cfg, l, o, CompletingTurn(cfg, l, o))
  {
    hide LastOutput, FreshPlan, AfterPlan, Text.TrimSpace, Added, Repeats;
  }

  /** A turn ends the run with an error or as cancelled only for a reason of its own. */
  lemma TurnExplained(cfg: Config, l: Loop, o: Oracle)
    ensures Explained(cfg, l, o, Step(cfg, l, o))
  {
    hide PlanGenTurn, PlanReviewTurn, PlanningTurn, InterruptTurn, ExecutingTurn, EvaluatingTurn, CompletingTurn, Cause;
    if o.cancelled { return; }
    match l.state {
      case StatePlanGen | StatePlanReview | StatePlanning => PlanTurnsExplained(cfg, l, o);
      case StateInterrupt => GateTurnExplained(cfg, l, o);
      case StateExecuting => ExecutingTurnExplained(cfg, l, o);
      case StateEvaluating | StateCompleting => EndTurnsExplained(cfg, l, o);
      case _ =>
    }
  }
}
