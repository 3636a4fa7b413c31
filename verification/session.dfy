/** agent/session.go and the body of `runLoop` in agent/loop.go: the loop as code on the session's own objects.
    Each state's code is proved to take the turn that RunLoop describes. */
module AgentSession {
  import opened Wrappers
  import opened Chat
  import opened BufferedMemory
  import opened Compressor
  import opened LoopDetection
  import opened Planner
  import opened RunLoop
  import Text

  class Session {
    const cfg: Config
    const memory: BufferMemory
    const detector: LoopDetector
    const solver: PlanAndSolvePlanner?

    var state: LoopState
    var iteration: nat
    var history: seq<StepResult>
    var pendingAction: Option<Action>
    var pendingReasoning: string
    var pendingToolCallID: string
    var planGenFirst: Option<PlanResult>
    var completeAnswer: string
    var lastExec: Option<Snapshot>
    var evalEscalate: bool
    var validateLeft: nat

    ghost var log: seq<Event>

    ghost predicate Valid()
      reads this, memory, detector
    {
      && memory.maxSize == cfg.maxMessages
      && detector.threshold == cfg.threshold && detector.Valid()
      && (cfg.hasSolver <==> solver != null)
    }

    ghost function Plan(): Option<ActionPlan>
      reads this, solver
    {
      if solver == null then None else solver.plan
    }

    ghost function Abs(): Loop
      reads this, memory, memory.store, detector, solver
    {
      Loop(state, iteration, history, pendingAction, pendingReasoning, pendingToolCallID, planGenFirst,
           completeAnswer, lastExec, evalEscalate, validateLeft, memory.store.messages, detector.history, Plan())
    }

    constructor (cfg: Config, memory: BufferMemory, detector: LoopDetector, solver: PlanAndSolvePlanner?)
      requires memory.maxSize == cfg.maxMessages && detector.threshold == cfg.threshold && detector.Valid()
      requires cfg.hasSolver <==> solver != null
      ensures Valid() && this.cfg == cfg && this.memory == memory && this.detector == detector && this.solver == solver
      ensures Abs() == Start(cfg, memory.store.messages, detector.history, Plan()) && log == []
    {
      this.cfg, this.memory, this.detector, this.solver := cfg, memory, detector, solver;
      state, iteration, history := StateInit, 0, [];
      pendingAction, pendingReasoning, pendingToolCallID := None, "", "";
      planGenFirst, completeAnswer, lastExec, evalEscalate := None, "", None, false;
      validateLeft := cfg.autoRetry;
      log := [];
    }

    method AddToMemory(io: AddIO, msgs: seq<Message>)
      requires Valid()
      modifies memory.store
      ensures Valid() && Abs() == Remember(cfg, old(Abs()), msgs, io)
    {
      var _ := memory.Add(io, msgs);
    }

    method RunPlanGen(o: Oracle) returns (result: Option<Outcome>)
      requires Valid()
      modifies this, solver
      ensures Valid()
      ensures old(log) <= log && Turn(Abs(), result, log[|old(log)|..]) == PlanGenTurn(cfg, old(Abs()), o)
    {
      hide Text.TrimSpace, AfterPlan;
      if solver == null {
        return Some(Failed(PlanUnavailable));
      }
      var ok, _ := memory.Messages(o.read);
      if !ok { return Some(Failed(MemoryFailed)); }
      if solver.plan == None {
        var res := solver.Plan(o.generated);
        if res.PlanFailed? { return Some(Failed(PlannerFailed)); }
        planGenFirst := Some(res.result);
      }
      state := StatePlanReview;
      return None;
    }

    method RunPlanReview(o: Oracle) returns (result: Option<Outcome>)
      requires Valid()
      modifies this, memory.store, solver
      ensures Valid()
      ensures old(log) <= log && Turn(Abs(), result, log[|old(log)|..]) == PlanReviewTurn(cfg, old(Abs()), o)
    {
      hide Added, FreshPlan;
      if cfg.hasInterrupter {
        if o.should == None { return Some(Failed(InterrupterFailed)); }
        if o.should.value {
          if o.human.HumanFailed? {
            return Some(if o.human.contextDone then Cancelled else Failed(InterrupterFailed));
          }
          if o.human.NoReply? || !o.human.approved {
            var msg := "";
            if o.human.Reply? { msg := o.human.message; }
            AddToMemory(o.add, [Plain(User, "Plan review rejected: " + msg)]);
            var ok, _ := memory.Messages(o.read);
            if !ok { return Some(Failed(MemoryFailed)); }
            if solver == null { return Some(Panicked); }
            ok := solver.Replan(o.generated);
            if !ok { return Some(Failed(PlannerFailed)); }
            log := log + [ReviewRejected];
            return None;
          }
        }
      }
      state := StatePlanning;
      return None;
    }

    method TakeUp(res: PlanResult) returns (result: Option<Outcome>)
      requires Valid()
      modifies this`state, this`pendingAction, this`pendingReasoning, this`completeAnswer
      ensures Valid()
      ensures Turn(Abs(), result, [PlanRound]) == Propose(old(Abs()), res)
    {
      hide Text.TrimSpace;
      var act := res.action;
      pendingReasoning := res.reasoning;
      pendingAction := Some(act);
      match act.typ {
        case ToolCallAction | AskHumanAction =>
          state := StateInterrupt;
        case FinalAnswerAction =>
          completeAnswer := Text.TrimSpace(act.answer);
          state := StateCompleting;
        case UnknownAction(_) =>
          return Some(Failed(UnknownActionType));
      }
      return None;
    }

    /** The compression step of a planning round. */
    method CompressMemory(o: Oracle) returns (result: Option<Outcome>)
      requires Valid()
      modifies memory.store
      ensures Valid() && Abs() == old(Abs()).(memory := CompressedMemory(cfg, old(memory.store.messages), o))
      ensures !o.summary.Given? ==> Abs() == old(Abs())
      ensures result == if o.summary.Nil? then Some(Panicked)
                        else if o.summary.Given? && !o.reread then Some(Failed(MemoryFailed))
                        else None
    {
      hide Windowed;
      if o.summary.Erred? { return None; }
      if o.summary.Nil? { return Some(Panicked); }
      var mem := memory.store.messages;
      var compressed := Compress([Plain(System, cfg.systemPrompt)] + mem, o.summary.value);
      PromptLeads(mem, o.summary.value);
      var _ := memory.Clear(o.clear);
      if |compressed| > 1 {
        var _ := memory.Add(o.add, compressed[1..]);
      }
      var ok, _ := memory.Messages(o.reread);
      return if ok then None else Some(Failed(MemoryFailed));
    }

    lemma PromptLeads(ms: seq<Message>, summary: string)
      ensures |Compressed([Plain(System, cfg.systemPrompt)] + ms, summary)| > 1
    {
    }

    method RunPlanning(o: Oracle) returns (result: Option<Outcome>)
      requires Valid()
      modifies this, memory.store, solver
      ensures Valid()
      ensures old(log) <= log && Turn(Abs(), result, log[|old(log)|..]) == PlanningTurn(cfg, old(Abs()), o)
    {
      hide CompressedMemory, AskTurn;
      iteration := iteration + 1;
      if iteration > cfg.maxIterations {
        return Some(Failed(MaxIterationsExceeded));
      }
      log := log + [PlanRound];
      var ok, _ := memory.Messages(o.read);
      if !ok { return Some(Failed(MemoryFailed)); }
      result := CompressMemory(o);
      if result.Some? { return; }
      result := AskPlanner(o);
    }

    method AskPlanner(o: Oracle) returns (result: Option<Outcome>)
      requires Valid()
      modifies this, solver
      ensures Valid() && log == old(log)
      ensures Turn(Abs(), result, [PlanRound]) == AskTurn(cfg, old(Abs()), o)
    {
      hide AfterPlan, Propose;
      var res: PlanResult;
      if planGenFirst != None {
        res := planGenFirst.value;
        planGenFirst := None;
      } else if cfg.planAndSolve {
        if solver == null { return Some(Panicked); }
        var answer := solver.Plan(o.generated);
        if answer.PlanFailed? { return Some(Failed(PlannerFailed)); }
        res := answer.result;
      } else {
        if o.planned.Erred? { return Some(Failed(PlannerFailed)); }
        if o.planned.Nil? { return Some(Panicked); }
        res := o.planned.value;
      }
      result := TakeUp(res);
    }

    method RunEscalation(o: Oracle) returns (result: Option<Outcome>)
      requires Valid() && pendingAction.Some? && evalEscalate
      modifies this, memory.store
      ensures Valid() && log == old(log)
      ensures Turn(Abs(), result, []) == EscalationTurn(cfg, old(Abs()), o)
    {
      hide Added;
      if cfg.hasInterrupter {
        if o.should == None { return Some(Failed(InterrupterFailed)); }
        if o.should.value {
          if o.human.HumanFailed? {
            return Some(if o.human.contextDone then Cancelled else Failed(HumanTimeout));
          }
          if o.human.NoReply? || !o.human.approved {
            var msg := "";
            if o.human.Reply? { msg := o.human.message; }
            AddToMemory(o.add, [Plain(User, "Escalation review: " + msg)]);
          }
        }
      }
      evalEscalate := false;
      pendingAction := None;
      state := StatePlanning;
      return None;
    }

    method RecordExchange(o: Oracle, answer: string)
      requires Valid() && pendingAction.Some?
      modifies this`state, memory.store
      ensures Valid()
      ensures Turn(Abs(), None, []) == QuestionTurn(cfg, old(Abs()), pendingAction.value.answer, answer, o)
    {
      hide Added, Text.TrimSpace;
      var q := Text.TrimSpace(pendingAction.value.answer);
      AddToMemory(o.add, [Plain(Assistant, q), Plain(User, answer)]);
      state := StatePlanning;
    }

    method AnnounceCall(o: Oracle, ghost permit: Event)
      requires Valid() && pendingAction.Some?
      modifies this`state, this`pendingToolCallID, this`log, memory.store
      ensures Valid() && log == old(log) + [permit]
      ensures Turn(Abs(), None, [permit]) == AnnounceTurn(cfg, old(Abs()), pendingAction.value, permit, o)
    {
      hide Added, CallId;
      pendingToolCallID := CallId(iteration, o.nanos);
      var args := pendingAction.value.toolInput;
      if args == NilParams {
        args := Params("{}");
      }
      AddToMemory(o.add, [Message(Assistant, pendingReasoning,
                               [ToolCall(pendingToolCallID, pendingAction.value.toolName, args)], "", "")]);
      state := StateExecuting;
      log := log + [permit];
    }

    method RunInterrupt(o: Oracle) returns (result: Option<Outcome>)
      requires Valid()
      modifies this, memory.store
      ensures Valid()
      ensures old(log) <= log && Turn(Abs(), result, log[|old(log)|..]) == InterruptTurn(cfg, old(Abs()), o)
    {
      hide Added, CallId, QuestionTurn, EscalationTurn, Text.TrimSpace;
      if pendingAction == None { return Some(Panicked); }
      if evalEscalate {
        result := RunEscalation(o);
        return;
      }
      ghost var permit := Ungated(pendingAction.value);
      if cfg.hasInterrupter {
        if o.should == None { return Some(Failed(InterrupterFailed)); }
        if o.should.value {
          if o.human.HumanFailed? {
            return Some(if o.human.contextDone then Cancelled else Failed(HumanTimeout));
          }
          if o.human.NoReply? || !o.human.approved {
            var msg := "";
            if o.human.Reply? { msg := o.human.message; }
            AddToMemory(o.add, [Plain(User, "Action denied or revised: " + msg)]);
            state := StatePlanning;
            return None;
          }
          if pendingAction.value.typ == AskHumanAction {
            RecordExchange(o, o.human.message);
            return None;
          }
          ghost var proposed := pendingAction.value;
          if o.human.modified != NilParams && pendingAction.value.typ == ToolCallAction {
            pendingAction := Some(pendingAction.value.(toolInput := o.human.modified));
          }
          permit := Approved(proposed, o.human, pendingAction.value);
        } else if pendingAction.value.typ == AskHumanAction {
          RecordExchange(o, SKIPPED);
          return None;
        } else {
          permit := Cleared(pendingAction.value);
        }
      }
      if pendingAction.value.typ == AskHumanAction {
        RecordExchange(o, NO_HUMAN);
        return None;
      }
      AnnounceCall(o, permit);
      return None;
    }

    /** Adds a tool result to the memory and tidies it. */
    method StoreResult(o: Oracle, toolMessage: Message)
      requires Valid()
      modifies memory.store
      ensures Valid() && Abs() == old(Abs()).(memory := ResultMemory(cfg, old(memory.store.messages), toolMessage, o))
    {
      hide Windowed;
      var _ := memory.Add(o.add, [toolMessage]);
      var ok, msgs := memory.Messages(o.read);
      if ok {
        var pruned := PruneConsecutiveFailures(msgs);
        var compacted := CompactStaleToolResults(pruned, cfg.recentTokens);
        var _ := memory.Clear(o.clear);
        var _ := memory.Add(o.readd, compacted);
      }
    }

    /** Reports an execution on the step that is running. */
    method ReportStep(output: string, error: Option<string>)
      requires solver != null
      modifies solver
      ensures solver.plan == if error.Some? then Reported(old(solver.plan), StepFailed, error.value)
                             else Reported(old(solver.plan), StepDone, output)
    {
      if solver.plan == None { return; }
      var steps := solver.plan.value.steps;
      var i := 0;
      while i < |steps|
        invariant 0 <= i <= |steps|
        invariant forall k :: 0 <= k < i ==> !steps[k].status.StepRunning?
        invariant solver.plan == old(solver.plan)
      {
        if steps[i].status == StepRunning {
          assert i == RunningIndex(steps);
          if error != None {
            solver.MarkStepFailed(steps[i].stepId, error.value);
          } else {
            solver.MarkStepDone(steps[i].stepId, output);
          }
          return;
        }
        i := i + 1;
      }
    }

    method RunExecuting(o: Oracle) returns (result: Option<Outcome>)
      requires Valid()
      modifies this, memory.store, detector, solver
      ensures Valid()
      ensures old(log) <= log && Turn(Abs(), result, log[|old(log)|..]) == ExecutingTurn(cfg, old(Abs()), o)
    {
      hide Settled, Verdict;
      if pendingAction == None { return Some(Panicked); }
      var action := pendingAction.value;
      var loopStatus := detector.Record(action.toolName, action.toolInput);
      if loopStatus == LoopTerminate { return Some(Failed(LoopDetected)); }
      log := log + [Executed(action, pendingToolCallID)];
      if o.executed.Erred? { return Some(Failed(ExecutorFailed)); }
      if o.executed.Nil? { return Some(Panicked); }
      Settle(action, loopStatus, o.executed.value, o);
      return None;
    }

    /** Everything after the execution has returned. */
    method Settle(action: Action, loopStatus: LoopStatus, execRes: ExecResult, o: Oracle)
      requires Valid()
      modifies this, memory.store, solver
      ensures Valid() && log == old(log)
      ensures Abs() == Settled(cfg, old(Abs()), action, loopStatus, execRes, o)
    {
      hide ResultMemory, Reported, InjectLoopWarning;
      lastExec := Some(Snapshot(pendingToolCallID, action));
      var out := o.shown;
      if loopStatus == LoopWarning {
        out := InjectLoopWarning(out, action.toolName, cfg.threshold);
      }
      StoreResult(o, Message(Tool, out, [], pendingToolCallID, action.toolName));
      CloseExecution(action, execRes);
    }

    /** Books the outcome of an execution and leaves the state. */
    method CloseExecution(action: Action, execRes: ExecResult)
      requires Valid()
      modifies this, solver
      ensures Valid() && log == old(log)
      ensures Abs() == old(Abs()).(
                history := old(history) + [StepResult(action, execRes.output, execRes.error)],
                plan := if !(cfg.planAndSolve && cfg.hasSolver) then old(Plan())
                        else if execRes.error.Some? then Reported(old(Plan()), StepFailed, execRes.error.value)
                        else Reported(old(Plan()), StepDone, execRes.output),
                pending := None, pendingCallId := "",
                state := if cfg.evalOn then StateEvaluating else StatePlanning)
    {
      hide Reported;
      history := history + [StepResult(action, execRes.output, execRes.error)];
      if cfg.planAndSolve && solver != null {
        ReportStep(execRes.output, execRes.error);
      }
      pendingAction := None;
      pendingToolCallID := "";
      if cfg.evalOn {
        state := StateEvaluating;
      } else {
        state := StatePlanning;
      }
    }

    method LastOutputFromHistory() returns (out: string)
      ensures out == LastOutput(history)
    {
      var i := |history| - 1;
      assert history[..|history|] == history;
      while i >= 0
        invariant -1 <= i < |history|
        invariant LastOutput(history) == LastOutput(history[..i + 1])
      {
        assert history[..i + 1][..i] == history[..i];
        if Text.TrimSpace(history[i].output) != "" { return history[i].output; }
        i := i - 1;
      }
      return "";
    }

    method ReplanAfterEvaluation(o: Oracle) returns (result: Option<Outcome>)
      requires Valid()
      modifies this`state, this`planGenFirst, solver
      ensures Valid()
      ensures var l := old(Abs());
              Turn(Abs(), result, []) ==
                if !(cfg.planAndSolve && cfg.hasSolver) then Go(l.(state := StatePlanning))
                else if !o.reread then Halt(l, Failed(MemoryFailed))
                else if FreshPlan(o.generated).None? then Halt(l.(plan := None), Failed(PlannerFailed))
                else Go(l.(plan := FreshPlan(o.generated), planGenFirst := None, state := StatePlanGen))
    {
      hide FreshPlan;
      if !(cfg.planAndSolve && solver != null) {
        state := StatePlanning;
        return None;
      }
      var ok, _ := memory.Messages(o.reread);
      if !ok { return Some(Failed(MemoryFailed)); }
      ok := solver.Replan(o.generated);
      if !ok { return Some(Failed(PlannerFailed)); }
      planGenFirst := None;
      state := StatePlanGen;
      return None;
    }

    method RunEvaluating(o: Oracle) returns (result: Option<Outcome>)
      requires Valid()
      modifies this, solver
      ensures Valid() && log == old(log)
      ensures Turn(Abs(), result, []) == EvaluatingTurn(cfg, old(Abs()), o)
    {
      hide LastOutput, FreshPlan, Text.TrimSpace;
      if !cfg.evalOn {
        state := StatePlanning;
        return None;
      }
      var ok, msgs := memory.Messages(o.read);
      if !ok { return Some(Failed(MemoryFailed)); }
      if o.evaluated.Erred? { return Some(Failed(EvaluatorFailed)); }
      if o.evaluated.Nil? { return Some(Panicked); }
      var ev := o.evaluated.value;
      match ev.decision {
        case DecisionContinue =>
          state := StatePlanning;
        case DecisionComplete =>
          if Text.TrimSpace(ev.feedback) != "" {
            completeAnswer := Text.TrimSpace(ev.feedback);
          } else {
            completeAnswer := LastOutputFromHistory();
          }
          state := StateCompleting;
        case DecisionRetry =>
          if lastExec != None {
            pendingAction := Some(lastExec.value.action);
            pendingToolCallID := lastExec.value.callId;
            pendingReasoning := "";
            state := StateExecuting;
          } else {
            state := StatePlanning;
          }
        case DecisionEscalate =>
          evalEscalate := true;
          if pendingAction == None && lastExec != None {
            pendingAction := Some(lastExec.value.action);
          }
          state := StateInterrupt;
        case DecisionReplan =>
          result := ReplanAfterEvaluation(o);
          return;
        case OtherDecision(_) =>
          state := StatePlanning;
      }
      return None;
    }

    method RunCompleting(o: Oracle) returns (result: Option<Outcome>)
      requires Valid()
      modifies this, memory.store
      ensures Valid() && log == old(log)
      ensures Turn(Abs(), result, []) == CompletingTurn(cfg, old(Abs()), o)
    {
      hide Added, Text.TrimSpace;
      if Text.TrimSpace(completeAnswer) != "" {
        AddToMemory(o.add, [Plain(Assistant, completeAnswer)]);
      }
      if cfg.hasSchema {
        if o.invalid != None {
          if validateLeft > 0 {
            validateLeft := validateLeft - 1;
            AddToMemory(o.readd, [Plain(User, o.invalid.value)]);
            state := StatePlanning;
            return None;
          }
          return Some(Failed(OutputInvalid));
        }
      }
      var ok, msgs := memory.Messages(o.read);
      if !ok { return Some(Failed(MemoryFailed)); }
      return Some(Answered(completeAnswer, msgs));
    }

    /** One pass through the loop body. */
    method TakeTurn(o: Oracle) returns (result: Option<Outcome>)
      requires Valid()
      modifies this, memory.store, detector, solver
      ensures Valid()
      ensures old(log) <= log && Turn(Abs(), result, log[|old(log)|..]) == Step(cfg, old(Abs()), o)
    {
      hide PlanGenTurn, PlanReviewTurn, PlanningTurn, InterruptTurn, ExecutingTurn, EvaluatingTurn, CompletingTurn;
      if o.cancelled { return Some(Cancelled); }
      match state {
        case StateInit =>
          if cfg.planAndSolve { state := StatePlanGen; } else { state := StatePlanning; }
          return None;
        case StatePlanGen => result := RunPlanGen(o);
        case StatePlanReview => result := RunPlanReview(o);
        case StatePlanning => result := RunPlanning(o);
        case StateInterrupt => result := RunInterrupt(o);
        case StateExecuting => result := RunExecuting(o);
        case StateEvaluating => result := RunEvaluating(o);
        case StateCompleting => result := RunCompleting(o);
        case StateComplete | StateError => return Some(Empty);
      }
    }

    lemma LogGrows(before: seq<Event>, turn: seq<Event>, rest: seq<Event>)
      ensures before + turn + rest == before + (turn + rest)
    {
    }

    /** The loop itself, as long as the script of its environment lasts. */
    method RunScript(script: seq<Oracle>) returns (result: Option<Outcome>)
      requires Valid() && log == []
      modifies this, memory.store, detector, solver
      ensures Valid()
      ensures Turn(Abs(), result, log) == RunFromStart(cfg, old(Abs()), script)
    {
      hide Step;
      if !cfg.hasPlanner { return Some(Failed(NoPlanner)); }
      ghost var whole := Run(cfg, Abs(), script);
      var i := 0;
      assert script[0..] == script;
      while i < |script|
        invariant 0 <= i <= |script|
        invariant Valid()
        invariant var rest := Run(cfg, Abs(), script[i..]);
                  whole == Turn(rest.loop, rest.result, log + rest.events)
      {
        ghost var before := log;
        assert script[i..][0] == script[i] && script[i..][1..] == script[i + 1..];
        result := TakeTurn(script[i]);
        ghost var turn := log[|before|..];
        assert log == before + turn;
        if result != None { return; }
        LogGrows(before, turn, Run(cfg, Abs(), script[i + 1..]).events);
        i := i + 1;
      }
      return None;
    }
  }
}
