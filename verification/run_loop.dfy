/** agent/loop.go: the run loop as a state machine. One turn is one pass through the loop body; everything the
    loop asks of its environment during that turn is in the turn's oracle. */
module RunLoop {
  import opened Wrappers
  import opened Chat
  import opened BufferedMemory
  import opened Compressor
  import opened LoopDetection
  import opened Planner
  import Text

  datatype LoopState =
    | StateInit | StatePlanGen | StatePlanReview | StatePlanning | StateInterrupt
    | StateExecuting | StateEvaluating | StateCompleting | StateComplete | StateError

  /** What a run reads from the agent: `hasSolver` says that the plan-and-solve planner exists. */
  datatype Config = Config(
    planAndSolve: bool, hasPlanner: bool, hasSolver: bool, hasInterrupter: bool, evalOn: bool, hasSchema: bool,
    autoRetry: nat, maxIterations: nat, threshold: nat, recentTokens: int, maxMessages: int, systemPrompt: string)

  datatype HumanReply = HumanFailed(contextDone: bool) | NoReply | Reply(approved: bool, message: string, modified: Params)

  datatype ExecResult = ExecResult(output: string, error: Option<string>)

  datatype Decision = DecisionContinue | DecisionComplete | DecisionRetry | DecisionEscalate | DecisionReplan
                    | OtherDecision(code: int)

  datatype EvalResult = EvalResult(decision: Decision, feedback: string)

  datatype Oracle = Oracle(
    cancelled: bool,                  // the context is done when the turn starts
    read: bool,                       // the (first) read of the memory works
    reread: bool,                     // so does the second one
    clear: bool,                      // so does clearing it
    add: AddIO,                       // the first addition to the memory
    readd: AddIO,                     // the second one
    summary: Returned<string>,        // the compressing model's summary; an error also stands for no compression
    generated: Option<seq<RawStep>>,  // the model's plan, if one is generated
    planned: Returned<PlanResult>,    // the other planner's answer
    should: Option<bool>,             // ShouldInterrupt; None is an error
    human: HumanReply,                // WaitForHuman
    nanos: nat,                       // the clock, for the tool call ID
    executed: Returned<ExecResult>,   // Execute
    shown: string,                    // the tool result after truncation
    evaluated: Returned<EvalResult>,  // Evaluate
    invalid: Option<string>)          // output validation fails with this feedback

  datatype StepResult = StepResult(action: Action, output: string, error: Option<string>)

  datatype Snapshot = Snapshot(callId: string, action: Action)

  /** The variables of the loop, with the session's memory, detector history and plan. */
  datatype Loop = Loop(
    state: LoopState, iteration: nat, history: seq<StepResult>,
    pending: Option<Action>, pendingReasoning: string, pendingCallId: string,
    planGenFirst: Option<PlanResult>, completeAnswer: string, lastExec: Option<Snapshot>,
    evalEscalate: bool, validateLeft: nat,
    memory: seq<Message>, calls: seq<Signature>, plan: Option<ActionPlan>)

  datatype RunError =
    | NoPlanner | PlanUnavailable | MemoryFailed | PlannerFailed | InterrupterFailed | HumanTimeout
    | MaxIterationsExceeded | UnknownActionType | LoopDetected | ExecutorFailed | EvaluatorFailed | OutputInvalid

  /** How a run ends. `Panicked` stands for a dereferenced nil pointer; the loop is then
      left as the turn had it before the statement that panics. */
  datatype Outcome = Answered(answer: string, messages: seq<Message>) | Failed(error: RunError) | Cancelled | Empty | Panicked

  datatype Event =
    | PlanRound                                                      // a planning round within the cap starts
    | ReviewRejected                                                 // a human rejects the plan
    | Cleared(action: Action)                                        // the interrupter lets the call pass
    | Approved(proposed: Action, reply: HumanReply, action: Action)  // a human approves it, perhaps changed
    | Ungated(action: Action)                                        // there is no interrupter
    | Executed(action: Action, callId: string)                       // the call goes to the executor

  datatype Turn = Turn(loop: Loop, result: Option<Outcome>, events: seq<Event>)

  function Go(l: Loop): Turn {
    Turn(l, None, [])
  }

  function Halt(l: Loop, outcome: Outcome): Turn {
    Turn(l, Some(outcome), [])
  }

  function Remember(cfg: Config, l: Loop, msgs: seq<Message>, io: AddIO): Loop {
    l.(memory := Added(l.memory, msgs, cfg.maxMessages, io))
  }

  predicate Denied(h: HumanReply) {
    h.NoReply? || (h.Reply? && !h.approved)
  }

  function HumanText(h: HumanReply): string {
    if h.Reply? then h.message else ""
  }

  function InitTurn(cfg: Config, l: Loop): Turn {
    Go(l.(state := if cfg.planAndSolve then StatePlanGen else StatePlanning))
  }

  function PlanGenTurn(cfg: Config, l: Loop, o: Oracle): Turn {
    if !cfg.hasSolver then Halt(l, Failed(PlanUnavailable))
    else if !o.read then Halt(l, Failed(MemoryFailed))
    else if l.plan.None? then
      var (answer, plan) := AfterPlan(None, o.generated);
      if answer.PlanFailed? then Halt(l.(plan := plan), Failed(PlannerFailed))
      else Go(l.(plan := plan, planGenFirst := Some(answer.result), state := StatePlanReview))
    else Go(l.(state := StatePlanReview))
  }

  function PlanReviewTurn(cfg: Config, l: Loop, o: Oracle): Turn {
    if !cfg.hasInterrupter || o.should == Some(false) then Go(l.(state := StatePlanning))
    else if o.should.None? then Halt(l, Failed(InterrupterFailed))
    else if o.human.HumanFailed? then
      Halt(l, if o.human.contextDone then Cancelled else Failed(InterrupterFailed))
    else if Denied(o.human) then
      var l1 := Remember(cfg, l, [Plain(User, "Plan review rejected: " + HumanText(o.human))], o.add);
      if !o.read then Halt(l1, Failed(MemoryFailed))
      else if !cfg.hasSolver then Halt(l1, Panicked)
      else
        var l2 := l1.(plan := FreshPlan(o.generated));
        if l2.plan.None? then Halt(l2, Failed(PlannerFailed))
        else Turn(l2, None, [ReviewRejected])
    else Go(l.(state := StatePlanning))
  }

  /** The memory after the compression step of a planning round. */
  function CompressedMemory(cfg: Config, memory: seq<Message>, o: Oracle): seq<Message> {
    if !o.summary.Given? then memory
    else
      var list := Compressed([Plain(System, cfg.systemPrompt)] + memory, o.summary.value);
      Added(if o.clear then [] else memory, list[1..], cfg.maxMessages, o.add)
  }

  function PlanningTurn(cfg: Config, l: Loop, o: Oracle): Turn {
    var l1 := l.(iteration := l.iteration + 1);
    if l1.iteration > cfg.maxIterations then Halt(l1, Failed(MaxIterationsExceeded))
    else if !o.read then Turn(l1, Some(Failed(MemoryFailed)), [PlanRound])
    else if o.summary.Nil? then Turn(l1, Some(Panicked), [PlanRound])
    else
      var l2 := l1.(memory := CompressedMemory(cfg, l.memory, o));
      if o.summary.Given? && !o.reread then Turn(l2, Some(Failed(MemoryFailed)), [PlanRound])
      else AskTurn(cfg, l2, o)
  }

  /** Obtains the next action: the one kept from generating the plan, or a planner's. */
  function AskTurn(cfg: Config, l: Loop, o: Oracle): Turn {
    if l.planGenFirst.Some? then Propose(l.(planGenFirst := None), l.planGenFirst.value)
    else if cfg.planAndSolve then
      if !cfg.hasSolver then Turn(l, Some(Panicked), [PlanRound])
      else
        var (answer, plan) := AfterPlan(l.plan, o.generated);
        if answer.PlanFailed? then Turn(l.(plan := plan), Some(Failed(PlannerFailed)), [PlanRound])
        else Propose(l.(plan := plan), answer.result)
    else if o.planned.Erred? then Turn(l, Some(Failed(PlannerFailed)), [PlanRound])
    else if o.planned.Nil? then Turn(l, Some(Panicked), [PlanRound])
    else Propose(l, o.planned.value)
  }

  /** Takes up a planner's answer, at the end of a planning round. */
  function Propose(l: Loop, res: PlanResult): Turn {
    var l1 := l.(pendingReasoning := res.reasoning, pending := Some(res.action));
    match res.action.typ
    case ToolCallAction | AskHumanAction => Turn(l1.(state := StateInterrupt), None, [PlanRound])
    case FinalAnswerAction =>
      Turn(l1.(completeAnswer := Text.TrimSpace(res.action.answer), state := StateCompleting), None, [PlanRound])
    case UnknownAction(_) => Turn(l1, Some(Failed(UnknownActionType)), [PlanRound])
  }

  function EscalationTurn(cfg: Config, l: Loop, o: Oracle): Turn {
    var back := l.(evalEscalate := false, pending := None, state := StatePlanning);
    if !cfg.hasInterrupter || o.should == Some(false) then Go(back)
    else if o.should.None? then Halt(l, Failed(InterrupterFailed))
    else if o.human.HumanFailed? then Halt(l, if o.human.contextDone then Cancelled else Failed(HumanTimeout))
    else if Denied(o.human) then
      Go(Remember(cfg, back, [Plain(User, "Escalation review: " + HumanText(o.human))], o.add))
    else Go(back)
  }

  const NO_HUMAN := "(no human interrupter; provide answer in next turn if needed)"
  const SKIPPED := "(interrupt skipped by interrupter)"

  /** Records a question to the user with its answer. */
  function QuestionTurn(cfg: Config, l: Loop, question: string, answer: string, o: Oracle): Turn {
    var exchange := [Plain(Assistant, Text.TrimSpace(question)), Plain(User, answer)];
    Go(Remember(cfg, l, exchange, o.add).(state := StatePlanning))
  }

  function CallId(iteration: nat, nanos: nat): string {
    "tc_" + Text.Itoa(iteration) + "_" + Text.Itoa(nanos)
  }

  /** Announces a tool call that may be executed. */
  function AnnounceTurn(cfg: Config, l: Loop, action: Action, permit: Event, o: Oracle): Turn {
    var id := CallId(l.iteration, o.nanos);
    var args := if action.toolInput.NilParams? then Params("{}") else action.toolInput;
    var call := Message(Assistant, l.pendingReasoning, [ToolCall(id, action.toolName, args)], "", "");
    Turn(Remember(cfg, l, [call], o.add).(pending := Some(action), pendingCallId := id, state := StateExecuting),
         None, [permit])
  }

  /** The action with the input a human put in place of the proposed one. */
  function Revised(a: Action, modified: Params): Action {
    if modified != NilParams && a.typ.ToolCallAction? then a.(toolInput := modified) else a
  }

  function InterruptTurn(cfg: Config, l: Loop, o: Oracle): Turn {
    if l.pending.None? then Halt(l, Panicked)
    else if l.evalEscalate then EscalationTurn(cfg, l, o)
    else
      var a := l.pending.value;
      if !cfg.hasInterrupter then
        if a.typ.AskHumanAction? then QuestionTurn(cfg, l, a.answer, NO_HUMAN, o)
        else AnnounceTurn(cfg, l, a, Ungated(a), o)
      else if o.should.None? then Halt(l, Failed(InterrupterFailed))
      else if !o.should.value then
        if a.typ.AskHumanAction? then QuestionTurn(cfg, l, a.answer, SKIPPED, o)
        else AnnounceTurn(cfg, l, a, Cleared(a), o)
      else if o.human.HumanFailed? then Halt(l, if o.human.contextDone then Cancelled else Failed(HumanTimeout))
      else if Denied(o.human) then
        Go(Remember(cfg, l, [Plain(User, "Action denied or revised: " + HumanText(o.human))], o.add)
           .(state := StatePlanning))
      else if a.typ.AskHumanAction? then QuestionTurn(cfg, l, a.answer, o.human.message, o)
      else
        var b := Revised(a, o.human.modified);
        AnnounceTurn(cfg, l, b, Approved(a, o.human, b), o)
  }

  /** The memory after a tool result has been added and the list tidied. */
  function ResultMemory(cfg: Config, memory: seq<Message>, result: Message, o: Oracle): seq<Message> {
    var ms := Added(memory, [result], cfg.maxMessages, o.add);
    if !o.read then ms
    else Added(if o.clear then [] else ms, Tidied(ms, cfg.recentTokens), cfg.maxMessages, o.readd)
  }

  function ExecutingTurn(cfg: Config, l: Loop, o: Oracle): Turn {
    if l.pending.None? then Halt(l, Panicked)
    else
      var a := l.pending.value;
      var l1 := l.(calls := l.calls + [Signature(a.toolName, a.toolInput)]);
      var status := Verdict(cfg.threshold, l1.calls);
      if status.LoopTerminate? then Halt(l1, Failed(LoopDetected))
      else if o.executed.Erred? then Turn(l1, Some(Failed(ExecutorFailed)), [Executed(a, l.pendingCallId)])
      else if o.executed.Nil? then Turn(l1, Some(Panicked), [Executed(a, l.pendingCallId)])
      else Turn(Settled(cfg, l1, a, status, o.executed.value, o), None, [Executed(a, l.pendingCallId)])
  }

  /** The loop after an execution has returned. */
  function Settled(cfg: Config, l: Loop, a: Action, status: LoopStatus, res: ExecResult, o: Oracle): Loop {
    var out := if status.LoopWarning? then InjectLoopWarning(o.shown, a.toolName, cfg.threshold) else o.shown;
    var result := Message(Tool, out, [], l.pendingCallId, a.toolName);
    l.(lastExec := Some(Snapshot(l.pendingCallId, a)),
       memory := ResultMemory(cfg, l.memory, result, o),
       history := l.history + [StepResult(a, res.output, res.error)],
       plan := if !(cfg.planAndSolve && cfg.hasSolver) then l.plan
               else if res.error.Some? then Reported(l.plan, StepFailed, res.error.value)
               else Reported(l.plan, StepDone, res.output),
       pending := None, pendingCallId := "",
       state := if cfg.evalOn then StateEvaluating else StatePlanning)
  }

  predicate Blank(r: StepResult) {
    Text.TrimSpace(r.output) == ""
  }

  /** The newest output that is not blank, or none. */
  function LastOutput(history: seq<StepResult>): (out: string)
    ensures out == "" ==> forall j :: 0 <= j < |history| ==> Blank(history[j])
    ensures out != "" ==> exists i :: 0 <= i < |history| && history[i].output == out && !Blank(history[i])
                                      && forall j :: i < j < |history| ==> Blank(history[j])
  {
    if history == [] then ""
    else
      var last := history[|history| - 1].output;
      if Text.TrimSpace(last) != "" then last else LastOutput(history[..|history| - 1])
  }

  function EvaluatingTurn(cfg: Config, l: Loop, o: Oracle): Turn {
    if !cfg.evalOn then Go(l.(state := StatePlanning))
    else if !o.read then Halt(l, Failed(MemoryFailed))
    else if o.evaluated.Erred? then Halt(l, Failed(EvaluatorFailed))
    else if o.evaluated.Nil? then Halt(l, Panicked)
    else
      var ev := o.evaluated.value;
      match ev.decision
      case DecisionContinue => Go(l.(state := StatePlanning))
      case DecisionComplete =>
        Go(l.(completeAnswer := if Text.TrimSpace(ev.feedback) != "" then Text.TrimSpace(ev.feedback)
                                else LastOutput(l.history),
              state := StateCompleting))
      case DecisionRetry =>
        if l.lastExec.Some? then
          Go(l.(pending := Some(l.lastExec.value.action), pendingCallId := l.lastExec.value.callId,
                pendingReasoning := "", state := StateExecuting))
        else Go(l.(state := StatePlanning))
      case DecisionEscalate =>
        Go(l.(evalEscalate := true,
              pending := if l.pending.None? && l.lastExec.Some? then Some(l.lastExec.value.action) else l.pending,
              state := StateInterrupt))
      case DecisionReplan =>
        if !(cfg.planAndSolve && cfg.hasSolver) then Go(l.(state := StatePlanning))
        else if !o.reread then Halt(l, Failed(MemoryFailed))
        else
          var l1 := l.(plan := FreshPlan(o.generated));
          if l1.plan.None? then Halt(l1, Failed(PlannerFailed))
          else Go(l1.(planGenFirst := None, state := StatePlanGen))
      case OtherDecision(_) => Go(l.(state := StatePlanning))
  }

  function CompletingTurn(cfg: Config, l: Loop, o: Oracle): Turn {
    var l1 := if Text.TrimSpace(l.completeAnswer) == "" then l
              else Remember(cfg, l, [Plain(Assistant, l.completeAnswer)], o.add);
    if cfg.hasSchema && o.invalid.Some? then
      if l.validateLeft > 0 then
        Go(Remember(cfg, l1, [Plain(User, o.invalid.value)], o.readd)
           .(validateLeft := l.validateLeft - 1, state := StatePlanning))
      else Halt(l1, Failed(OutputInvalid))
    else if !o.read then Halt(l1, Failed(MemoryFailed))
    else Halt(l1, Answered(l.completeAnswer, l1.memory))
  }

  function Step(cfg: Config, l: Loop, o: Oracle): Turn {
    if o.cancelled then Halt(l, Cancelled)
    else
      match l.state
      case StateInit => InitTurn(cfg, l)
      case StatePlanGen => PlanGenTurn(cfg, l, o)
      case StatePlanReview => PlanReviewTurn(cfg, l, o)
      case StatePlanning => PlanningTurn(cfg, l, o)
      case StateInterrupt => InterruptTurn(cfg, l, o)
      case StateExecuting => ExecutingTurn(cfg, l, o)
      case StateEvaluating => EvaluatingTurn(cfg, l, o)
      case StateCompleting => CompletingTurn(cfg, l, o)
      case StateComplete => Halt(l, Empty)
      case StateError => Halt(l, Empty)
  }

  /** Turns until the run ends or the script does. */
  function Run(cfg: Config, l: Loop, script: seq<Oracle>): Turn
    decreases |script|
  {
    if script == [] then Go(l)
    else
      var t := Step(cfg, l, script[0]);
      if t.result.Some? then t
      else var r := Run(cfg, t.loop, script[1..]); Turn(r.loop, r.result, t.events + r.events)
  }

  /** A new run on the session's memory, recorded calls and plan. */
  function Start(cfg: Config, memory: seq<Message>, calls: seq<Signature>, plan: Option<ActionPlan>): Loop {
    Loop(StateInit, 0, [], None, "", "", None, "", None, false, cfg.autoRetry, memory, calls, plan)
  }

  function RunFromStart(cfg: Config, start: Loop, script: seq<Oracle>): Turn {
    if !cfg.hasPlanner then Halt(start, Failed(NoPlanner)) else Run(cfg, start, script)
  }
}
