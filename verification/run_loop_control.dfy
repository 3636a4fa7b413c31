/** The moves of the run loop: what a turn does to the variables that decide where the loop goes next, with
    everything the environment chooses left open. */
module RunLoopControl {
  import opened Wrappers
  import opened Chat
  import opened BufferedMemory
  import opened Compressor
  import opened LoopDetection
  import opened Planner
  import opened RunLoop
  import Text

  datatype Control = Control(
    state: LoopState, iteration: nat, pending: Option<Action>, callId: string, lastExec: Option<Snapshot>,
    escalate: bool, calls: seq<Signature>)

  function ControlOf(l: Loop): Control {
    Control(l.state, l.iteration, l.pending, l.pendingCallId, l.lastExec, l.evalEscalate, l.calls)
  }

  function SignatureOf(a: Action): Signature {
    Signature(a.toolName, a.toolInput)
  }

  /** The event lets exactly this action pass: without an interrupter, by the interrupter's leave, or by a
      human's approval, with the human's input if one was given. */
  predicate Permits(cfg: Config, e: Event, a: Action) {
    if !cfg.hasInterrupter then e == Ungated(a)
    else e == Cleared(a) || PermittedByHuman(e, a)
  }

  /** A human approved the proposed action: it is unchanged, but for the input of a tool call if the human gave
      another one. */
  predicate PermittedByHuman(e: Event, a: Action) {
    && e.Approved? && e.action == a && e.reply.Reply? && e.reply.approved
    && a.typ == e.proposed.typ && a.toolName == e.proposed.toolName && a.answer == e.proposed.answer
    && (a.typ.ToolCallAction? ==>
          a.toolInput == if e.reply.modified != NilParams then e.reply.modified else e.proposed.toolInput)
  }

  /** A run goes on with one more turn. */
  lemma {:induction false} RunSnoc(cfg: Config, l: Loop, script: seq<Oracle>, o: Oracle)
    requires Run(cfg, l, script).result.None?
    ensures var t := Run(cfg, l, script);
            var u := Step(cfg, t.loop, o);
            Run(cfg, l, script + [o]) == Turn(u.loop, u.result, t.events + u.events)
    decreases |script|
  {
    hide Step;
    if script == [] {
      assert [] + [o] == [o] && [o][1..] == [];
    } else {
      assert (script + [o])[1..] == script[1..] + [o];
      var t := Step(cfg, l, script[0]);
      RunSnoc(cfg, t.loop, script[1..], o);
    }
  }

  /** A call ID that the given iteration can have made. */
  ghost predicate IssuedIn(id: string, iteration: nat) {
    exists nanos: nat :: id == CallId(iteration, nanos)
  }

  /** A turn that goes on. */
  ghost predicate Moves(cfg: Config, c: Control, d: Control, events: seq<Event>) {
    match c.state
    case StateInit => events == [] && d == c.(state := if cfg.planAndSolve then StatePlanGen else StatePlanning)
    case StatePlanGen => events == [] && cfg.hasSolver && d == c.(state := StatePlanReview)
    case StatePlanReview =>
      || (events == [] && d == c.(state := StatePlanning))
      || (events == [ReviewRejected] && cfg.hasInterrupter && d == c)
    case StatePlanning =>
      && events == [PlanRound] && c.iteration < cfg.maxIterations && d.pending.Some?
      && d == c.(iteration := c.iteration + 1, pending := d.pending, state := d.state)
      && (d.state.StateCompleting?
          || (d.state.StateInterrupt?
              && (d.pending.value.typ.ToolCallAction? || d.pending.value.typ.AskHumanAction?)))
    case StateInterrupt =>
      && c.pending.Some?
      && if c.escalate then events == [] && d == c.(escalate := false, pending := None, state := StatePlanning)
         else
           || (events == [] && d == c.(state := StatePlanning))
           || (&& !c.pending.value.typ.AskHumanAction? && |events| == 1 && d.pending.Some? && d.callId != "" && IssuedIn(d.callId, c.iteration)
               && Permits(cfg, events[0], d.pending.value) && d.pending.value.typ == c.pending.value.typ
               && d == c.(pending := d.pending, callId := d.callId, state := StateExecuting))
    case StateExecuting =>
      && c.pending.Some? && events == [Executed(c.pending.value, c.callId)]
      && !Verdict(cfg.threshold, c.calls + [SignatureOf(c.pending.value)]).LoopTerminate?
      && d == c.(calls := c.calls + [SignatureOf(c.pending.value)],
                 lastExec := Some(Snapshot(c.callId, c.pending.value)), pending := None, callId := "",
                 state := if cfg.evalOn then StateEvaluating else StatePlanning)
    case StateEvaluating =>
      && events == []
      && (|| d == c.(state := StatePlanning)
          || d == c.(state := StateCompleting)
          || (cfg.hasSolver && d == c.(state := StatePlanGen))
          || (c.lastExec.Some?
              && d == c.(pending := Some(c.lastExec.value.action), callId := c.lastExec.value.callId,
                         state := StateExecuting))
          || d == c.(escalate := true,
                     pending := if c.pending.None? && c.lastExec.Some? then Some(c.lastExec.value.action) else c.pending,
                     state := StateInterrupt))
    case StateCompleting => events == [] && d == c.(state := StatePlanning)
    case _ => false
  }

  /** A turn that ends the run: what it logs, and when it does not even have an error. */
  predicate Stops(cfg: Config, c: Control, outcome: Outcome, events: seq<Event>) {
    && (events == []
        || (events == [PlanRound] && c.state.StatePlanning? && c.iteration < cfg.maxIterations)
        || (c.state.StateExecuting? && c.pending.Some? && events == [Executed(c.pending.value, c.callId)]
            && !Verdict(cfg.threshold, c.calls + [SignatureOf(c.pending.value)]).LoopTerminate?))
    && (outcome.Empty? ==> c.state.StateComplete? || c.state.StateError?)
  }

  ghost predicate Follows(cfg: Config, l: Loop, t: Turn) {
    if t.result.None? then Moves(cfg, ControlOf(l), ControlOf(t.loop), t.events)
    else Stops(cfg, ControlOf(l), t.result.value, t.events)
  }

  lemma PlanTurnsFollow(cfg: Config, l: Loop, o: Oracle)
    ensures l.state.StateInit? ==> Follows(cfg, l, InitTurn(cfg, l))
    ensures l.state.StatePlanGen? ==> Follows(cfg, l, PlanGenTurn(cfg, l, o))
    ensures l.state.StatePlanReview? ==> Follows(cfg, l, PlanReviewTurn(cfg, l, o))
  {
    hide AfterPlan, FreshPlan, Added;
  }

  lemma PlanningFollows(cfg: Config, l: Loop, o: Oracle)
    requires l.state.StatePlanning?
    ensures Follows(cfg, l, PlanningTurn(cfg, l, o))
  {
    hide AfterPlan, CompressedMemory, Text.TrimSpace;
  }

  lemma InterruptFollows(cfg: Config, l: Loop, o: Oracle)
    requires l.state.StateInterrupt?
    ensures Follows(cfg, l, InterruptTurn(cfg, l, o))
  {
    hide Added, Text.TrimSpace, Text.Itoa, IssuedIn;
    CallIdIssued(l.iteration, o.nanos);
  }

  lemma CallIdIssued(iteration: nat, nanos: nat)
    ensures IssuedIn(CallId(iteration, nanos), iteration)
  {
  }

  lemma ExecutingFollows(cfg: Config, l: Loop, o: Oracle)
    requires l.state.StateExecuting?
    ensures Follows(cfg, l, ExecutingTurn(cfg, l, o))
  {
  }

  lemma EvaluatingFollows(cfg: Config, l: Loop, o: Oracle)
    requires l.state.StateEvaluating?
    ensures Follows(cfg, l, EvaluatingTurn(cfg, l, o))
  {
    hide LastOutput, FreshPlan, Text.TrimSpace;
  }

  lemma CompletingFollows(cfg: Config, l: Loop, o: Oracle)
    requires l.state.StateCompleting?
    ensures Follows(cfg, l, CompletingTurn(cfg, l, o))
  {
  }

  /** Every turn is a move or a stop. */
  lemma {:induction false} StepFollows(cfg: Config, l: Loop, o: Oracle)
    ensures Follows(cfg, l, Step(cfg, l, o))
  {
    hide Follows, PlanGenTurn, PlanReviewTurn, PlanningTurn, InterruptTurn, ExecutingTurn, EvaluatingTurn, CompletingTurn;
    match l.state {
      case StatePlanning => PlanningFollows(cfg, l, o);
      case StateInterrupt => InterruptFollows(cfg, l, o);
      case StateExecuting => ExecutingFollows(cfg, l, o);
      case StateEvaluating => EvaluatingFollows(cfg, l, o);
      case StateCompleting => CompletingFollows(cfg, l, o);
      case _ => PlanTurnsFollow(cfg, l, o);
    }
    HaltFollows(cfg, l);
  }

  lemma HaltFollows(cfg: Config, l: Loop)
    ensures Follows(cfg, l, Halt(l, Cancelled))
    ensures l.state.StateComplete? || l.state.StateError? ==> Follows(cfg, l, Halt(l, Empty))
  {
  }
}
