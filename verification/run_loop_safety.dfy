/** What holds in every run of the loop: when a nil pointer is dereferenced, and that nothing is executed that was
    not let through. */
module RunLoopSafety {
  import opened Wrappers
  import opened Chat
  import opened LoopDetection
  import opened BufferedMemory
  import opened Planner
  import opened RunLoop
  import opened RunLoopControl
  import Hitl
  import Text

  /** The reachable combinations of the loop's variables. */
  ghost predicate Sound(cfg: Config, c: Control) {
    && !c.state.StateComplete? && !c.state.StateError?
    && (cfg.planAndSolve && !c.state.StateInit? && !c.state.StatePlanGen? ==> cfg.hasSolver)
    && (c.state.StatePlanReview? ==> cfg.hasSolver)
    && (c.state.StateInterrupt? ==> c.pending.Some?)
    && (c.state.StateInterrupt? && !c.escalate ==>
          c.pending.value.typ.ToolCallAction? || c.pending.value.typ.AskHumanAction?)
    && (c.state.StateExecuting? ==> c.pending.Some? && c.pending.value.typ.ToolCallAction? && c.callId != "")
    && (c.state.StateEvaluating? ==> c.lastExec.Some? && c.pending.None?)
    && (c.escalate ==> c.state.StateInterrupt?)
    && (c.lastExec.Some? ==> c.lastExec.value.action.typ.ToolCallAction? && c.lastExec.value.callId != "")
  }

  lemma MoveKeepsSound(cfg: Config, c: Control, d: Control, events: seq<Event>)
    requires Sound(cfg, c) && Moves(cfg, c, d, events)
    ensures Sound(cfg, d)
  {
  }

  /** Wherever a run stands, the variables fit together, and it never ends without a result. */
  lemma {:induction false} RunKeepsSound(cfg: Config, l: Loop, script: seq<Oracle>)
    requires Sound(cfg, ControlOf(l))
    ensures var t := Run(cfg, l, script);
            t.result != Some(Empty) && (t.result.None? ==> Sound(cfg, ControlOf(t.loop)))
    decreases |script|
  {
    hide Step;
    if script != [] {
      var t := Step(cfg, l, script[0]);
      StepFollows(cfg, l, script[0]);
      if t.result.None? {
        MoveKeepsSound(cfg, ControlOf(l), ControlOf(t.loop), t.events);
        RunKeepsSound(cfg, t.loop, script[1..]);
      }
    }
  }

  // ----- nil pointers -----

  /** In this turn the loop asks the compressing model, the planner, the executor or the evaluator, and gets
      neither a result nor an error. */
  predicate ReceivesNil(cfg: Config, l: Loop, o: Oracle) {
    && !o.cancelled
    && match l.state
       case StatePlanning =>
         && l.iteration < cfg.maxIterations && o.read
         && (|| o.summary.Nil?
             || ((o.summary.Given? ==> o.reread) && l.planGenFirst.None? && !cfg.planAndSolve && o.planned.Nil?))
       case StateExecuting =>
         && l.pending.Some? && o.executed.Nil?
         && !Verdict(cfg.threshold, l.calls + [SignatureOf(l.pending.value)]).LoopTerminate?
       case StateEvaluating => cfg.evalOn && o.read && o.evaluated.Nil?
       case _ => false
  }

  /** In a reachable position a turn panics exactly if it receives such a nil. */
  lemma TurnPanicsIff(cfg: Config, l: Loop, o: Oracle)
    requires Sound(cfg, ControlOf(l))
    ensures Step(cfg, l, o).result == Some(Panicked) <==> ReceivesNil(cfg, l, o)
  {
    hide PlanGenTurn, PlanReviewTurn, PlanningTurn, InterruptTurn, ExecutingTurn, EvaluatingTurn, Verdict;
    if o.cancelled { return; }
    match l.state {
      case StatePlanGen | StatePlanReview => ReviewNeverPanics(cfg, l, o);
      case StatePlanning => PlanningPanicsIff(cfg, l, o);
      case StateInterrupt => InterruptNeverPanics(cfg, l, o);
      case StateExecuting => ExecutingPanicsIff(cfg, l, o);
      case StateEvaluating => EvaluatingPanicsIff(cfg, l, o);
      case _ =>
    }
  }

  lemma ReviewNeverPanics(cfg: Config, l: Loop, o: Oracle)
    ensures PlanGenTurn(cfg, l, o).result != Some(Panicked)
    ensures cfg.hasSolver ==> PlanReviewTurn(cfg, l, o).result != Some(Panicked)
  {
    hide AfterPlan, FreshPlan, Added;
  }

  lemma PlanningPanicsIff(cfg: Config, l: Loop, o: Oracle)
    requires l.state.StatePlanning? && !o.cancelled && (cfg.planAndSolve ==> cfg.hasSolver)
    ensures PlanningTurn(cfg, l, o).result == Some(Panicked) <==> ReceivesNil(cfg, l, o)
  {
    hide AfterPlan, CompressedMemory, Text.TrimSpace;
  }

  lemma InterruptNeverPanics(cfg: Config, l: Loop, o: Oracle)
    requires l.pending.Some?
    ensures InterruptTurn(cfg, l, o).result != Some(Panicked)
  {
    hide Added, Text.TrimSpace, CallId;
  }

  lemma ExecutingPanicsIff(cfg: Config, l: Loop, o: Oracle)
    requires l.state.StateExecuting? && !o.cancelled && l.pending.Some?
    ensures ExecutingTurn(cfg, l, o).result == Some(Panicked) <==> ReceivesNil(cfg, l, o)
  {
    hide Settled, Verdict;
  }

  lemma EvaluatingPanicsIff(cfg: Config, l: Loop, o: Oracle)
    requires l.state.StateEvaluating? && !o.cancelled
    ensures EvaluatingTurn(cfg, l, o).result == Some(Panicked) <==> ReceivesNil(cfg, l, o)
  {
    hide LastOutput, FreshPlan, Text.TrimSpace;
  }

  /** The run is still going after k turns and receives a nil in the next one. */
  ghost predicate NilAt(cfg: Config, l: Loop, script: seq<Oracle>, k: int) {
    0 <= k < |script| && var t := Run(cfg, l, script[..k]); t.result.None? && ReceivesNil(cfg, t.loop, script[k])
  }

  lemma {:induction false} NilLater(cfg: Config, l: Loop, script: seq<Oracle>, k: nat)
    requires script != [] && Step(cfg, l, script[0]).result.None?
    ensures NilAt(cfg, l, script, k + 1) <==> NilAt(cfg, Step(cfg, l, script[0]).loop, script[1..], k)
  {
    hide Step, ReceivesNil;
    if k + 1 < |script| {
      assert script[..k + 1][1..] == script[1..][..k];
    }
  }

  /** A run from a reachable position panics exactly if one of its turns receives a nil. */
  lemma {:induction false} PanicsIffNil(cfg: Config, l: Loop, script: seq<Oracle>)
    requires Sound(cfg, ControlOf(l))
    ensures Run(cfg, l, script).result == Some(Panicked) <==> exists k :: NilAt(cfg, l, script, k)
    decreases |script|
  {
    hide Step, ReceivesNil, Sound, Moves, Stops;
    if script != [] {
      var t := Step(cfg, l, script[0]);
      TurnPanicsIff(cfg, l, script[0]);
      StepFollows(cfg, l, script[0]);
      assert script[..0] == [];
      assert NilAt(cfg, l, script, 0) <==> t.result == Some(Panicked);
      if t.result.None? {
        MoveKeepsSound(cfg, ControlOf(l), ControlOf(t.loop), t.events);
        PanicsIffNil(cfg, t.loop, script[1..]);
        forall k: nat ensures NilAt(cfg, l, script, k + 1) <==> NilAt(cfg, t.loop, script[1..], k) {
          NilLater(cfg, l, script, k);
        }
        if k :| NilAt(cfg, t.loop, script[1..], k) { assert NilAt(cfg, l, script, k + 1); }
        if k :| NilAt(cfg, l, script, k) { assert k != 0; assert NilAt(cfg, t.loop, script[1..], k - 1); }
      } else {
        forall k | k > 0 ensures !NilAt(cfg, l, script, k) { StopsEarly(cfg, l, script, k); }
      }
    }
  }

  lemma StopsEarly(cfg: Config, l: Loop, script: seq<Oracle>, k: int)
    requires script != [] && Step(cfg, l, script[0]).result.Some? && k > 0
    ensures !NilAt(cfg, l, script, k)
  {
    hide Step, ReceivesNil;
    if k < |script| { assert script[..k][0] == script[0]; }
  }

  /** Whatever humans and stores do, a run dereferences a nil pointer exactly if its last turn received a nil
      from a model, planner, executor or evaluator without an error. */
  lemma RunPanicsIff(cfg: Config, memory: seq<Message>, calls: seq<Signature>, plan: Option<ActionPlan>, script: seq<Oracle>)
    ensures var start := Start(cfg, memory, calls, plan);
            RunFromStart(cfg, start, script).result == Some(Panicked)
            <==> cfg.hasPlanner && exists k :: NilAt(cfg, start, script, k)
  {
    hide Run, NilAt;
    PanicsIffNil(cfg, Start(cfg, memory, calls, plan), script);
  }

  /** Every run stands in a sound position or ends with an answer, an error, a done context or a panic. */
  lemma RunStaysSound(cfg: Config, memory: seq<Message>, calls: seq<Signature>, plan: Option<ActionPlan>, script: seq<Oracle>)
    ensures var t := RunFromStart(cfg, Start(cfg, memory, calls, plan), script);
            t.result != Some(Empty) && (t.result.None? ==> Sound(cfg, ControlOf(t.loop)))
  {
    hide Run;
    RunKeepsSound(cfg, Start(cfg, memory, calls, plan), script);
  }

  // ----- approval -----

  /** Something logged in the current planning round lets this action pass. */
  ghost predicate Permitted(cfg: Config, log: seq<Event>, a: Action) {
    exists i :: PermitAt(cfg, log, a, i)
  }

  predicate PermitAt(cfg: Config, log: seq<Event>, a: Action, i: int) {
    0 <= i < |log| && Permits(cfg, log[i], a) && forall j :: i < j < |log| ==> !log[j].PlanRound?
  }

  /** Every execution is of a tool call, under a call ID, and permitted earlier in the same planning round. */
  ghost predicate Gated(cfg: Config, log: seq<Event>) {
    forall j :: 0 <= j < |log| && log[j].Executed? ==>
      log[j].action.typ.ToolCallAction? && log[j].callId != "" && Permitted(cfg, log[..j], log[j].action)
  }

  /** What may be executed next, at once or by a retry, has been permitted in this round. */
  ghost predicate Cautious(cfg: Config, c: Control, log: seq<Event>) {
    && (c.state.StateExecuting? ==> c.pending.Some? && Permitted(cfg, log, c.pending.value))
    && (c.state.StateEvaluating? && c.lastExec.Some? ==> Permitted(cfg, log, c.lastExec.value.action))
  }

  lemma PermittedLater(cfg: Config, log: seq<Event>, e: Event, a: Action)
    requires Permitted(cfg, log, a) && !e.PlanRound?
    ensures Permitted(cfg, log + [e], a)
  {
    var i :| PermitAt(cfg, log, a, i);
    assert PermitAt(cfg, log + [e], a, i);
  }

  lemma PermittedNow(cfg: Config, log: seq<Event>, e: Event, a: Action)
    requires Permits(cfg, e, a)
    ensures Permitted(cfg, log + [e], a)
  {
    assert PermitAt(cfg, log + [e], a, |log|);
  }

  lemma GatedSnoc(cfg: Config, log: seq<Event>, e: Event)
    requires Gated(cfg, log)
    requires e.Executed? ==> e.action.typ.ToolCallAction? && e.callId != "" && Permitted(cfg, log, e.action)
    ensures Gated(cfg, log + [e])
  {
    var all := log + [e];
    forall j | 0 <= j < |all| && all[j].Executed?
      ensures all[j].action.typ.ToolCallAction? && all[j].callId != "" && Permitted(cfg, all[..j], all[j].action)
    {
      if j < |log| { assert all[..j] == log[..j]; } else { assert all[..j] == log; }
    }
  }

  lemma MoveKeepsGated(cfg: Config, c: Control, d: Control, events: seq<Event>, log: seq<Event>)
    requires Sound(cfg, c) && Cautious(cfg, c, log) && Gated(cfg, log) && Moves(cfg, c, d, events)
    ensures Gated(cfg, log + events) && Cautious(cfg, d, log + events)
  {
    hide Verdict;
    if events == [] {
      assert log + events == log;
    } else {
      assert events == [events[0]];
      GatedSnoc(cfg, log, events[0]);
      if c.state.StateExecuting? { PermittedLater(cfg, log, events[0], c.pending.value); }
      if c.state.StateInterrupt? { PermittedNow(cfg, log, events[0], d.pending.value); }
    }
  }

  lemma StopKeepsGated(cfg: Config, c: Control, outcome: Outcome, events: seq<Event>, log: seq<Event>)
    requires Sound(cfg, c) && Cautious(cfg, c, log) && Gated(cfg, log) && Stops(cfg, c, outcome, events)
    ensures Gated(cfg, log + events)
  {
    hide Verdict;
    if events == [] {
      assert log + events == log;
    } else {
      GatedSnoc(cfg, log, events[0]);
    }
  }

  lemma {:induction false} RunGated(cfg: Config, l: Loop, script: seq<Oracle>, log: seq<Event>)
    requires Sound(cfg, ControlOf(l)) && Cautious(cfg, ControlOf(l), log) && Gated(cfg, log)
    ensures Gated(cfg, log + Run(cfg, l, script).events)
    decreases |script|
  {
    hide Step, Gated, Cautious, Sound, Moves, Stops;
    if script == [] {
      assert log + [] == log;
    } else {
      var t := Step(cfg, l, script[0]);
      StepFollows(cfg, l, script[0]);
      if t.result.None? {
        var rest := Run(cfg, t.loop, script[1..]).events;
        MoveKeepsGated(cfg, ControlOf(l), ControlOf(t.loop), t.events, log);
        MoveKeepsSound(cfg, ControlOf(l), ControlOf(t.loop), t.events);
        RunGated(cfg, t.loop, script[1..], log + t.events);
        assert log + t.events + rest == log + (t.events + rest);
      } else {
        StopKeepsGated(cfg, ControlOf(l), t.result.value, t.events, log);
      }
    }
  }

  /** In every run, whatever the environment does: only tool calls are executed, each one let through since the
      last planning round began, retries included. */
  lemma ApprovalSafety(cfg: Config, memory: seq<Message>, calls: seq<Signature>, plan: Option<ActionPlan>, script: seq<Oracle>)
    ensures Gated(cfg, RunFromStart(cfg, Start(cfg, memory, calls, plan), script).events)
  {
    hide Run;
    var l := Start(cfg, memory, calls, plan);
    if cfg.hasPlanner {
      RunGated(cfg, l, script, []);
      assert [] + Run(cfg, l, script).events == Run(cfg, l, script).events;
    }
  }

  /** The log tells what was really answered: a call is cleared only on the interrupter's no, approved only on
      its yes and the human's own reply, and rejected plans are reviewed ones. */
  predicate Honest(cfg: Config, l: Loop, o: Oracle, e: Event) {
    match e
    case PlanRound => l.state.StatePlanning? && l.iteration < cfg.maxIterations
    case ReviewRejected => l.state.StatePlanReview? && cfg.hasInterrupter && o.should.Some? && o.should.value && Denied(o.human)
    case Cleared(a) =>
      l.state.StateInterrupt? && cfg.hasInterrupter && o.should.Some? && !o.should.value && l.pending == Some(a)
      && !l.evalEscalate && !a.typ.AskHumanAction?
    case Approved(p, reply, a) =>
      l.state.StateInterrupt? && cfg.hasInterrupter && o.should.Some? && o.should.value && l.pending == Some(p) && reply == o.human
      && !l.evalEscalate && PermittedByHuman(e, a)
    case Ungated(a) => l.state.StateInterrupt? && !cfg.hasInterrupter && l.pending == Some(a) && !l.evalEscalate
    case Executed(a, id) => l.state.StateExecuting? && l.pending == Some(a) && l.pendingCallId == id
  }

  predicate AllHonest(cfg: Config, l: Loop, o: Oracle, events: seq<Event>) {
    forall i :: 0 <= i < |events| ==> Honest(cfg, l, o, events[i])
  }

  lemma EventsAreHonest(cfg: Config, l: Loop, o: Oracle, t: Turn)
    requires t == Step(cfg, l, o)
    ensures AllHonest(cfg, l, o, t.events)
  {
    hide Step, AllHonest, Follows;
    StepFollows(cfg, l, o);
    if l.state.StateInterrupt? {
      InterruptEventsAreHonest(cfg, l, o, t);
    } else if l.state.StatePlanReview? {
      ReviewEventsAreHonest(cfg, l, o, t);
    } else {
      OtherEventsAreHonest(cfg, l, o, t);
    }
  }

  lemma OtherEventsAreHonest(cfg: Config, l: Loop, o: Oracle, t: Turn)
    requires Follows(cfg, l, t) && !l.state.StateInterrupt? && !l.state.StatePlanReview?
    ensures AllHonest(cfg, l, o, t.events)
  {
  }

  lemma InterruptEventsAreHonest(cfg: Config, l: Loop, o: Oracle, t: Turn)
    requires t == Step(cfg, l, o) && l.state.StateInterrupt?
    ensures AllHonest(cfg, l, o, t.events)
  {
    hide Remember, CallId;
  }

  lemma ReviewEventsAreHonest(cfg: Config, l: Loop, o: Oracle, t: Turn)
    requires t == Step(cfg, l, o) && l.state.StatePlanReview?
    ensures AllHonest(cfg, l, o, t.events)
  {
  }

  // ----- approval with the HITL handler as interrupter -----

  /** Before a tool call, the interrupter answers as the HITL handler does. */
  predicate HitlAnswers(h: Hitl.HitlConfig, l: Loop, o: Oracle) {
    l.state.StateInterrupt? && !l.evalEscalate && l.pending.Some? && l.pending.value.typ.ToolCallAction? ==>
      o.should == Some(Hitl.ShouldInterrupt(h, Hitl.BeforeToolCall, l.pending.value))
  }

  predicate HitlRun(h: Hitl.HitlConfig, cfg: Config, l: Loop, script: seq<Oracle>)
    decreases |script|
  {
    script == [] ||
    (HitlAnswers(h, l, script[0])
     && (Step(cfg, l, script[0]).result.None? ==> HitlRun(h, cfg, Step(cfg, l, script[0]).loop, script[1..])))
  }

  predicate ClearsExemptOnly(h: Hitl.HitlConfig, log: seq<Event>) {
    forall i :: 0 <= i < |log| && log[i].Cleared? ==> !Hitl.NeedsApproval(h, log[i].action.toolName)
  }

  lemma HonestTurnClearsExemptOnly(h: Hitl.HitlConfig, cfg: Config, l: Loop, o: Oracle, t: Turn)
    requires AllHonest(cfg, l, o, t.events) && Sound(cfg, ControlOf(l)) && HitlAnswers(h, l, o)
    ensures ClearsExemptOnly(h, t.events)
  {
  }

  lemma {:induction false} HitlClearsExemptOnly(h: Hitl.HitlConfig, cfg: Config, l: Loop, script: seq<Oracle>)
    requires Sound(cfg, ControlOf(l)) && HitlRun(h, cfg, l, script)
    ensures ClearsExemptOnly(h, Run(cfg, l, script).events)
    decreases |script|
  {
    hide Step, Hitl.NeedsApproval, HitlAnswers, AllHonest, Sound, Moves, Stops;
    if script != [] {
      var t := Step(cfg, l, script[0]);
      StepFollows(cfg, l, script[0]);
      EventsAreHonest(cfg, l, script[0], t);
      HonestTurnClearsExemptOnly(h, cfg, l, script[0], t);
      if t.result.None? {
        MoveKeepsSound(cfg, ControlOf(l), ControlOf(t.loop), t.events);
        HitlClearsExemptOnly(h, cfg, t.loop, script[1..]);
      }
    }
  }

  /** With the HITL handler, every executed call of a tool that needs approval was approved by a human. */
  lemma HitlApprovalSafety(h: Hitl.HitlConfig, cfg: Config, memory: seq<Message>, calls: seq<Signature>,
                           plan: Option<ActionPlan>, script: seq<Oracle>, j: nat)
    requires cfg.hasInterrupter && HitlRun(h, cfg, Start(cfg, memory, calls, plan), script)
    requires var log := RunFromStart(cfg, Start(cfg, memory, calls, plan), script).events;
             j < |log| && log[j].Executed? && Hitl.NeedsApproval(h, log[j].action.toolName)
    ensures var log := RunFromStart(cfg, Start(cfg, memory, calls, plan), script).events;
            exists i :: 0 <= i < j && PermittedByHuman(log[i], log[j].action)
                        && forall k :: i < k < j ==> !log[k].PlanRound?
  {
    hide Run, Hitl.NeedsApproval, HitlRun, Gated, ClearsExemptOnly;
    ApprovalSafety(cfg, memory, calls, plan, script);
    HitlClearsExemptOnly(h, cfg, Start(cfg, memory, calls, plan), script);
    PermitIsHuman(h, cfg, RunFromStart(cfg, Start(cfg, memory, calls, plan), script).events, j);
  }

  lemma {:induction false} PermitIsHuman(h: Hitl.HitlConfig, cfg: Config, log: seq<Event>, j: nat)
    requires cfg.hasInterrupter && Gated(cfg, log) && ClearsExemptOnly(h, log)
    requires j < |log| && log[j].Executed? && Hitl.NeedsApproval(h, log[j].action.toolName)
    ensures exists i :: 0 <= i < j && PermittedByHuman(log[i], log[j].action) && forall k :: i < k < j ==> !log[k].PlanRound?
  {
    hide Hitl.NeedsApproval, PermittedByHuman;
    var before := log[..j];
    var i :| PermitAt(cfg, before, log[j].action, i);
    assert log[i] == before[i];
    assert forall k :: i < k < j ==> log[k] == before[k];
  }
}
