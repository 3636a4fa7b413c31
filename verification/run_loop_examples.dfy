/** Concrete runs from the start in which the run loop does not do what one would like it to. */
module RunLoopExamples {
  import opened Wrappers
  import opened Chat
  import opened Transcript
  import opened BufferedMemory
  import opened LoopDetection
  import opened Planner
  import opened RunLoop
  import opened RunLoopControl
  import opened RunLoopTranscript
  import opened RunLoopPlan
  import Text

  const REACT := Config(false, true, false, false, true, false, 0, 5, 3, 0, 0, "")
  const SOLVE := Config(true, true, true, true, false, false, 0, 5, 3, 0, 0, "")

  /** Nothing fails, and nobody objects. */
  const QUIET := Oracle(false, true, true, true, Working, Working, Erred, None, Erred, Some(false), NoReply, 0, Erred, "",
                        Erred, None)
  const DENIAL := QUIET.(should := Some(true))
  const STOP := QUIET.(cancelled := true)

  const READ := Action(ToolCallAction, "read", Params("{}"), "")
  const WRITE := Action(ToolCallAction, "write", Params("{}"), "")

  function Generating(a: Action): Oracle {
    QUIET.(generated := Some([RawStep(1, "", a)]))
  }

  function Pending(a: Action): Option<ActionPlan> {
    Some(ActionPlan([PlanStep(1, "", a, StepPending, "")], 0))
  }

  function Running(a: Action): Option<ActionPlan> {
    Some(ActionPlan([PlanStep(1, "", a, StepRunning, "")], 0))
  }

  /** One more turn of a run. */
  lemma Extend(cfg: Config, start: Loop, script: seq<Oracle>, o: Oracle, l: Loop, log: seq<Event>)
    requires Run(cfg, start, script) == Turn(l, None, log)
    ensures var u := Step(cfg, l, o); Run(cfg, start, script + [o]) == Turn(u.loop, u.result, log + u.events)
  {
    RunSnoc(cfg, start, script, o);
  }

  function Proposed(start: Loop): Loop {
    start.(state := StateInterrupt, iteration := 1, pending := Some(READ))
  }

  /** The turns up to the first execution. */
  function ToExecution(): seq<Oracle> {
    [] + [QUIET] + [QUIET.(planned := Given(PlanResult(READ, "")))] + [QUIET]
  }

  lemma ReachesExecution() returns (l: Loop, log: seq<Event>)
    ensures Run(REACT, Start(REACT, [], [], None), ToExecution()) == Turn(l, None, log)
    ensures l.state.StateExecuting? && l.lastExec.None? && l.pending == Some(READ) && l.calls == []
  {
    hide Added, Text.TrimSpace, CallId, Run;
    var start := Start(REACT, [], [], None);
    RunNothing(REACT, start);
    Extend(REACT, start, [], QUIET, start, []);
    var l1 := start.(state := StatePlanning);
    var o := QUIET.(planned := Given(PlanResult(READ, "")));
    Extend(REACT, start, [] + [QUIET], o, l1, []);
    var l2 := Proposed(start);
    assert Step(REACT, l1, o) == Turn(l2, None, [PlanRound]);
    Extend(REACT, start, [] + [QUIET] + [o], QUIET, l2, [PlanRound]);
    var u := Step(REACT, l2, QUIET);
    l, log := u.loop, [PlanRound] + u.events;
  }

  lemma RunNothing(cfg: Config, l: Loop)
    ensures Run(cfg, l, []) == Turn(l, None, [])
  {
  }

  /** A run that is cancelled before its first execution leaves the announced call unanswered. */
  lemma CutShortRun() returns (script: seq<Oracle>)
    ensures FaultlessScript(script)
    ensures var t := RunFromStart(REACT, Start(REACT, [], [], None), script);
            t.result == Some(Cancelled) && !WellFormed(t.loop.memory)
  {
    var l, log := ReachesExecution();
    script := ToExecution() + [STOP];
    Extend(REACT, Start(REACT, [], [], None), ToExecution(), STOP, l, log);
    WellFormedIffNotFirstAttempt(REACT, [], [], None, script);
  }

  /** The same run, cancelled when its call is about to be executed again, has nothing unanswered. */
  lemma RetriedRun() returns (script: seq<Oracle>)
    ensures FaultlessScript(script)
    ensures var t := RunFromStart(REACT, Start(REACT, [], [], None), script);
            t.result == Some(Cancelled) && t.loop.state.StateExecuting? && WellFormed(t.loop.memory)
  {
    hide ResultMemory, InjectLoopWarning, Run;
    var start := Start(REACT, [], [], None);
    var l, log := ReachesExecution();
    var o := QUIET.(executed := Given(ExecResult("", None)));
    Extend(REACT, start, ToExecution(), o, l, log);
    var u := Step(REACT, l, o);
    assert u.result.None? && u.loop.state.StateEvaluating? && u.loop.lastExec.Some?;
    var o' := QUIET.(evaluated := Given(EvalResult(DecisionRetry, "")));
    Extend(REACT, start, ToExecution() + [o], o', u.loop, log + u.events);
    var v := Step(REACT, u.loop, o');
    Extend(REACT, start, ToExecution() + [o] + [o'], STOP, v.loop, log + u.events + v.events);
    script := ToExecution() + [o] + [o'] + [STOP];
    WellFormedIffNotFirstAttempt(REACT, [], [], None, script);
  }

  // ----- plan and solve -----

  /** The turns up to the first review, and the position then. */
  function ToReview(): seq<Oracle> {
    [] + [QUIET] + [Generating(READ)]
  }

  function AtReview(): Loop {
    Start(SOLVE, [], [], None).(state := StatePlanReview, plan := Running(READ), planGenFirst := Some(PlanResult(READ, "")))
  }

  lemma ReachesReview()
    ensures Run(SOLVE, Start(SOLVE, [], [], None), ToReview()) == Turn(AtReview(), None, [])
  {
    hide Run;
    var start := Start(SOLVE, [], [], None);
    RunNothing(SOLVE, start);
    Extend(SOLVE, start, [], QUIET, start, []);
    var l := start.(state := StatePlanGen);
    Extend(SOLVE, start, [] + [QUIET], Generating(READ), l, []);
    FreshOne(READ);
    HandsOutOne(READ);
  }

  lemma FreshOne(a: Action)
    ensures FreshPlan(Generating(a).generated) == Pending(a)
  {
    assert Text.TrimSpace("") == "";
    assert FreshPlan(Generating(a).generated).value.steps == [PlanStep(1, "", a, StepPending, "")];
  }

  lemma HandsOutOne(a: Action)
    ensures NextPlanned(Pending(a).value) == (Planned(PlanResult(a, "")), Running(a).value)
  {
    var step := PlanStep(1, "", a, StepPending, "");
    assert [step][0 := step.(status := StepRunning)] == [step.(status := StepRunning)];
  }

  /** A human rejects the plan, and a new one is generated. */
  const REJECTION := Generating(WRITE).(should := Some(true))

  lemma ReachesRejection() returns (l: Loop)
    ensures Run(SOLVE, Start(SOLVE, [], [], None), ToReview() + [REJECTION]) == Turn(l, None, [ReviewRejected])
    ensures l.state.StatePlanReview? && l.plan == Pending(WRITE) && l.planGenFirst == Some(PlanResult(READ, "")) && l.iteration == 0
    ensures !l.evalEscalate
  {
    hide Run, Added, FreshPlan;
    ReachesReview();
    FreshOne(WRITE);
    Extend(SOLVE, Start(SOLVE, [], [], None), ToReview(), REJECTION, AtReview(), []);
    l := Step(SOLVE, AtReview(), REJECTION).loop;
  }

  /** After a rejected review the first planning round proposes the rejected plan's step. */
  lemma RejectedPlanRun() returns (script: seq<Oracle>)
    ensures var t := RunFromStart(SOLVE, Start(SOLVE, [], [], None), script);
            && t.result.None? && t.loop.plan == Pending(WRITE) && t.loop.pending == Some(READ)
            && t.loop.state.StateInterrupt? && !FollowsPlan(t.loop) && t.events == [ReviewRejected, PlanRound]
            && t.loop.planGenFirst.None? && !t.loop.evalEscalate && t.loop.iteration == 1
  {
    hide Run;
    var start := Start(SOLVE, [], [], None);
    var l := ReachesRejection();
    Extend(SOLVE, start, ToReview() + [REJECTION], QUIET, l, [ReviewRejected]);
    var l1 := l.(state := StatePlanning);
    Extend(SOLVE, start, ToReview() + [REJECTION] + [QUIET], QUIET, l1, [ReviewRejected]);
    script := ToReview() + [REJECTION] + [QUIET] + [QUIET];
  }

  /** A step that is denied stays running, and the planner then refuses to go on. */
  lemma DeniedStepRun() returns (script: seq<Oracle>)
    ensures var t := RunFromStart(SOLVE, Start(SOLVE, [], [], None), script);
            t.result == Some(Failed(PlannerFailed)) && t.loop.plan == Running(READ)
  {
    hide Run, Added;
    var start := Start(SOLVE, [], [], None);
    ReachesReview();
    Extend(SOLVE, start, ToReview(), QUIET, AtReview(), []);
    var l1 := AtReview().(state := StatePlanning);
    Extend(SOLVE, start, ToReview() + [QUIET], QUIET, l1, []);
    var l2 := Step(SOLVE, l1, QUIET).loop;
    Extend(SOLVE, start, ToReview() + [QUIET] + [QUIET], DENIAL, l2, [PlanRound]);
    var l3 := Step(SOLVE, l2, DENIAL).loop;
    Extend(SOLVE, start, ToReview() + [QUIET] + [QUIET] + [DENIAL], QUIET, l3, [PlanRound]);
    script := ToReview() + [QUIET] + [QUIET] + [DENIAL] + [QUIET];
  }

  /** The stale action of a rejected plan can be denied: no step is running, and the new plan begins. */
  lemma DeniedStaleActionRun() returns (script: seq<Oracle>)
    ensures var t := RunFromStart(SOLVE, Start(SOLVE, [], [], None), script);
            t.result.None? && t.loop.plan == Running(WRITE) && t.loop.pending == Some(WRITE) && t.loop.state.StateInterrupt?
  {
    hide Run, Added;
    var start := Start(SOLVE, [], [], None);
    script := RejectedPlanRun();
    var t := Run(SOLVE, start, script);
    Extend(SOLVE, start, script, DENIAL, t.loop, t.events);
    var u := Step(SOLVE, t.loop, DENIAL);
    assert u.result.None? && u.loop.state.StatePlanning? && u.events == [];
    Extend(SOLVE, start, script + [DENIAL], QUIET, u.loop, t.events + u.events);
    HandsOutOne(WRITE);
    script := script + [DENIAL] + [QUIET];
  }
}
