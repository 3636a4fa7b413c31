/** planner/plan_and_solve.go: handing out the steps of a plan. */
module Planner {
  import opened Wrappers
  import opened Chat
  import Text

  datatype StepStatus = StepPending | StepRunning | StepDone | StepFailed | StepSkipped

  datatype PlanStep = PlanStep(stepId: int, description: string, action: Action, status: StepStatus, result: string)

  datatype ActionPlan = ActionPlan(steps: seq<PlanStep>, currentStep: nat)

  datatype PlanResult = PlanResult(action: Action, reasoning: string)

  datatype PlanError = GenerationFailed | StepStillRunning(stepId: int)

  datatype PlanOutcome = Planned(result: PlanResult) | PlanFailed(error: PlanError)

  /** A step of the model's output, already mapped to an action. */
  datatype RawStep = RawStep(stepId: int, description: string, action: Action)

  predicate Finished(s: PlanStep) {
    s.status.StepDone? || s.status.StepSkipped?
  }

  /** The plan made of the model's steps; None for an unusable or empty answer. Steps without an ID get their
      position. */
  function FreshPlan(generated: Option<seq<RawStep>>): (plan: Option<ActionPlan>)
    ensures plan.Some? <==> generated.Some? && generated.value != []
    ensures plan.Some? ==> |plan.value.steps| == |generated.value|
    ensures plan.Some? ==> forall i :: 0 <= i < |plan.value.steps| ==>
              var (step, raw) := (plan.value.steps[i], generated.value[i]);
              && step.status.StepPending? && step.action == raw.action
              && step.description == Text.TrimSpace(raw.description)
              && step.stepId == if raw.stepId != 0 then raw.stepId else i + 1
  {
    if generated.None? || generated.value == [] then None
    else
      var raw := generated.value;
      Some(ActionPlan(seq(|raw|, i requires 0 <= i < |raw| =>
        PlanStep(if raw[i].stepId == 0 then i + 1 else raw[i].stepId,
                 Text.TrimSpace(raw[i].description), raw[i].action, StepPending, "")), 0))
  }

  /** First running step, or |steps|. */
  function RunningIndex(steps: seq<PlanStep>): (i: nat)
    ensures i <= |steps|
    ensures i < |steps| ==> steps[i].status.StepRunning?
    ensures forall k :: 0 <= k < i ==> !steps[k].status.StepRunning?
  {
    if steps == [] || steps[0].status.StepRunning? then 0 else 1 + RunningIndex(steps[1..])
  }

  /** First step that is neither done nor skipped, or |steps|. */
  function FirstUnfinished(steps: seq<PlanStep>): (i: nat)
    ensures i <= |steps|
    ensures i < |steps| ==> !Finished(steps[i])
    ensures forall k :: 0 <= k < i ==> Finished(steps[k])
  {
    if steps == [] || !Finished(steps[0]) then 0 else 1 + FirstUnfinished(steps[1..])
  }

  /** First step with the given ID, or |steps|. */
  function IndexOf(steps: seq<PlanStep>, id: int): (i: nat)
    ensures i <= |steps|
    ensures i < |steps| ==> steps[i].stepId == id
    ensures forall k :: 0 <= k < i ==> steps[k].stepId != id
  {
    if steps == [] || steps[0].stepId == id then 0 else 1 + IndexOf(steps[1..], id)
  }

  function ResultLines(steps: seq<PlanStep>): string {
    if steps == [] then ""
    else
      var s := steps[0];
      (if s.status.StepDone? && Text.TrimSpace(s.result) != ""
       then "Step " + Text.Itoa(s.stepId) + " (" + s.description + "): " + Text.TrimSpace(s.result) + "\n"
       else "")
      + ResultLines(steps[1..])
  }

  function SummarizeResults(steps: seq<PlanStep>): string {
    var out := Text.TrimSpace(ResultLines(steps));
    if out == "" then "All planned steps finished." else out
  }

  predicate HasResult(s: PlanStep) {
    s.status == StepDone && Text.TrimSpace(s.result) != ""
  }

  function LineOf(s: PlanStep): string {
    "Step " + Text.Itoa(s.stepId) + " (" + s.description + "): " + Text.TrimSpace(s.result)
  }

  lemma {:induction false} LineInLines(steps: seq<PlanStep>, k: nat) returns (i: nat)
    requires k < |steps| && HasResult(steps[k])
    ensures i + |LineOf(steps[k])| <= |ResultLines(steps)| && ResultLines(steps)[i..i + |LineOf(steps[k])|] == LineOf(steps[k])
    decreases |steps|
  {
    hide Text.TrimSpace, Text.Itoa, ResultLines, LineOf;
    var rest := ResultLines(steps[1..]);
    var first := LinesSplit(steps);
    var line := LineOf(steps[k]);
    if k == 0 {
      i := 0;
      assert (first + rest)[..|line|] == first[..|line|] == line;
    } else {
      var j := LineInLines(steps[1..], k - 1);
      i := |first| + j;
      assert (first + rest)[i..i + |line|] == rest[j..j + |line|];
    }
  }

  lemma LinesSplit(steps: seq<PlanStep>) returns (first: string)
    requires steps != []
    ensures ResultLines(steps) == first + ResultLines(steps[1..])
    ensures HasResult(steps[0]) ==> first == LineOf(steps[0]) + "\n"
  {
    hide Text.TrimSpace, Text.Itoa;
    first := if HasResult(steps[0]) then LineOf(steps[0]) + "\n" else "";
  }

  /** The final answer quotes every step that is done with a result; without any it says that all is finished. */
  lemma SummaryQuotesResults(steps: seq<PlanStep>)
    ensures forall k :: 0 <= k < |steps| && HasResult(steps[k]) ==> Text.Contains(SummarizeResults(steps), LineOf(steps[k]))
    ensures (forall k :: 0 <= k < |steps| ==> !HasResult(steps[k])) ==> SummarizeResults(steps) == "All planned steps finished."
  {
    hide Text.TrimSpace, Text.Itoa, ResultLines, LineOf, Text.Contains, Text.IsSpace;
    forall k | 0 <= k < |steps| && HasResult(steps[k]) ensures Text.Contains(SummarizeResults(steps), LineOf(steps[k])) {
      SummaryQuotes(steps, k);
    }
    if forall k :: 0 <= k < |steps| ==> !HasResult(steps[k]) {
      NoLines(steps);
      TrimNothing();
    }
  }

  lemma TrimNothing()
    ensures Text.TrimSpace("") == ""
  {
  }

  lemma {:induction false} NoLines(steps: seq<PlanStep>)
    requires forall k :: 0 <= k < |steps| ==> !HasResult(steps[k])
    ensures ResultLines(steps) == ""
    decreases |steps|
  {
    hide Text.TrimSpace, Text.Itoa;
    if steps != [] {
      assert !HasResult(steps[0]);
      NoLines(steps[1..]);
    }
  }

  lemma SummaryQuotes(steps: seq<PlanStep>, k: nat)
    requires k < |steps| && HasResult(steps[k])
    ensures Text.Contains(SummarizeResults(steps), LineOf(steps[k]))
  {
    hide Text.TrimSpace, Text.Itoa, ResultLines, LineOf;
    var (lines, line) := (ResultLines(steps), LineOf(steps[k]));
    var i := LineInLines(steps, k);
    LineEnds(steps[k]);
    assert lines[i..i + |line|][0] == lines[i] && lines[i..i + |line|][|line| - 1] == lines[i + |line| - 1];
    var a, b := Text.TrimKeeps(lines, i, |line|);
    var out := SummarizeResults(steps);
    assert out == lines[a..b];
    assert out[i - a..][..|line|] == line;
  }

  lemma LineEnds(s: PlanStep)
    requires HasResult(s)
    ensures var line := LineOf(s); line != "" && !Text.IsSpace(line[0]) && !Text.IsSpace(line[|line| - 1])
  {
    hide Text.TrimSpace, Text.Itoa;
    var a, b := Text.TrimDrops(s.result);
    var r := Text.TrimSpace(s.result);
    assert r[|r| - 1] == s.result[b - 1];
    var head := "Step " + Text.Itoa(s.stepId) + " (" + s.description + "): ";
    assert LineOf(s) == head + r && head[0] == 'S';
  }

  /** What `Plan` answers on an existing plan, and the plan afterwards. */
  function NextPlanned(plan: ActionPlan): (PlanOutcome, ActionPlan) {
    var steps := plan.steps;
    var r, n := RunningIndex(steps), FirstUnfinished(steps);
    if r < |steps| then (PlanFailed(StepStillRunning(steps[r].stepId)), plan)
    else if n < |steps| && steps[n].status.StepPending? then
      (Planned(PlanResult(steps[n].action, steps[n].description)),
       ActionPlan(steps[n := steps[n].(status := StepRunning)], n))
    else (Planned(PlanResult(Action(FinalAnswerAction, "", NilParams, SummarizeResults(steps)), "")), plan)
  }

  function AfterPlan(plan: Option<ActionPlan>, generated: Option<seq<RawStep>>): (PlanOutcome, Option<ActionPlan>) {
    var p := if plan.None? then FreshPlan(generated) else plan;
    if p.None? then (PlanFailed(GenerationFailed), None)
    else var (o, p') := NextPlanned(p.value); (o, Some(p'))
  }

  function Marked(plan: Option<ActionPlan>, id: int, status: StepStatus, result: string): Option<ActionPlan> {
    if plan.None? then None
    else
      var steps := plan.value.steps;
      var i := IndexOf(steps, id);
      if i < |steps| then Some(plan.value.(steps := steps[i := steps[i].(status := status, result := result)]))
      else plan
  }

  class PlanAndSolvePlanner {
    var plan: Option<ActionPlan>

    constructor ()
      ensures plan == None
    {
      plan := None;
    }

    /** `generated` is what parsing the model's answer yields, if a plan has to be generated. */
    method Plan(generated: Option<seq<RawStep>>) returns (o: PlanOutcome)
      modifies this
      ensures (o, plan) == AfterPlan(old(plan), generated)
    {
      if plan == None {
        plan := FreshPlan(generated);
        if plan == None { return PlanFailed(GenerationFailed); }
      }
      var steps := plan.value.steps;
      var r := 0;
      while r < |steps|
        invariant 0 <= r <= |steps|
        invariant forall k :: 0 <= k < r ==> !steps[k].status.StepRunning?
      {
        if steps[r].status == StepRunning {
          return PlanFailed(StepStillRunning(steps[r].stepId));
        }
        r := r + 1;
      }
      var n := NextStep();
      if n == None {
        return Planned(PlanResult(Action(FinalAnswerAction, "", NilParams, SummarizeResults(steps)), ""));
      }
      var i := n.value;
      plan := Some(ActionPlan(steps[i := steps[i].(status := StepRunning)], i));
      return Planned(PlanResult(steps[i].action, steps[i].description));
    }

    method NextStep() returns (step: Option<nat>)
      requires plan.Some?
      ensures var steps := plan.value.steps;
              var n := FirstUnfinished(steps);
              step == if n < |steps| && steps[n].status.StepPending? then Some(n) else None
    {
      var steps := plan.value.steps;
      var i := 0;
      while i < |steps|
        invariant 0 <= i <= |steps|
        invariant forall k :: 0 <= k < i ==> Finished(steps[k])
      {
        match steps[i].status {
          case StepDone | StepSkipped =>
          case StepFailed | StepRunning => return None;
          case StepPending => return Some(i);
        }
        i := i + 1;
      }
      return None;
    }

    method MarkStep(stepId: int, status: StepStatus, result: string)
      modifies this
      ensures plan == Marked(old(plan), stepId, status, result)
    {
      if plan == None { return; }
      var steps := plan.value.steps;
      var i := 0;
      while i < |steps|
        invariant 0 <= i <= |steps|
        invariant forall k :: 0 <= k < i ==> steps[k].stepId != stepId
      {
        if steps[i].stepId == stepId {
          plan := Some(plan.value.(steps := steps[i := steps[i].(status := status, result := result)]));
          return;
        }
        i := i + 1;
      }
    }

    method MarkStepDone(stepId: int, result: string)
      modifies this
      ensures plan == Marked(old(plan), stepId, StepDone, result)
    {
      MarkStep(stepId, StepDone, result);
    }

    method MarkStepFailed(stepId: int, err: string)
      modifies this
      ensures plan == Marked(old(plan), stepId, StepFailed, err)
    {
      MarkStep(stepId, StepFailed, err);
    }

    method Replan(generated: Option<seq<RawStep>>) returns (ok: bool)
      modifies this
      ensures plan == FreshPlan(generated) && ok == plan.Some?
    {
      plan := FreshPlan(generated);
      ok := plan.Some?;
    }
  }

  // ----- what a plan goes through -----

  /** Done or skipped steps, then at most one step that is running or failed, then pending steps. */
  ghost predicate Staged(steps: seq<PlanStep>) {
    forall i, j :: 0 <= i < j < |steps| ==> Finished(steps[i]) || steps[j].status.StepPending?
  }

  ghost predicate DistinctIds(steps: seq<PlanStep>) {
    forall i, j :: 0 <= i < j < |steps| ==> steps[i].stepId != steps[j].stepId
  }

  ghost predicate StagedPlan(plan: Option<ActionPlan>) {
    plan.Some? ==> Staged(plan.value.steps) && DistinctIds(plan.value.steps)
  }

  /** `Plan` is refused exactly while a step runs, hands out the first unfinished step exactly if it is
      pending, and otherwise, when all steps are finished or the first unfinished one failed, answers. */
  lemma PlanAnswersWhen(plan: ActionPlan)
    ensures var steps := plan.steps;
            var n := FirstUnfinished(steps);
            var (o, p) := NextPlanned(plan);
            && (o.PlanFailed? <==> exists i :: 0 <= i < |steps| && steps[i].status.StepRunning?)
            && (o.Planned? && p != plan <==>
                  (forall i :: 0 <= i < |steps| ==> !steps[i].status.StepRunning?) && n < |steps| && steps[n].status.StepPending?)
            && (o.Planned? && p != plan ==>
                  && o.result == PlanResult(steps[n].action, steps[n].description)
                  && p == ActionPlan(steps[n := steps[n].(status := StepRunning)], n))
            && (o.Planned? && p == plan <==>
                  && (forall i :: 0 <= i < |steps| ==> !steps[i].status.StepRunning?)
                  && (n == |steps| || steps[n].status.StepFailed?))
            && (o.Planned? && p == plan ==>
                  o.result.action == Action(FinalAnswerAction, "", NilParams, SummarizeResults(steps)))
  {
  }

  lemma PlanKeepsStaged(plan: Option<ActionPlan>, generated: Option<seq<RawStep>>)
    requires StagedPlan(plan)
    requires plan.None? ==> StagedPlan(FreshPlan(generated))
    ensures StagedPlan(AfterPlan(plan, generated).1)
  {
  }

  /** Marking by ID reaches the running step exactly if no earlier step has its ID. */
  lemma MarkHitsRunningStepIff(steps: seq<PlanStep>, r: nat)
    requires r < |steps|
    ensures IndexOf(steps, steps[r].stepId) == r <==> forall k :: 0 <= k < r ==> steps[k].stepId != steps[r].stepId
  {
  }

  /** What the run loop does with a plan between two generations. */
  datatype PlanOp = AskPlan | ReportDone(result: string) | ReportFailed(err: string)

  /** What the run loop does after an execution: it reports on the running step, if there is one. */
  function Reported(plan: Option<ActionPlan>, status: StepStatus, result: string): Option<ActionPlan> {
    if plan.None? then None
    else
      var r := RunningIndex(plan.value.steps);
      if r == |plan.value.steps| then plan
      else Marked(plan, plan.value.steps[r].stepId, status, result)
  }

  /** With distinct IDs the report changes the running step and nothing else. */
  lemma ReportKeepsStaged(plan: Option<ActionPlan>, status: StepStatus, result: string)
    requires StagedPlan(plan) && plan.Some? && !status.StepPending?
    ensures var steps := plan.value.steps;
            var r := RunningIndex(steps);
            var p := Reported(plan, status, result);
            && StagedPlan(p)
            && p.Some?
            && p.value.steps == if r < |steps| then steps[r := steps[r].(status := status, result := result)] else steps
  {
  }

  /** Applies one operation. Also yields the index handed out, if any. */
  function Apply(plan: ActionPlan, op: PlanOp): (ActionPlan, seq<nat>) {
    match op
    case AskPlan =>
      var (o, p) := NextPlanned(plan);
      (p, if o.Planned? && p != plan then [p.currentStep] else [])
    case ReportDone(result) => (Reported(Some(plan), StepDone, result).value, [])
    case ReportFailed(err) => (Reported(Some(plan), StepFailed, err).value, [])
  }

  function HandedOut(plan: ActionPlan, ops: seq<PlanOp>): seq<nat>
    decreases |ops|
  {
    if ops == [] then []
    else var (p, handed) := Apply(plan, ops[0]); handed + HandedOut(p, ops[1..])
  }

  function Started(steps: seq<PlanStep>): (n: nat)
    ensures n <= |steps|
    ensures forall k :: 0 <= k < n ==> !steps[k].status.StepPending?
    ensures n < |steps| ==> steps[n].status.StepPending?
  {
    if steps == [] || steps[0].status.StepPending? then 0 else 1 + Started(steps[1..])
  }

  lemma ApplyStarts(plan: ActionPlan, op: PlanOp)
    requires Staged(plan.steps) && DistinctIds(plan.steps)
    ensures var (p, handed) := Apply(plan, op);
            && Staged(p.steps) && DistinctIds(p.steps) && |p.steps| == |plan.steps|
            && (handed == [] ==> Started(p.steps) == Started(plan.steps))
            && (handed != [] ==> handed == [Started(plan.steps)] && Started(p.steps) == Started(plan.steps) + 1)
  {
    var steps := plan.steps;
    var (p, handed) := Apply(plan, op);
    if op.AskPlan? {
      var n := FirstUnfinished(steps);
      if handed != [] {
        assert n == Started(steps);
        assert p.steps == steps[n := steps[n].(status := StepRunning)];
        StartedIs(p.steps, n + 1);
      }
    } else {
      ReportKeepsStaged(Some(plan), StepDone, if op.ReportDone? then op.result else "");
      ReportKeepsStaged(Some(plan), StepFailed, if op.ReportFailed? then op.err else "");
      StartedIs(p.steps, Started(steps));
    }
  }

  lemma StartedIs(steps: seq<PlanStep>, n: nat)
    requires n <= |steps|
    requires forall k :: 0 <= k < n ==> !steps[k].status.StepPending?
    requires n < |steps| ==> steps[n].status.StepPending?
    ensures Started(steps) == n
  {
  }

  function Range(from: nat, count: nat): seq<nat> {
    seq(count, i => from + i)
  }

  lemma RangeCons(from: nat, count: nat)
    ensures [from] + Range(from + 1, count) == Range(from, count + 1)
  {
  }

  /** Between two generations `Plan` hands out consecutive steps from the first pending one on, each once. */
  lemma {:induction false} HandsOutInOrder(plan: ActionPlan, ops: seq<PlanOp>)
    requires Staged(plan.steps) && DistinctIds(plan.steps)
    ensures var handed := HandedOut(plan, ops);
            handed == Range(Started(plan.steps), |handed|) && Started(plan.steps) + |handed| <= |plan.steps|
    decreases |ops|
  {
    hide Apply, Staged, DistinctIds, Started;
    if ops != [] {
      var (p, handed) := Apply(plan, ops[0]);
      ApplyStarts(plan, ops[0]);
      HandsOutInOrder(p, ops[1..]);
      if handed == [] {
        assert handed + HandedOut(p, ops[1..]) == HandedOut(p, ops[1..]);
      } else {
        RangeCons(Started(plan.steps), |HandedOut(p, ops[1..])|);
      }
    }
  }

  /** A fresh plan is handed out as a prefix of its steps. */
  lemma FreshPlanHandedOutAsPrefix(generated: Option<seq<RawStep>>, ops: seq<PlanOp>)
    requires FreshPlan(generated).Some? && DistinctIds(FreshPlan(generated).value.steps)
    ensures var handed := HandedOut(FreshPlan(generated).value, ops);
            handed == Range(0, |handed|) && |handed| <= |generated.value|
  {
    var plan := FreshPlan(generated).value;
    StartedIs(plan.steps, 0);
    HandsOutInOrder(plan, ops);
  }
}
