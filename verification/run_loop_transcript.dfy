/** With a memory that neither trims nor fails, the loop keeps the conversation well-formed. */
module RunLoopTranscript {
  import opened Wrappers
  import opened Chat
  import opened Transcript
  import opened TranscriptMemory
  import opened BufferedMemory
  import opened Compressor
  import opened LoopDetection
  import opened Planner
  import opened RunLoop
  import opened RunLoopControl
  import opened RunLoopSafety
  import Text

  predicate Faultless(o: Oracle) {
    o.read && o.reread && o.clear && o.add == Working && o.readd == Working
  }

  predicate FaultlessScript(script: seq<Oracle>) {
    forall i :: 0 <= i < |script| ==> Faultless(script[i])
  }

  /** The loop is executing a call that it has not executed before: the last execution had another ID. */
  predicate FirstAttempt(l: Loop) {
    l.state.StateExecuting? && !(l.lastExec.Some? && l.lastExec.value.callId == l.pendingCallId)
  }

  /** What is unanswered where the loop stands or has ended: the pending call during its first attempt, else
      nothing. */
  ghost predicate Standing(l: Loop) {
    var t := Scan(Closed, l.memory);
    if FirstAttempt(l) then t == Tail({l.pendingCallId}, {l.pendingCallId}) else Complete(t)
  }

  /** Moreover a retry can still answer the last call. */
  ghost predicate Tracked(l: Loop) {
    var t := Scan(Closed, l.memory);
    && Standing(l)
    && (l.state.StateExecuting? ==> t.Tail? && l.pendingCallId in t.ids)
    && (l.state.StateEvaluating? && l.lastExec.Some? ==> t.Tail? && l.lastExec.value.callId in t.ids)
  }

  // ----- call IDs -----

  ghost predicate IssuedUpTo(id: string, iteration: int) {
    exists k: nat :: k <= iteration && IssuedIn(id, k)
  }

  /** Call IDs tell the iteration that made them; when a call is about to be announced, the last execution's is
      an earlier one's. */
  ghost predicate Numbered(c: Control) {
    && (c.lastExec.Some? ==>
          IssuedUpTo(c.lastExec.value.callId, if c.state.StateInterrupt? && !c.escalate then c.iteration - 1 else c.iteration))
    && (c.state.StateExecuting? ==> IssuedUpTo(c.callId, c.iteration))
  }

  lemma MoveKeepsNumbered(cfg: Config, c: Control, d: Control, events: seq<Event>)
    requires Sound(cfg, c) && Numbered(c) && Moves(cfg, c, d, events)
    ensures Numbered(d)
  {
    hide Verdict, IssuedIn, Permits;
    if c.lastExec.Some? {
      var k: nat :| k <= c.iteration && IssuedIn(c.lastExec.value.callId, k);
    }
  }

  lemma FieldEnds(s: string, a: string, b: string)
    requires Text.Digits(a) && s == a + "_" + b
    ensures |a| < |s| && s[|a|] == '_' && s[..|a|] == a
    ensures forall i :: 0 <= i < |a| ==> s[i] != '_'
  {
  }

  /** Different iterations make different call IDs. */
  lemma CallIdsDiffer(i: nat, m: nat, j: nat, n: nat)
    requires CallId(i, m) == CallId(j, n)
    ensures i == j
  {
    hide Text.Itoa;
    var (a, b, c, d) := (Text.Itoa(i), Text.Itoa(m), Text.Itoa(j), Text.Itoa(n));
    Text.ItoaNumber(i);
    Text.ItoaNumber(j);
    var s := CallId(i, m)[3..];
    assert s == a + "_" + b && s == c + "_" + d;
    FieldEnds(s, a, b);
    FieldEnds(s, c, d);
  }

  lemma NewIdIsNew(c: Control, nanos: nat)
    requires Numbered(c) && c.state.StateInterrupt? && !c.escalate && c.lastExec.Some?
    ensures c.lastExec.value.callId != CallId(c.iteration, nanos)
  {
    hide CallId;
    var k: nat :| k <= c.iteration - 1 && IssuedIn(c.lastExec.value.callId, k);
    var m: nat :| c.lastExec.value.callId == CallId(k, m);
    if CallId(k, m) == CallId(c.iteration, nanos) { CallIdsDiffer(k, m, c.iteration, nanos); }
  }

  // ----- what each kind of turn adds -----

  predicate Speech(m: Message) {
    !m.role.Tool? && !CallsTools(m)
  }

  lemma AppendSpeech(ms: seq<Message>, extra: seq<Message>)
    requires Complete(Scan(Closed, ms)) && 1 <= |extra| <= 2
    requires forall i :: 0 <= i < |extra| ==> Speech(extra[i])
    ensures Scan(Closed, ms + extra) == Closed
  {
    ScanConcat(Closed, ms, extra);
    if |extra| == 1 {
      ScanOne(Scan(Closed, ms), extra[0]);
      assert extra == [extra[0]];
    } else {
      ScanTwo(Scan(Closed, ms), extra[0], extra[1]);
      assert extra == [extra[0], extra[1]];
    }
  }

  lemma ScanOne(t: Tail, m: Message)
    ensures Scan(t, [m]) == Next(t, m)
  {
  }

  lemma AppendCall(ms: seq<Message>, call: Message)
    requires Complete(Scan(Closed, ms)) && call.role.Assistant? && |call.toolCalls| == 1
    ensures Scan(Closed, ms + [call]) == Tail({call.toolCalls[0].id}, {call.toolCalls[0].id})
  {
    ScanConcat(Closed, ms, [call]);
    ScanOne(Scan(Closed, ms), call);
    assert call.toolCalls == [call.toolCalls[0]];
    assert CallIds(call) == {call.toolCalls[0].id};
  }

  lemma AppendResult(ms: seq<Message>, result: Message)
    requires var t := Scan(Closed, ms);
             t.Tail? && result.role.Tool? && result.toolCallId in t.ids && t.open <= {result.toolCallId}
    ensures Scan(Closed, ms + [result]) == Tail(Scan(Closed, ms).ids, {})
  {
    ScanConcat(Closed, ms, [result]);
    ScanOne(Scan(Closed, ms), result);
  }

  /** Compressing behind a prompt and dropping the prompt again keeps the conversation complete. */
  lemma CompressBehindPrompt(prompt: string, ms: seq<Message>, summary: string)
    requires Complete(Scan(Closed, ms))
    ensures |Compressed([Plain(System, prompt)] + ms, summary)| > 1
    ensures Complete(Scan(Closed, Compressed([Plain(System, prompt)] + ms, summary)[1..]))
  {
    var sys := Plain(System, prompt);
    ScanConcat(Closed, [sys], ms);
    ScanOne(Closed, sys);
    WellFormedIffScan([sys] + ms);
    CompressKeepsWellFormed([sys] + ms, summary);
    var out := Compressed([sys] + ms, summary);
    WellFormedIffScan(out);
    assert LeadingSystem([sys] + ms) >= 1;
    assert out[0] == sys;
    assert Scan(Closed, out) == Scan(Next(Closed, sys), out[1..]);
  }

  lemma PlanningTracks(cfg: Config, l: Loop, o: Oracle)
    requires cfg.maxMessages <= 0 && Faultless(o) && Complete(Scan(Closed, l.memory))
    ensures Complete(Scan(Closed, PlanningTurn(cfg, l, o).loop.memory))
  {
    hide AfterPlan, Text.TrimSpace, Compressed;
    if o.summary.Given? {
      CompressBehindPrompt(cfg.systemPrompt, l.memory, o.summary.value);
      var list := Compressed([Plain(System, cfg.systemPrompt)] + l.memory, o.summary.value);
      assert [] + list[1..] == list[1..];
    }
    assert Complete(Scan(Closed, CompressedMemory(cfg, l.memory, o)));
    PlanningMemory(cfg, l, o);
  }

  lemma PlanningMemory(cfg: Config, l: Loop, o: Oracle)
    ensures PlanningTurn(cfg, l, o).loop.memory in {l.memory, CompressedMemory(cfg, l.memory, o)}
  {
    hide AfterPlan, Text.TrimSpace, CompressedMemory;
  }

  lemma AnnounceTracks(cfg: Config, l: Loop, a: Action, permit: Event, o: Oracle)
    requires cfg.maxMessages <= 0 && Faultless(o) && Complete(Scan(Closed, l.memory))
    requires l.lastExec.Some? ==> l.lastExec.value.callId != CallId(l.iteration, o.nanos)
    ensures Tracked(AnnounceTurn(cfg, l, a, permit, o).loop)
  {
    hide CallId;
    var id := CallId(l.iteration, o.nanos);
    var args := if a.toolInput.NilParams? then Params("{}") else a.toolInput;
    AppendCall(l.memory, Message(Assistant, l.pendingReasoning, [ToolCall(id, a.toolName, args)], "", ""));
  }

  lemma QuestionTracks(cfg: Config, l: Loop, question: string, answer: string, o: Oracle)
    requires cfg.maxMessages <= 0 && Faultless(o) && Complete(Scan(Closed, l.memory))
    ensures Tracked(QuestionTurn(cfg, l, question, answer, o).loop)
  {
    hide Text.TrimSpace;
    AppendSpeech(l.memory, [Plain(Assistant, Text.TrimSpace(question)), Plain(User, answer)]);
  }

  lemma InterruptTracks(cfg: Config, l: Loop, o: Oracle)
    requires cfg.maxMessages <= 0 && Faultless(o) && Complete(Scan(Closed, l.memory)) && l.state.StateInterrupt?
    requires Numbered(ControlOf(l))
    ensures Tracked(InterruptTurn(cfg, l, o).loop)
  {
    hide AnnounceTurn, QuestionTurn, Scan, CallId, Numbered;
    AppendSpeech(l.memory, [Plain(User, "Escalation review: " + HumanText(o.human))]);
    AppendSpeech(l.memory, [Plain(User, "Action denied or revised: " + HumanText(o.human))]);
    if l.pending.Some? && !l.evalEscalate {
      var a := l.pending.value;
      if l.lastExec.Some? { NewIdIsNew(ControlOf(l), o.nanos); }
      QuestionTracks(cfg, l, a.answer, NO_HUMAN, o);
      QuestionTracks(cfg, l, a.answer, SKIPPED, o);
      QuestionTracks(cfg, l, a.answer, HumanText(o.human), o);
      AnnounceTracks(cfg, l, a, Ungated(a), o);
      AnnounceTracks(cfg, l, a, Cleared(a), o);
      if o.human.Reply? {
        var b := Revised(a, o.human.modified);
        AnnounceTracks(cfg, l, b, Approved(a, o.human, b), o);
      }
    }
  }

  lemma ResultTracks(cfg: Config, memory: seq<Message>, result: Message, o: Oracle)
    requires cfg.maxMessages <= 0 && Faultless(o)
    requires var t := Scan(Closed, memory);
             t.Tail? && result.role.Tool? && result.toolCallId in t.ids && t.open <= {result.toolCallId}
    ensures Scan(Closed, ResultMemory(cfg, memory, result, o)) == Tail(Scan(Closed, memory).ids, {})
  {
    hide Tidied;
    var ms := memory + [result];
    AppendResult(memory, result);
    TidyKeepsScan(ms, cfg.recentTokens);
    assert [] + Tidied(ms, cfg.recentTokens) == Tidied(ms, cfg.recentTokens);
  }

  lemma ExecutingTracks(cfg: Config, l: Loop, o: Oracle)
    requires cfg.maxMessages <= 0 && Faultless(o) && Tracked(l) && l.state.StateExecuting?
    ensures Standing(ExecutingTurn(cfg, l, o).loop)
    ensures ExecutingTurn(cfg, l, o).result.None? ==> Tracked(ExecutingTurn(cfg, l, o).loop)
  {
    hide ResultMemory, Verdict, InjectLoopWarning, Reported, Scan;
    if l.pending.Some? && o.executed.Given? {
      var a := l.pending.value;
      var l1 := l.(calls := l.calls + [Signature(a.toolName, a.toolInput)]);
      var out := if Verdict(cfg.threshold, l1.calls).LoopWarning?
                 then InjectLoopWarning(o.shown, a.toolName, cfg.threshold) else o.shown;
      ResultTracks(cfg, l.memory, Message(Tool, out, [], l.pendingCallId, a.toolName), o);
    }
  }

  lemma CompletingTracks(cfg: Config, l: Loop, o: Oracle)
    requires cfg.maxMessages <= 0 && Faultless(o) && Complete(Scan(Closed, l.memory))
    requires l.state.StateCompleting?
    ensures var t := CompletingTurn(cfg, l, o);
            && Complete(Scan(Closed, t.loop.memory)) && !t.loop.state.StateExecuting? && !t.loop.state.StateEvaluating?
            && (t.result.Some? && t.result.value.Answered? ==> t.result.value.messages == t.loop.memory)
  {
    hide Text.TrimSpace, Scan;
    var ms := if Text.TrimSpace(l.completeAnswer) == "" then l.memory
              else l.memory + [Plain(Assistant, l.completeAnswer)];
    AppendSpeech(l.memory, [Plain(Assistant, l.completeAnswer)]);
    if o.invalid.Some? {
      AppendSpeech(ms, [Plain(User, o.invalid.value)]);
    }
  }

  lemma ReviewTracks(cfg: Config, l: Loop, o: Oracle)
    requires cfg.maxMessages <= 0 && Faultless(o) && Complete(Scan(Closed, l.memory))
    requires l.state.StatePlanReview?
    ensures var t := PlanReviewTurn(cfg, l, o);
            && Complete(Scan(Closed, t.loop.memory)) && !t.loop.state.StateExecuting? && !t.loop.state.StateEvaluating?
            && !(t.result.Some? && t.result.value.Answered?)
  {
    hide FreshPlan, Scan;
    AppendSpeech(l.memory, [Plain(User, "Plan review rejected: " + HumanText(o.human))]);
  }

  lemma EvaluatingTracks(cfg: Config, l: Loop, o: Oracle)
    requires Tracked(l) && l.state.StateEvaluating?
    ensures var t := EvaluatingTurn(cfg, l, o);
            Tracked(t.loop) && !(t.result.Some? && t.result.value.Answered?)
  {
    hide LastOutput, FreshPlan, Text.TrimSpace, Scan;
  }

  /** Every turn keeps track of what is to be answered. */
  lemma StepTracks(cfg: Config, l: Loop, o: Oracle)
    requires cfg.maxMessages <= 0 && Faultless(o) && Tracked(l) && Numbered(ControlOf(l))
    ensures Standing(Step(cfg, l, o).loop)
    ensures Step(cfg, l, o).result.None? ==> Tracked(Step(cfg, l, o).loop)
    ensures var r := Step(cfg, l, o).result;
            r.Some? && r.value.Answered? ==> Complete(Scan(Closed, r.value.messages))
  {
    hide Added, Text.TrimSpace, Scan, Numbered, AfterPlan, FreshPlan, InterruptTurn, ExecutingTurn, PlanningTurn,
         EvaluatingTurn, PlanReviewTurn, CompletingTurn;
    match l.state {
      case StatePlanning => PlanningTracks(cfg, l, o); PlanningLeaves(cfg, l, o);
      case StateInterrupt => InterruptTracks(cfg, l, o); OnlyCompletingAnswers(cfg, l, o);
      case StateExecuting => ExecutingTracks(cfg, l, o); OnlyCompletingAnswers(cfg, l, o);
      case StateCompleting => CompletingTracks(cfg, l, o);
      case StatePlanReview => ReviewTracks(cfg, l, o);
      case StateEvaluating => EvaluatingTracks(cfg, l, o);
      case StateInit | StatePlanGen | StateComplete | StateError =>
    }
  }

  lemma PlanningLeaves(cfg: Config, l: Loop, o: Oracle)
    requires l.state.StatePlanning?
    ensures var t := PlanningTurn(cfg, l, o);
            !t.loop.state.StateExecuting? && !t.loop.state.StateEvaluating?
            && !(t.result.Some? && t.result.value.Answered?)
  {
    hide AfterPlan, Text.TrimSpace, CompressedMemory;
  }

  lemma OnlyCompletingAnswers(cfg: Config, l: Loop, o: Oracle)
    ensures var r := InterruptTurn(cfg, l, o).result; !(r.Some? && r.value.Answered?)
    ensures var r := ExecutingTurn(cfg, l, o).result; !(r.Some? && r.value.Answered?)
  {
    hide Settled, Verdict, Added, Text.TrimSpace, CallId;
  }

  lemma {:induction false} RunTracks(cfg: Config, l: Loop, script: seq<Oracle>)
    requires cfg.maxMessages <= 0 && FaultlessScript(script)
    requires Tracked(l) && Sound(cfg, ControlOf(l)) && Numbered(ControlOf(l))
    ensures var t := Run(cfg, l, script);
            && Standing(t.loop)
            && (t.result.None? ==> Tracked(t.loop))
            && (t.result.Some? && t.result.value.Answered? ==> Complete(Scan(Closed, t.result.value.messages)))
    decreases |script|
  {
    hide Step, Standing, Scan, Faultless, Sound, Numbered, Moves, Stops;
    if script != [] {
      StepTracks(cfg, l, script[0]);
      StepFollows(cfg, l, script[0]);
      var t := Step(cfg, l, script[0]);
      if t.result.None? {
        MoveKeepsSound(cfg, ControlOf(l), ControlOf(t.loop), t.events);
        MoveKeepsNumbered(cfg, ControlOf(l), ControlOf(t.loop), t.events);
        RunTracks(cfg, t.loop, script[1..]);
      }
    }
  }

  lemma OnlyExecutingStopsThere(cfg: Config, l: Loop, o: Oracle)
    requires !l.state.StateExecuting?
    ensures var t := Step(cfg, l, o); t.result.Some? ==> !t.loop.state.StateExecuting?
  {
    hide PlanningTurn, AfterPlan, FreshPlan, Added, Text.TrimSpace, CallId, LastOutput;
    if l.state.StatePlanning? { PlanningLeaves(cfg, l, o); }
  }

  /** How a run can end while it executes. */
  predicate CutsShort(outcome: Outcome) {
    outcome in {Cancelled, Failed(LoopDetected), Failed(ExecutorFailed), Panicked}
  }

  lemma {:induction false} RunCutShort(cfg: Config, l: Loop, script: seq<Oracle>)
    ensures var t := Run(cfg, l, script);
            t.result.Some? && t.loop.state.StateExecuting? ==> CutsShort(t.result.value)
    decreases |script|
  {
    hide Step;
    if script != [] {
      var t := Step(cfg, l, script[0]);
      if t.result.None? {
        RunCutShort(cfg, t.loop, script[1..]);
      } else if l.state.StateExecuting? {
        ExecutingCutShort(cfg, l, script[0]);
      } else {
        OnlyExecutingStopsThere(cfg, l, script[0]);
      }
    }
  }

  lemma ExecutingCutShort(cfg: Config, l: Loop, o: Oracle)
    requires l.state.StateExecuting? && Step(cfg, l, o).result.Some?
    ensures CutsShort(Step(cfg, l, o).result.value)
  {
    hide Settled, Verdict;
  }

  /** Starting from a well-formed conversation, wherever a run stands and however it ends, the memory is
      well-formed exactly if the run is not at the first attempt to execute a call; and so are the messages of
      an answer. */
  lemma WellFormedIffNotFirstAttempt(cfg: Config, memory: seq<Message>, calls: seq<Signature>, plan: Option<ActionPlan>,
                                     script: seq<Oracle>)
    requires cfg.maxMessages <= 0 && FaultlessScript(script) && WellFormed(memory)
    ensures var t := RunFromStart(cfg, Start(cfg, memory, calls, plan), script);
            && (WellFormed(t.loop.memory) <==> !FirstAttempt(t.loop))
            && (t.result.Some? && FirstAttempt(t.loop) ==> CutsShort(t.result.value))
            && (t.result.Some? && t.result.value.Answered? ==> WellFormed(t.result.value.messages))
  {
    hide Run, Scan, WellFormed, FaultlessScript;
    var start := Start(cfg, memory, calls, plan);
    WellFormedIffScan(memory);
    RunTracks(cfg, start, script);
    RunCutShort(cfg, start, script);
    var t := RunFromStart(cfg, start, script);
    WellFormedIffScan(t.loop.memory);
    assert t.loop.pendingCallId in {t.loop.pendingCallId};
    if t.result.Some? && t.result.value.Answered? { WellFormedIffScan(t.result.value.messages); }
  }
}
