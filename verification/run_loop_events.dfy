/** Where the events of a run come from: each belongs to one turn, and says what was asked and answered there. */
module RunLoopEvents {
  import opened Wrappers
  import opened Chat
  import opened LoopDetection
  import opened Planner
  import opened RunLoop
  import opened RunLoopControl
  import opened RunLoopSafety

  /** The run is still going after the first k turns, and one more follows. */
  predicate GoesOn(cfg: Config, l: Loop, script: seq<Oracle>, k: int) {
    0 <= k < |script| && Run(cfg, l, script[..k]).result.None?
  }

  /** The position in which turn k starts. */
  function At(cfg: Config, l: Loop, script: seq<Oracle>, k: int): Loop
    requires GoesOn(cfg, l, script, k)
  {
    Run(cfg, l, script[..k]).loop
  }

  /** The events that precede turn k. */
  function LogBefore(cfg: Config, l: Loop, script: seq<Oracle>, k: int): seq<Event>
    requires GoesOn(cfg, l, script, k)
  {
    Run(cfg, l, script[..k]).events
  }

  /** Turn k logs event j. */
  predicate Logs(cfg: Config, l: Loop, script: seq<Oracle>, k: int, j: int) {
    && GoesOn(cfg, l, script, k)
    && var (n, u) := (|LogBefore(cfg, l, script, k)|, Step(cfg, At(cfg, l, script, k), script[k]));
       n <= j < n + |u.events| && j < |Run(cfg, l, script).events| && Run(cfg, l, script).events[j] == u.events[j - n]
  }

  lemma {:induction false} LaterTurn(cfg: Config, l: Loop, script: seq<Oracle>, k: nat)
    requires script != [] && Step(cfg, l, script[0]).result.None?
    ensures var t := Step(cfg, l, script[0]);
            && (GoesOn(cfg, l, script, k + 1) <==> GoesOn(cfg, t.loop, script[1..], k))
            && (GoesOn(cfg, l, script, k + 1) ==>
                  && At(cfg, l, script, k + 1) == At(cfg, t.loop, script[1..], k)
                  && LogBefore(cfg, l, script, k + 1) == t.events + LogBefore(cfg, t.loop, script[1..], k)
                  && script[k + 1] == script[1..][k])
  {
    hide Step;
    if k + 1 < |script| { assert script[..k + 1][1..] == script[1..][..k]; }
  }

  lemma FirstTurn(cfg: Config, l: Loop, script: seq<Oracle>)
    requires script != []
    ensures GoesOn(cfg, l, script, 0) && At(cfg, l, script, 0) == l && LogBefore(cfg, l, script, 0) == []
  {
    hide Step;
    assert script[..0] == [];
  }

  /** Every event is logged by some turn. */
  lemma {:induction false} TurnOfEvent(cfg: Config, l: Loop, script: seq<Oracle>, j: nat) returns (k: nat)
    requires j < |Run(cfg, l, script).events|
    ensures Logs(cfg, l, script, k, j)
    decreases |script|
  {
    hide Step, GoesOn, At, LogBefore;
    var t := Step(cfg, l, script[0]);
    FirstTurn(cfg, l, script);
    if j < |t.events| {
      k := 0;
    } else {
      var rest := TurnOfEvent(cfg, t.loop, script[1..], j - |t.events|);
      LaterTurn(cfg, l, script, rest);
      k := rest + 1;
    }
  }

  /** What a run goes through is sound. */
  lemma {:induction false} SoundAt(cfg: Config, l: Loop, script: seq<Oracle>, k: int)
    requires Sound(cfg, ControlOf(l)) && GoesOn(cfg, l, script, k)
    ensures Sound(cfg, ControlOf(At(cfg, l, script, k)))
  {
    hide Sound, Step;
    RunKeepsSound(cfg, l, script[..k]);
  }

  /** The k-th position at the gate lets the action a pass: with an interrupter that wants no human, or without
      one, a is the proposed action; with a human's approval it is that action with the human's input, if one was
      given. */
  predicate LetsPass(cfg: Config, g: Loop, o: Oracle, a: Action) {
    && g.state.StateInterrupt? && !g.evalEscalate && g.pending.Some? && g.pending.value.typ.ToolCallAction?
    && var p := g.pending.value;
       if !cfg.hasInterrupter || (o.should.Some? && !o.should.value) then a == p
       else
         && o.should.Some? && o.human.Reply? && o.human.approved
         && a == Action(p.typ, p.toolName, if o.human.modified != NilParams then o.human.modified else p.toolInput, p.answer)
  }

  /** An honest permit for a tool call was given at the gate. */
  lemma HonestPermit(cfg: Config, g: Loop, o: Oracle, e: Event, a: Action)
    requires Sound(cfg, ControlOf(g)) && Honest(cfg, g, o, e) && Permits(cfg, e, a) && a.typ.ToolCallAction?
    ensures LetsPass(cfg, g, o, a)
  {
  }

  /** In every run, each executed action was let through at the gate by a turn of the same planning round: it is
      the action proposed there, with the human's input if one was given. */
  lemma {:induction false} ExecutedAsPermitted(cfg: Config, memory: seq<Message>, calls: seq<Signature>, plan: Option<ActionPlan>,
                                               script: seq<Oracle>, j: nat) returns (i: nat, k: nat)
    requires var log := RunFromStart(cfg, Start(cfg, memory, calls, plan), script).events; j < |log| && log[j].Executed?
    ensures var start := Start(cfg, memory, calls, plan);
            var log := RunFromStart(cfg, start, script).events;
            && i < j && (forall m :: i < m < j ==> !log[m].PlanRound?)
            && Logs(cfg, start, script, k, i) && LetsPass(cfg, At(cfg, start, script, k), script[k], log[j].action)
  {
    hide Run, At, LogBefore, Sound, Permits;
    var start := Start(cfg, memory, calls, plan);
    assert cfg.hasPlanner;
    var log := Run(cfg, start, script).events;
    ApprovalSafety(cfg, memory, calls, plan, script);
    var a := log[j].action;
    i :| PermitAt(cfg, log[..j], a, i);
    assert log[..j][i] == log[i] && forall m :: i < m < j ==> log[..j][m] == log[m];
    k := TurnOfEvent(cfg, start, script, i);
    StartIsSound(cfg, memory, calls, plan);
    SoundAt(cfg, start, script, k);
    var g := At(cfg, start, script, k);
    var u := Step(cfg, g, script[k]);
    EventsAreHonest(cfg, g, script[k], u);
    HonestPermit(cfg, g, script[k], log[i], a);
  }

  lemma StartIsSound(cfg: Config, memory: seq<Message>, calls: seq<Signature>, plan: Option<ActionPlan>)
    ensures Sound(cfg, ControlOf(Start(cfg, memory, calls, plan)))
  {
  }
}
