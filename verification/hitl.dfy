/** interrupter/hitl.go: which actions a human has to look at. */
module Hitl {
  import opened Chat
  import Text

  datatype InterruptType = BeforeToolCall | AfterPlan | OnEscalate | OtherInterrupt(code: int)

  datatype HitlConfig = HitlConfig(requireApproval: seq<string>, autoApproveRead: bool)

  const READ_KEYWORDS: seq<string> :=
    ["read", "get", "list", "fetch", "query", "search", "retrieve", "lookup", "view", "download"]

  predicate IsReadClassTool(toolName: string) {
    var name := Text.ToLower(Text.TrimSpace(toolName));
    name != "" && exists kw | kw in READ_KEYWORDS :: Text.Contains(name, kw)
  }

  predicate ShouldInterrupt(h: HitlConfig, typ: InterruptType, action: Action) {
    match typ
    case AfterPlan | OnEscalate => true
    case BeforeToolCall => ShouldInterruptForTool(h, action)
    case OtherInterrupt(_) => true
  }

  predicate ShouldInterruptForTool(h: HitlConfig, action: Action) {
    if action.typ != ToolCallAction then false
    else if h.autoApproveRead && IsReadClassTool(action.toolName) then false
    else if |h.requireApproval| > 0 then action.toolName in h.requireApproval
    else true
  }

  /** The tools that no configuration rule exempts from approval. */
  predicate NeedsApproval(h: HitlConfig, toolName: string) {
    && (h.autoApproveRead ==> !IsReadClassTool(toolName))
    && (h.requireApproval == [] || toolName in h.requireApproval)
  }

  /** One of ten words stands somewhere in the tool name, in capitals or not. */
  ghost predicate NamesReading(toolName: string) {
    exists i: nat, w :: w in {"read", "get", "list", "fetch", "query", "search", "retrieve", "lookup", "view", "download"}
                        && Text.WordAt(toolName, i, w)
  }

  lemma ReadClassIff(toolName: string)
    ensures IsReadClassTool(toolName) <==> NamesReading(toolName)
  {
    hide Text.TrimSpace, Text.ToLower, Text.Contains, Text.WordAt;
    KeywordsAreWords();
    var name := Text.ToLower(Text.TrimSpace(toolName));
    forall w | w in READ_KEYWORDS
      ensures Text.Contains(name, w) <==> exists i: nat :: Text.WordAt(toolName, i, w)
      ensures name == "" ==> !Text.Contains(name, w)
    {
      Text.TrimmedContainsWord(toolName, w);
      NothingContained(w);
    }
    KeywordSet();
    if kw :| kw in READ_KEYWORDS && Text.Contains(name, kw) {
      var i: nat :| Text.WordAt(toolName, i, kw);
      assert NamesReading(toolName);
    }
    if i: nat, w :| w in READ_KEYWORDS && Text.WordAt(toolName, i, w) {
      assert Text.Contains(name, w);
    }
  }

  lemma NothingContained(w: string)
    requires w != ""
    ensures !Text.Contains("", w)
  {
  }

  lemma KeywordsAreWords()
    ensures forall w :: w in READ_KEYWORDS ==> Text.IsWord(w)
  {
  }

  lemma KeywordSet()
    ensures forall w :: w in READ_KEYWORDS <==>
              w in {"read", "get", "list", "fetch", "query", "search", "retrieve", "lookup", "view", "download"}
  {
  }

  /** The handler asks a human about every plan and escalation; of actions it asks about tool calls only, and about
      those unless reading tools are approved and the name says so, or there is a list and the tool is not on it. */
  lemma InterruptsIff(h: HitlConfig, typ: InterruptType, action: Action)
    ensures ShouldInterrupt(h, typ, action) <==>
              (typ == BeforeToolCall ==>
                 && action.typ == ToolCallAction
                 && !(h.autoApproveRead && NamesReading(action.toolName))
                 && (h.requireApproval == [] || action.toolName in h.requireApproval))
  {
    hide IsReadClassTool, NamesReading;
    ReadClassIff(action.toolName);
  }

  /** The calls that the handler interrupts are those of the tools that need approval. */
  lemma NeedsApprovalIff(h: HitlConfig, toolName: string)
    ensures NeedsApproval(h, toolName) <==>
              !(h.autoApproveRead && NamesReading(toolName)) && (h.requireApproval == [] || toolName in h.requireApproval)
  {
    hide IsReadClassTool, NamesReading;
    ReadClassIff(toolName);
  }
}
