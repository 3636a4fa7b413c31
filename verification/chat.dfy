/** Chat messages (model/message.go) and the planner's actions (planner/planner.go). */
module Chat {

  datatype Role = System | User | Assistant | Tool | OtherRole(name: string)

  /** A tool input map: nil, or the map that the given JSON text describes. */
  datatype Params = NilParams | Params(json: string)

  datatype ToolCall = ToolCall(id: string, name: string, arguments: Params)

  datatype Message = Message(role: Role, content: string, toolCalls: seq<ToolCall>, toolCallId: string, name: string)

  function Plain(role: Role, content: string): Message {
    Message(role, content, [], "", "")
  }

  predicate CallsTools(m: Message) {
    m.role == Assistant && |m.toolCalls| > 0
  }

  /** How many system messages the list starts with. */
  function LeadingSystem(ms: seq<Message>): (n: nat)
    ensures n <= |ms|
    ensures forall i :: 0 <= i < n ==> ms[i].role.System?
    ensures n < |ms| ==> !ms[n].role.System?
  {
    if ms == [] || !ms[0].role.System? then 0 else 1 + LeadingSystem(ms[1..])
  }

  datatype ActionType = ToolCallAction | FinalAnswerAction | AskHumanAction | UnknownAction(code: int)

  datatype Action = Action(typ: ActionType, toolName: string, toolInput: Params, answer: string)
}
