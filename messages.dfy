// The chat messages the agent graph passes between its nodes.
module Messages {
  import opened Wrappers
  import opened JsonValue

  /** One entry of an AI message's `tool_calls`: the tool's name, its arguments
      and the call id (`None` when the dict has no "id" key). */
  datatype ToolCall = ToolCall(name: string, args: Json, id: Option<string>)

  /** The four message classes: `HumanMessage`, `SystemMessage`, `AIMessage`
      (with its tool calls and `additional_kwargs`) and `ToolMessage` (with the
      id of the call it answers and the tool's name, when set). */
  datatype Message =
    | Human(content: string)
    | System(content: string)
    | AI(content: string, toolCalls: seq<ToolCall>, kwargs: seq<Field>)
    | Tool(content: string, toolCallId: string, name: Option<string>)

  /** The class name `type(m).__name__` reports. */
  function ClassName(m: Message): string {
    match m
    case Human(_) => "HumanMessage"
    case System(_) => "SystemMessage"
    case AI(_, _, _) => "AIMessage"
    case Tool(_, _, _) => "ToolMessage"
  }

  /** An AI message that asks for at least one tool. */
  predicate HasToolCalls(m: Message) {
    m.AI? && |m.toolCalls| > 0
  }

  /** `AIMessage(content=text, tool_calls=[])`. */
  function PlainAI(text: string): (m: Message)
    ensures m.AI? && !HasToolCalls(m) && m.content == text
  {
    AI(text, [], [])
  }

  /** The messages with the last one replaced. */
  function ReplaceLast(ms: seq<Message>, m: Message): (r: seq<Message>)
    requires |ms| > 0
    ensures |r| == |ms| && r[..|ms| - 1] == ms[..|ms| - 1] && r[|ms| - 1] == m
  {
    ms[..|ms| - 1] + [m]
  }
}
