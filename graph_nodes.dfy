// The three nodes of the first gym graph (src/agents/agent/graph_nodes.py).
// Each returns a new state built from the old one; the model and the tools
// are oracles.
module GraphNodes {
  import opened Wrappers
  import opened Strings
  import opened JsonValue
  import opened Messages
  import opened LlmNode
  import opened ToolNode

  /** What a tool produced: its return value, or a `ToolException`. */
  datatype ToolOut = Value(text: string) | ToolExc(message: string)

  /** `str(output)`: a `ToolException` prints as its message. */
  function OutText(o: ToolOut): string {
    match o
    case Value(t) => t
    case ToolExc(m) => m
  }

  /** The graph state: `messages`, `tool_calls`, `tool_outputs`. */
  datatype GraphState = GraphState(messages: seq<Message>, calls: seq<ToolCall>, outputs: seq<ToolOut>)

  const Apology := "I apologize, but I'm having " + "trouble processing your request. " + "Please try again."

  /** `call_llm`: the model sees the messages as they are; its reply is
      appended and its calls become the state's calls. A failure appends a
      fixed apology with no calls. */
  function CallLlm(s: GraphState, llm: seq<Message> -> LlmOutcome): (r: GraphState)
    ensures |r.messages| == |s.messages| + 1 && r.messages[..|s.messages|] == s.messages
    ensures r.messages[|s.messages|].AI? && r.calls == r.messages[|s.messages|].toolCalls && r.outputs == []
    ensures llm(s.messages).LlmFailed? ==> r.messages[|s.messages|] == PlainAI(Apology) && r.calls == []
    ensures llm(s.messages).Answered? ==> r.messages[|s.messages|].content == llm(s.messages).content
  {
    match llm(s.messages)
    case Answered(content, calls, kwargs) => GraphState(s.messages + [AI(content, calls, kwargs)], calls, [])
    case LlmFailed(_) => GraphState(s.messages + [PlainAI(Apology)], [], [])
  }

  /** The output for one call. */
  function OutputFor(call: ToolCall, registry: set<string>, invoke: (string, Json) -> ToolOutcome): ToolOut {
    if call.name !in registry then ToolExc("Error: Tool '" + call.name + "' not found.")
    else match invoke(call.name, call.args)
      case Returned(t) => Value(t)
      case Raised(e) => ToolExc("Error calling tool " + call.name + ": " + e)
  }

  /** The loop over the calls: one output per call, in order. */
  function Outputs(calls: seq<ToolCall>, registry: set<string>, invoke: (string, Json) -> ToolOutcome): (r: seq<ToolOut>)
    ensures |r| == |calls|
    ensures forall i | 0 <= i < |calls| :: r[i] == OutputFor(calls[i], registry, invoke)
  {
    if |calls| == 0 then []
    else [OutputFor(calls[0], registry, invoke)] + Outputs(calls[1..], registry, invoke)
  }

  /** `call_tools`. */
  function CallTools(s: GraphState, registry: set<string>, invoke: (string, Json) -> ToolOutcome): GraphState {
    if |s.calls| == 0 then GraphState(s.messages, [], [])
    else GraphState(s.messages, [], Outputs(s.calls, registry, invoke))
  }

  /** The node keeps the messages, always clears the calls, and produces one
      output per call, in order; an unknown tool or a raising tool gives an
      exception value in that call's place. */
  lemma CallToolsShape(s: GraphState, registry: set<string>, invoke: (string, Json) -> ToolOutcome)
    ensures var r := CallTools(s, registry, invoke);
      r.messages == s.messages && r.calls == [] && |r.outputs| == |s.calls|
      && forall i | 0 <= i < |s.calls| :: r.outputs[i] == OutputFor(s.calls[i], registry, invoke)
  {
  }

  /** A call that names no registered tool gets the not-found exception. */
  lemma UnknownToolOutput(call: ToolCall, registry: set<string>, invoke: (string, Json) -> ToolOutcome)
    requires call.name !in registry
    ensures OutputFor(call, registry, invoke).ToolExc?
    ensures OutText(OutputFor(call, registry, invoke)) == "Error: Tool '" + call.name + "' not found."
  {
  }

  /** The tool messages for the calls and outputs paired by position, as far
      as the shorter list goes. */
  function Paired(calls: seq<ToolCall>, outputs: seq<ToolOut>): (r: seq<Message>)
    requires forall i | 0 <= i < |calls| && i < |outputs| :: calls[i].id.Some?
    ensures |r| == if |calls| <= |outputs| then |calls| else |outputs|
    ensures forall i | 0 <= i < |r| :: r[i] == Tool(OutText(outputs[i]), calls[i].id.value, None)
  {
    if |calls| == 0 || |outputs| == 0 then []
    else [Tool(OutText(outputs[0]), calls[0].id.value, None)] + Paired(calls[1..], outputs[1..])
  }

  /** `add_tool_outputs_to_messages`. Every paired call has an id
      (`call['id']` is read for each). */
  function AddToolOutputs(s: GraphState): GraphState
    requires forall i | 0 <= i < |s.calls| && i < |s.outputs| :: s.calls[i].id.Some?
  {
    if |s.outputs| == 0 || |s.calls| == 0 then s
    else GraphState(s.messages + Paired(s.calls, s.outputs), [], [])
  }

  /** When both lists are non-empty, one message per pair is appended and
      both lists are cleared; otherwise the state is returned unchanged. */
  lemma AddToolOutputsShape(s: GraphState)
    requires forall i | 0 <= i < |s.calls| && i < |s.outputs| :: s.calls[i].id.Some?
    ensures |s.outputs| == 0 || |s.calls| == 0 ==> AddToolOutputs(s) == s
    ensures |s.outputs| > 0 && |s.calls| > 0 ==>
      var r := AddToolOutputs(s);
      var n := if |s.calls| <= |s.outputs| then |s.calls| else |s.outputs|;
      r.calls == [] && r.outputs == [] && |r.messages| == |s.messages| + n && r.messages[..|s.messages|] == s.messages
      && forall i | 0 <= i < n :: r.messages[|s.messages| + i] == Tool(OutText(s.outputs[i]), s.calls[i].id.value, None)
  {
  }

  /** Run right after `call_tools`, this node sees no calls, so it never adds
      a message: the tool outputs never reach the conversation. */
  lemma OutputsNeverReachMessages(s: GraphState, registry: set<string>, invoke: (string, Json) -> ToolOutcome)
    ensures AddToolOutputs(CallTools(s, registry, invoke)) == CallTools(s, registry, invoke)
    ensures AddToolOutputs(CallTools(s, registry, invoke)).messages == s.messages
  {
  }

  /** `call_tools` as evidently intended: the calls are kept for the next node
      to pair with the outputs. */
  function CallToolsKeepingCalls(s: GraphState, registry: set<string>, invoke: (string, Json) -> ToolOutcome): GraphState {
    GraphState(s.messages, s.calls, Outputs(s.calls, registry, invoke))
  }

  /** With the calls kept, every call with an id gets its tool message, in
      order, after the earlier messages. */
  lemma KeptCallsReachMessages(s: GraphState, registry: set<string>, invoke: (string, Json) -> ToolOutcome)
    requires |s.calls| > 0 && forall i | 0 <= i < |s.calls| :: s.calls[i].id.Some?
    ensures var r := AddToolOutputs(CallToolsKeepingCalls(s, registry, invoke));
      |r.messages| == |s.messages| + |s.calls| && r.messages[..|s.messages|] == s.messages
      && forall i | 0 <= i < |s.calls| ::
           r.messages[|s.messages| + i] == Tool(OutText(OutputFor(s.calls[i], registry, invoke)), s.calls[i].id.value, None)
  {
  }
}
