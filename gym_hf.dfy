// The hosted-model gym graph (src/agents/gym/app_hf.py): messages are turned
// into role-tagged chat entries for the model, whose reply carries text only;
// the router copies the last message's calls into the state in place.
module GymHf {
  import opened Wrappers
  import opened Strings
  import opened JsonValue
  import opened Messages
  import opened ToolNode

  /** One `{"role": ..., "content": ...}` entry. */
  datatype Chat = Chat(role: string, content: string)

  /** The role each kind of message is sent under. */
  function RoleOf(m: Message): string {
    match m
    case System(_) => "system"
    case Human(_) => "user"
    case AI(_, _, _) => "assistant"
    case Tool(_, _, _) => "function"
  }

  /** The loop of `call_llm` that builds the chat entries. Every kind of
      message has a role, so none is dropped. */
  method FormatMessages(ms: seq<Message>) returns (r: seq<Chat>)
    ensures |r| == |ms|
    ensures forall i | 0 <= i < |ms| :: r[i] == Chat(RoleOf(ms[i]), ms[i].content)
  {
    r := [];
    var i := 0;
    while i < |ms|
      invariant 0 <= i <= |ms| && |r| == i
      invariant forall k | 0 <= k < i :: r[k] == Chat(RoleOf(ms[k]), ms[k].content)
    {
      var m := ms[i];
      var entry :=
        if m.System? then Chat("system", m.content)
        else if m.Human? then Chat("user", m.content)
        else if m.AI? then Chat("assistant", m.content)
        else Chat("function", m.content);
      r := r + [entry];
      i := i + 1;
    }
  }

  const Apology := "I apologize, but I'm having " + "trouble processing your request. " + "Please try again."

  /** `tool_calls` and `tool_outputs` of the state (the outputs are strings here). */
  class HfState {
    var messages: seq<Message>
    var calls: seq<ToolCall>
    var outputs: seq<string>

    constructor (ms: seq<Message>)
      ensures messages == ms && calls == [] && outputs == []
    {
      messages := ms;
      calls := [];
      outputs := [];
    }

    /** `call_llm`. `complete` is the hosted model: the text of its first
        choice, or `None` when the call raises. Only the text is kept, so the
        reply never has tool calls. */
    method CallLlm(complete: seq<Chat> -> Option<string>)
      modifies this
      ensures |messages| == |old(messages)| + 1 && messages[..|old(messages)|] == old(messages)
      ensures messages[|messages| - 1] == PlainAI(complete(Formatted(old(messages))).GetOr(Apology))
      ensures calls == [] && outputs == []
    {
      var chats := FormatMessages(messages);
      assert chats == Formatted(messages);
      var reply := complete(chats);
      messages := messages + [PlainAI(reply.GetOr(Apology))];
      calls := [];
      outputs := [];
    }

    /** `should_call_tools`: when the last message is a model message with
        calls, those calls are written into the state before routing to the
        tools. */
    method ShouldCallTools() returns (toTools: bool)
      requires |messages| > 0
      modifies this
      ensures messages == old(messages) && outputs == old(outputs)
      ensures toTools <==> HasToolCalls(messages[|messages| - 1])
      ensures calls == (if toTools then messages[|messages| - 1].toolCalls else old(calls))
    {
      var last := messages[|messages| - 1];
      if last.AI? && |last.toolCalls| > 0 {
        calls := last.toolCalls;
        return true;
      }
      return false;
    }
  }

  /** The chat entries of a message list, one per message. */
  function Formatted(ms: seq<Message>): (r: seq<Chat>)
    ensures |r| == |ms| && forall i | 0 <= i < |ms| :: r[i] == Chat(RoleOf(ms[i]), ms[i].content)
  {
    if |ms| == 0 then [] else [Chat(RoleOf(ms[0]), ms[0].content)] + Formatted(ms[1..])
  }

  /** After every model call the router ends the run: the reply has no calls. */
  method LlmThenRoute(s: HfState, complete: seq<Chat> -> Option<string>) returns (toTools: bool)
    modifies s
    ensures !toTools && s.calls == []
  {
    s.CallLlm(complete);
    toTools := s.ShouldCallTools();
  }

  /** `call_tools`: one output text per call, in order; the calls are cleared. */
  function HfOutputFor(call: ToolCall, registry: set<string>, invoke: (string, Json) -> ToolOutcome): string {
    if call.name !in registry then "Error: Tool '" + call.name + "' not found."
    else match invoke(call.name, call.args)
      case Returned(t) => t
      case Raised(e) => "Error calling tool " + call.name + ": " + e
  }

  function HfOutputs(calls: seq<ToolCall>, registry: set<string>, invoke: (string, Json) -> ToolOutcome): (r: seq<string>)
    ensures |r| == |calls| && forall i | 0 <= i < |calls| :: r[i] == HfOutputFor(calls[i], registry, invoke)
  {
    if |calls| == 0 then [] else [HfOutputFor(calls[0], registry, invoke)] + HfOutputs(calls[1..], registry, invoke)
  }

  /** The result of `call_tools` and `add_tool_outputs_to_messages`: the
      messages, the calls and the outputs. */
  datatype Snapshot = Snapshot(messages: seq<Message>, calls: seq<ToolCall>, outputs: seq<string>)

  function CallTools(s: Snapshot, registry: set<string>, invoke: (string, Json) -> ToolOutcome): (r: Snapshot)
    ensures r.messages == s.messages && r.calls == []
    ensures |r.outputs| == |s.calls|
    ensures forall i | 0 <= i < |s.calls| :: r.outputs[i] == HfOutputFor(s.calls[i], registry, invoke)
  {
    if |s.calls| == 0 then Snapshot(s.messages, [], [])
    else Snapshot(s.messages, [], HfOutputs(s.calls, registry, invoke))
  }

  /** The tool messages paired by position; a call without an id gets
      "unknown". */
  function HfPaired(calls: seq<ToolCall>, outputs: seq<string>): (r: seq<Message>)
    ensures |r| == if |calls| <= |outputs| then |calls| else |outputs|
    ensures forall i | 0 <= i < |r| :: r[i] == Tool(outputs[i], calls[i].id.GetOr("unknown"), None)
  {
    if |calls| == 0 || |outputs| == 0 then []
    else [Tool(outputs[0], calls[0].id.GetOr("unknown"), None)] + HfPaired(calls[1..], outputs[1..])
  }

  /** `add_tool_outputs_to_messages`. */
  function AddToolOutputs(s: Snapshot): (r: Snapshot)
    ensures |s.outputs| == 0 || |s.calls| == 0 ==> r == s
    ensures |s.outputs| > 0 && |s.calls| > 0 ==>
      var n := if |s.calls| <= |s.outputs| then |s.calls| else |s.outputs|;
      r.calls == [] && r.outputs == [] && |r.messages| == |s.messages| + n && r.messages[..|s.messages|] == s.messages
      && forall i | 0 <= i < n :: r.messages[|s.messages| + i] == Tool(s.outputs[i], s.calls[i].id.GetOr("unknown"), None)
  {
    if |s.outputs| == 0 || |s.calls| == 0 then s
    else Snapshot(s.messages + HfPaired(s.calls, s.outputs), [], [])
  }

  /** As in the other gym graph, the node after `call_tools` sees no calls and
      adds nothing. */
  lemma HfOutputsNeverReachMessages(s: Snapshot, registry: set<string>, invoke: (string, Json) -> ToolOutcome)
    ensures AddToolOutputs(CallTools(s, registry, invoke)).messages == s.messages
  {
  }
}
