// `invoke_tools_node`: one tool message per requested call, in order, whatever
// the tools do. Variant A is in src/agents/agent_rag/agent.py and, with the same
// texts, src/agents/agent/tool_agent.py; src/agents/agent/api.py has a copy with
// shorter texts and no check of the `query` argument. Variant B is in
// src/agents/modules/agent.py.
module ToolNode {
  import opened Wrappers
  import opened Strings
  import opened JsonValue
  import opened Messages

  /** What `tool.invoke(args)` does: return a text, or raise with a message. */
  datatype ToolOutcome = Returned(text: string) | Raised(error: string)

  /** Which copy of variant A: src/agents/agent_rag/agent.py and
      src/agents/agent/tool_agent.py, or src/agents/agent/api.py. */
  datatype Copy = AgentCopy | ApiCopy

  const RagToolName := "external_rag_search_tool"

  /** The required arguments the copy checks for, in the order it lists them. */
  function Required(copy: Copy, name: string): seq<string> {
    if name == "book_gym_slot" then ["booking_date", "user_name"]
    else if name == "check_gym_availability" then ["target_date"]
    else if name == RagToolName && copy == AgentCopy then ["query"]
    else []
  }

  /** The required arguments that `args` lacks, in the order they are listed. */
  function Missing(required: seq<string>, args: Json): (r: seq<string>)
    ensures forall k :: k in r <==> k in required && !HasKey(args, k)
    ensures |r| == 0 <==> forall k | k in required :: HasKey(args, k)
  {
    if |required| == 0 then []
    else (if HasKey(args, required[0]) then [] else [required[0]]) + Missing(required[1..], args)
  }

  function NoCallsText(copy: Copy): string {
    match copy
    case AgentCopy => "Error: AIMessage inválida o sin tool_calls " + "para invocación en invoke_tools_node."
    case ApiCopy => "Error: AIMessage inválida o sin tool_calls " + "para invocación."
  }

  function NoCallsId(copy: Copy): string {
    match copy
    case AgentCopy => "error_no_valid_tool_calls"
    case ApiCopy => "error_no_tc"
  }

  function UnknownToolText(copy: Copy, name: string): string {
    match copy
    case AgentCopy => "Error: Herramienta desconocida o no disponible: '" + name + "'."
    case ApiCopy => "Error: Herramienta desconocida: '" + name + "'."
  }

  function MissingArgsText(copy: Copy, name: string, missing: seq<string>, args: Json): string {
    match copy
    case AgentCopy =>
      "Error: Para '" + name + "' faltan los argumentos requeridos: " + Join(", ", missing)
      + ". Argumentos recibidos: " + Repr(args)
    case ApiCopy =>
      "Error: Para '" + name + "' faltan args: " + Join(", ", missing) + ". Recibido: " + Repr(args)
  }

  function RaisedText(copy: Copy, name: string, error: string): string {
    match copy
    case AgentCopy => "Error al ejecutar la herramienta " + name + ": " + error
    case ApiCopy => "Error al ejecutar " + name + ": " + error
  }

  /** The fall-back name of a message for a malformed call. */
  function MalformedName(copy: Copy): string {
    match copy
    case AgentCopy => "unknown_tool"
    case ApiCopy => "unknown"
  }

  /** The text of the message for a well-formed call. */
  function ResultText(copy: Copy, name: string, args: Json, registry: set<string>,
                      invoke: (string, Json) -> ToolOutcome): string {
    if name !in registry then UnknownToolText(copy, name)
    else
      var missing := Missing(Required(copy, name), args);
      if |missing| > 0 then MissingArgsText(copy, name, missing, args)
      else match invoke(name, args)
        case Returned(t) => t
        case Raised(e) => RaisedText(copy, name, e)
  }

  /** The message for one call. `hex` is the `uuid4().hex` drawn for it, which
      becomes the id `tc_<hex>` when the call has none. */
  function MessageFor(copy: Copy, call: ToolCall, hex: string, registry: set<string>,
                      invoke: (string, Json) -> ToolOutcome): (m: Message)
    ensures m.Tool? && m.toolCallId == call.id.GetOr("tc_" + hex) && m.name.Some?
  {
    var id := call.id.GetOr("tc_" + hex);
    if call.name == "" || !call.args.JObj? then
      Tool("Error: llamada a herramienta malformada. Nombre: '" + call.name + "', Args: " + TypeRepr(call.args),
           id, Some(if call.name == "" then MalformedName(copy) else call.name))
    else
      Tool(ResultText(copy, call.name, call.args, registry, invoke), id, Some(call.name))
  }

  /** `invoke_tools_node`, variant A, proved call by call. `hexes(i)` is the
      uuid drawn for the i-th call. */
  method InvokeToolsA(copy: Copy, ms: seq<Message>, registry: set<string>,
                      invoke: (string, Json) -> ToolOutcome, hexes: nat -> string) returns (r: seq<Message>)
    requires |ms| > 0
    ensures !HasToolCalls(ms[|ms| - 1]) ==> r == ms + [Tool(NoCallsText(copy), NoCallsId(copy), None)]
    ensures HasToolCalls(ms[|ms| - 1]) ==>
      var calls := ms[|ms| - 1].toolCalls;
      |r| == |ms| + |calls| && r[..|ms|] == ms
      && forall i | 0 <= i < |calls| :: r[|ms| + i] == MessageFor(copy, calls[i], hexes(i), registry, invoke)
  {
    var last := ms[|ms| - 1];
    if !HasToolCalls(last) {
      return ms + [Tool(NoCallsText(copy), NoCallsId(copy), None)];
    }
    var calls := last.toolCalls;
    var out: seq<Message> := [];
    var i := 0;
    while i < |calls|
      invariant 0 <= i <= |calls| && |out| == i
      invariant forall k | 0 <= k < i :: out[k] == MessageFor(copy, calls[k], hexes(k), registry, invoke)
    {
      out := out + [MessageFor(copy, calls[i], hexes(i), registry, invoke)];
      i := i + 1;
    }
    r := ms + out;
  }

  /** A call that lacks a required argument is answered with a text naming
      exactly the missing arguments, and the tool is not called: the text is
      the same whatever the tool would have done. */
  lemma MissingArgumentsAnswered(copy: Copy, name: string, args: Json, registry: set<string>,
                                 invoke: (string, Json) -> ToolOutcome, other: (string, Json) -> ToolOutcome)
    requires name in registry && |Missing(Required(copy, name), args)| > 0
    ensures ResultText(copy, name, args, registry, invoke) == ResultText(copy, name, args, registry, other)
    ensures ResultText(copy, name, args, registry, invoke)
      == MissingArgsText(copy, name, Missing(Required(copy, name), args), args)
  {
  }

  /** The booking tool lacking both of its arguments gets both names, in order. */
  lemma {:induction false} BookingMissingBoth(copy: Copy, args: Json)
    requires !HasKey(args, "booking_date") && !HasKey(args, "user_name")
    ensures Missing(Required(copy, "book_gym_slot"), args) == ["booking_date", "user_name"]
  {
    var req := Required(copy, "book_gym_slot");
    assert req == ["booking_date", "user_name"];
    assert req[1..] == ["user_name"];
    assert Missing(req[1..], args) == ["user_name"] + Missing(req[1..][1..], args);
  }

  /** The copy in src/agents/agent/api.py does not check the search tool's
      `query`; the other copy does. */
  lemma QueryCheckedOnlyInAgentCopy(args: Json)
    requires !HasKey(args, "query")
    ensures Missing(Required(AgentCopy, RagToolName), args) == ["query"]
    ensures Missing(Required(ApiCopy, RagToolName), args) == []
  {
    assert Missing([], args) == [];
  }

  /** A registered tool with all its arguments is called, and what it returns
      or raises becomes the message text. */
  lemma RegisteredToolCalled(copy: Copy, name: string, args: Json, registry: set<string>,
                             invoke: (string, Json) -> ToolOutcome)
    requires name in registry && forall k | k in Required(copy, name) :: HasKey(args, k)
    ensures ResultText(copy, name, args, registry, invoke) ==
      match invoke(name, args)
      case Returned(t) => t
      case Raised(e) => RaisedText(copy, name, e)
  {
  }

  // ---- variant B ----

  const NoCallsTextB := "Error: Se intentó llamar a herramientas " + "pero no se encontraron tool_calls válidas."

  /** The message for one call in variant B: no argument check, and the call
      id must be present (a `ToolMessage` without one is refused). */
  function MessageForB(call: ToolCall, registry: set<string>, invoke: (string, Json) -> ToolOutcome): (m: Message)
    requires call.id.Some?
    ensures m.Tool? && m.toolCallId == call.id.value && m.name == Some(call.name)
  {
    var text :=
      if call.name !in registry then "Error: Herramienta desconocida: '" + call.name + "'."
      else match invoke(call.name, call.args)
        case Returned(t) => t
        case Raised(e) => "Error al ejecutar la herramienta " + call.name + ": " + e;
    Tool(text, call.id.value, Some(call.name))
  }

  /** Every structured call of a model message carries an id. */
  predicate CallsHaveIds(m: Message) {
    m.AI? ==> forall i | 0 <= i < |m.toolCalls| :: m.toolCalls[i].id.Some?
  }

  /** `invoke_tools_node`, variant B: it returns only the new messages. */
  method InvokeToolsB(ms: seq<Message>, registry: set<string>, invoke: (string, Json) -> ToolOutcome)
    returns (r: seq<Message>)
    requires |ms| > 0
    requires CallsHaveIds(ms[|ms| - 1])
    ensures !HasToolCalls(ms[|ms| - 1]) ==> r == [Tool(NoCallsTextB, "error_no_tool_calls", None)]
    ensures HasToolCalls(ms[|ms| - 1]) ==>
      var calls := ms[|ms| - 1].toolCalls;
      |r| == |calls| && forall i | 0 <= i < |calls| :: r[i] == MessageForB(calls[i], registry, invoke)
  {
    var last := ms[|ms| - 1];
    if !HasToolCalls(last) {
      return [Tool(NoCallsTextB, "error_no_tool_calls", None)];
    }
    r := AnswerCallsB(last.toolCalls, registry, invoke);
  }

  /** The loop of variant B: one message per call, in order. */
  method AnswerCallsB(calls: seq<ToolCall>, registry: set<string>, invoke: (string, Json) -> ToolOutcome)
    returns (r: seq<Message>)
    requires forall i | 0 <= i < |calls| :: calls[i].id.Some?
    ensures |r| == |calls| && forall i | 0 <= i < |calls| :: r[i] == MessageForB(calls[i], registry, invoke)
  {
    r := [];
    var i := 0;
    while i < |calls|
      invariant 0 <= i <= |calls| && |r| == i
      invariant forall k | 0 <= k < i :: r[k] == MessageForB(calls[k], registry, invoke)
    {
      r := r + [MessageForB(calls[i], registry, invoke)];
      i := i + 1;
    }
  }
}
