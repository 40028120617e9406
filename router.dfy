// The routers that run after the model has answered. They look at the last
// message and decide whether the tool node runs next. When the model wrote a
// tool call as JSON text instead of a structured call, they rewrite that message
// into a structured call.
//
// Variant A (`should_invoke_tool_router` in src/agents/agent_rag/agent.py, with
// identical copies in src/agents/agent/tool_agent.py and
// src/agents/agent/api.py) checks the structured calls first and then reads
// JSON that starts the message. Variant B (src/agents/modules/agent.py) looks
// for JSON anywhere in the text first and then at the structured calls.
module Router {
  import opened Wrappers
  import opened Strings
  import opened JsonValue
  import opened Messages

  /** Where the graph goes next: the tool node, or the end of the turn
      (`respond_directly` in variant A, `__end__` in variant B). */
  datatype Route = InvokeTool | EndTurn

  /** The route and the message list afterwards, with the last message as the
      router left it. */
  datatype Routed = Routed(route: Route, messages: seq<Message>)

  /** What variant B can do: route, or raise out of the graph. Its
      `tool_name in self._tools_map` runs outside the `try` that guards the
      parse, so an unhashable name raises `TypeError`. */
  datatype RoutedB = RoutedB(routed: Routed) | RouterRaised

  // ---- variant A ----

  /** `should_invoke_tool_router`, variant A. `registry` holds the names of
      the bound tools, `loads` is `json.loads` (`None` on a decode error) and
      `hex` is the `uuid4().hex` of the synthesised call id. */
  function RouteA(ms: seq<Message>, registry: set<string>, loads: string -> Option<Json>, hex: string): Routed {
    if |ms| == 0 || !ms[|ms| - 1].AI? then Routed(EndTurn, ms)
    else
      var m := ms[|ms| - 1];
      if |m.toolCalls| > 0 then
        if m.toolCalls[0].name in registry then Routed(InvokeTool, ms)
        else Routed(EndTurn, ReplaceLast(ms, m.(toolCalls := [])))
      else if StartsWith(Strip(m.content), "{") then
        match loads(m.content)
        case Some(JObj(fields)) =>
          if HasField(fields, "tool") && HasField(fields, "tool_input") then
            var tool := Lookup(fields, "tool").value;
            var input := Lookup(fields, "tool_input").value;
            if tool.JStr? && tool.s in registry && input.JObj? then
              Routed(InvokeTool, ReplaceLast(ms, m.(content := "", toolCalls := [ToolCall(tool.s, input, Some("qwen_tc_" + hex))])))
            else Routed(EndTurn, ms)
          else if HasField(fields, "answer") then
            Routed(EndTurn, ReplaceLast(ms, m.(content := Str(Lookup(fields, "answer").value), toolCalls := [])))
          else Routed(EndTurn, ms)
        case _ => Routed(EndTurn, ms)
      else Routed(EndTurn, ms)
  }

  /** No messages, or a last message that is not the model's: respond
      directly and change nothing. */
  lemma RouteANotAI(ms: seq<Message>, registry: set<string>, loads: string -> Option<Json>, hex: string)
    requires |ms| == 0 || !ms[|ms| - 1].AI?
    ensures RouteA(ms, registry, loads, hex) == Routed(EndTurn, ms)
  {
  }

  /** Structured calls: only the first name is looked up; a registered one goes
      to the tool node with the message untouched. */
  lemma RouteARegisteredCall(ms: seq<Message>, registry: set<string>, loads: string -> Option<Json>, hex: string)
    requires |ms| > 0 && HasToolCalls(ms[|ms| - 1]) && ms[|ms| - 1].toolCalls[0].name in registry
    ensures RouteA(ms, registry, loads, hex) == Routed(InvokeTool, ms)
  {
  }

  /** An unregistered first name empties the calls, keeps the text as it was
      (the JSON fallback is not tried) and responds directly. */
  lemma RouteAUnknownCall(ms: seq<Message>, registry: set<string>, loads: string -> Option<Json>, hex: string)
    requires |ms| > 0 && HasToolCalls(ms[|ms| - 1]) && ms[|ms| - 1].toolCalls[0].name !in registry
    ensures var r := RouteA(ms, registry, loads, hex);
      r.route == EndTurn && r.messages == ReplaceLast(ms, ms[|ms| - 1].(toolCalls := []))
  {
  }

  /** JSON text `{"tool": n, "tool_input": {...}}` with a registered `n`
      becomes exactly one structured call with those arguments and an empty
      text, and the tool node runs. */
  lemma RouteAJsonToolCall(ms: seq<Message>, registry: set<string>, loads: string -> Option<Json>, hex: string,
                           fields: seq<Field>, n: string, args: seq<Field>)
    requires |ms| > 0 && ms[|ms| - 1].AI? && ms[|ms| - 1].toolCalls == []
    requires StartsWith(Strip(ms[|ms| - 1].content), "{")
    requires loads(ms[|ms| - 1].content) == Some(JObj(fields))
    requires Lookup(fields, "tool") == Some(JStr(n)) && n in registry
    requires Lookup(fields, "tool_input") == Some(JObj(args))
    ensures var r := RouteA(ms, registry, loads, hex);
      r.route == InvokeTool
      && r.messages == ReplaceLast(ms, AI("", [ToolCall(n, JObj(args), Some("qwen_tc_" + hex))], ms[|ms| - 1].kwargs))
  {
  }

  /** JSON text with "answer" (and not both tool keys) puts the answer in the
      text, drops the calls and responds directly. */
  lemma RouteAJsonAnswer(ms: seq<Message>, registry: set<string>, loads: string -> Option<Json>, hex: string,
                         fields: seq<Field>, answer: Json)
    requires |ms| > 0 && ms[|ms| - 1].AI? && ms[|ms| - 1].toolCalls == []
    requires StartsWith(Strip(ms[|ms| - 1].content), "{")
    requires loads(ms[|ms| - 1].content) == Some(JObj(fields))
    requires !(HasField(fields, "tool") && HasField(fields, "tool_input"))
    requires Lookup(fields, "answer") == Some(answer)
    ensures RouteA(ms, registry, loads, hex) == Routed(EndTurn, ReplaceLast(ms, AI(Str(answer), [], ms[|ms| - 1].kwargs)))
  {
  }

  /** Text that does not parse as a JSON object leaves the message unchanged. */
  lemma RouteAUnparsed(ms: seq<Message>, registry: set<string>, loads: string -> Option<Json>, hex: string)
    requires |ms| > 0 && ms[|ms| - 1].AI? && ms[|ms| - 1].toolCalls == []
    requires !StartsWith(Strip(ms[|ms| - 1].content), "{") || !loads(ms[|ms| - 1].content).Some?
             || !loads(ms[|ms| - 1].content).value.JObj?
    ensures RouteA(ms, registry, loads, hex) == Routed(EndTurn, ms)
  {
  }

  /** The router rewrites at most the last message. */
  lemma RouteAKeepsHistory(ms: seq<Message>, registry: set<string>, loads: string -> Option<Json>, hex: string)
    ensures var r := RouteA(ms, registry, loads, hex);
      |r.messages| == |ms| && forall k | 0 <= k < |ms| - 1 :: r.messages[k] == ms[k]
  {
  }

  /** When it ends the turn on a model message, that message carries no tool
      calls: an unknown tool's calls are dropped. */
  lemma RouteAEndsWithoutCalls(ms: seq<Message>, registry: set<string>, loads: string -> Option<Json>, hex: string)
    requires |ms| > 0 && ms[|ms| - 1].AI?
    ensures var r := RouteA(ms, registry, loads, hex);
      r.route == EndTurn ==> r.messages[|ms| - 1].AI? && !HasToolCalls(r.messages[|ms| - 1])
  {
  }

  /** It goes to the tool node only with a model message whose first call names
      a registered tool: exactly what the tool node needs to skip its error
      branch. */
  lemma RouteAInvokesRegistered(ms: seq<Message>, registry: set<string>, loads: string -> Option<Json>, hex: string)
    ensures var r := RouteA(ms, registry, loads, hex);
      r.route == InvokeTool ==>
        |ms| > 0 && HasToolCalls(r.messages[|ms| - 1]) && r.messages[|ms| - 1].toolCalls[0].name in registry
  {
    if |ms| > 0 && ms[|ms| - 1].AI? {
      var m := ms[|ms| - 1];
      if |m.toolCalls| == 0 && StartsWith(Strip(m.content), "{") {
        match loads(m.content)
        case Some(JObj(fields)) =>
          if HasField(fields, "tool") && HasField(fields, "tool_input") {
            var tool := Lookup(fields, "tool").value;
            var input := Lookup(fields, "tool_input").value;
            if tool.JStr? && tool.s in registry && input.JObj? {
              var r := RouteA(ms, registry, loads, hex);
              assert r.messages[|ms| - 1].toolCalls[0].name == tool.s;
            }
          }
        case _ =>
      }
    }
  }

  // ---- variant B ----

  function LastIndex(s: string, c: char): (i: nat)
    requires c in s
    ensures i < |s| && s[i] == c
    ensures forall p | i < p < |s| :: s[p] != c
  {
    if s[|s| - 1] == c then |s| - 1
    else
      assert s == s[..|s| - 1] + [s[|s| - 1]];
      LastIndex(s[..|s| - 1], c)
  }

  /** The text that `re.search(r'\{.*\}', s, re.DOTALL)` matches: from the
      first `{` to the last `}`, when a `}` follows that `{`. */
  function JsonSpan(s: string): (r: Option<string>)
    ensures r.Some? ==> |r.value| >= 2 && r.value[0] == '{' && r.value[|r.value| - 1] == '}'
  {
    if '{' !in s then None
    else
      var i := FirstIndex(s, '{');
      if '}' !in s[i..] then None
      else
        InSuffix(s, i, '}');
        Some(s[i..LastIndex(s, '}') + 1])
  }

  /** A character of a suffix is a character of the whole string, at or
      after the suffix's start. */
  lemma InSuffix(s: string, i: nat, c: char)
    requires i <= |s| && c in s[i..]
    ensures c in s && i <= LastIndex(s, c)
  {
    var k :| 0 <= k < |s[i..]| && s[i..][k] == c;
    assert s[i + k] == c;
  }

  /** A span is found whenever some `{` has a `}` after it. */
  lemma JsonSpanFound(s: string, a: nat, b: nat)
    requires a < b < |s| && s[a] == '{' && s[b] == '}'
    ensures JsonSpan(s).Some?
  {
    assert s[a] in s;
    var i := FirstIndex(s, '{');
    assert s[i..][b - i] == '}';
  }

  lemma JsonSpanShape(s: string)
    requires JsonSpan(s).Some?
    ensures '{' in s && '}' in s && FirstIndex(s, '{') < LastIndex(s, '}')
    ensures JsonSpan(s).value == s[FirstIndex(s, '{')..LastIndex(s, '}') + 1]
  {
    JsonSpanUnfold(s);
    var i := FirstIndex(s, '{');
    InSuffix(s, i, '}');
    assert s[i] != s[LastIndex(s, '}')];
  }

  /** What a found span is made of, read off the definition. */
  lemma JsonSpanUnfold(s: string)
    requires JsonSpan(s).Some?
    ensures '{' in s && '}' in s[FirstIndex(s, '{')..]
    ensures JsonSpan(s).value == s[FirstIndex(s, '{')..LastIndex(s, '}') + 1]
  {
  }

  /** ... and only then; it runs from the first `{` of the text to the last
      `}`, as the greedy pattern demands. */
  lemma JsonSpanIsGreedy(s: string)
    ensures JsonSpan(s).Some? <==> exists i, j | 0 <= i < j < |s| :: s[i] == '{' && s[j] == '}'
    ensures JsonSpan(s).Some? ==>
      ('{' in s && '}' in s && JsonSpan(s).value == s[FirstIndex(s, '{')..LastIndex(s, '}') + 1])
  {
    if JsonSpan(s).Some? {
      JsonSpanShape(s);
    }
    forall a, b | 0 <= a < b < |s| && s[a] == '{' && s[b] == '}'
      ensures JsonSpan(s).Some?
    {
      JsonSpanFound(s, a, b);
    }
  }

  /** `should_invoke_tool_router`, variant B. The last message must exist
      (`state['messages'][-1]`). */
  function RouteB(ms: seq<Message>, registry: set<string>, loads: string -> Option<Json>, hex: string): RoutedB
    requires |ms| > 0
  {
    var m := ms[|ms| - 1];
    if !m.AI? then RoutedB(Routed(EndTurn, ms))
    else
      var parsed := match JsonSpan(m.content) case Some(t) => loads(t) case None => None;
      if parsed.Some? && parsed.value.JObj? then
        var j := parsed.value;
        var name := Or(GetOr(j, "name", JNull), GetOr(j, "tool", JNull));
        var args := Or(GetOr(j, "arguments", JNull), GetOr(j, "tool_input", JNull));
        if !Hashable(name) then RouterRaised
        else if name.JStr? && name.s in registry && args.JObj? then
          RoutedB(Routed(InvokeTool, ReplaceLast(ms, m.(content := "", toolCalls := [ToolCall(name.s, args, Some("llm_tc_" + hex))]))))
        else RoutedB(StructuredB(ms))
      else RoutedB(StructuredB(ms))
  }

  /** The fall-back of variant B: any structured call goes to the tool node,
      with no look-up in the registry. */
  function StructuredB(ms: seq<Message>): (r: Routed)
    requires |ms| > 0 && ms[|ms| - 1].AI?
    ensures r.messages == ms
    ensures r.route == InvokeTool <==> |ms[|ms| - 1].toolCalls| > 0
  {
    if |ms[|ms| - 1].toolCalls| > 0 then Routed(InvokeTool, ms) else Routed(EndTurn, ms)
  }

  /** Variant B ends the turn, unchanged, on anything but a model message. */
  lemma RouteBNotAI(ms: seq<Message>, registry: set<string>, loads: string -> Option<Json>, hex: string)
    requires |ms| > 0 && !ms[|ms| - 1].AI?
    ensures RouteB(ms, registry, loads, hex) == RoutedB(Routed(EndTurn, ms))
  {
  }

  /** The text is read before the structured calls: a JSON object in it that
      names a registered tool ("name", or "tool" when "name" is falsy) with
      object arguments ("arguments", or "tool_input") replaces whatever calls
      the message had by exactly one call and empties the text. */
  lemma RouteBJsonToolCall(ms: seq<Message>, registry: set<string>, loads: string -> Option<Json>, hex: string,
                           span: string, j: Json, n: string, args: seq<Field>)
    requires |ms| > 0 && ms[|ms| - 1].AI?
    requires JsonSpan(ms[|ms| - 1].content) == Some(span) && loads(span) == Some(j) && j.JObj?
    requires Or(GetOr(j, "name", JNull), GetOr(j, "tool", JNull)) == JStr(n) && n in registry
    requires Or(GetOr(j, "arguments", JNull), GetOr(j, "tool_input", JNull)) == JObj(args)
    ensures RouteB(ms, registry, loads, hex) ==
      RoutedB(Routed(InvokeTool, ReplaceLast(ms, AI("", [ToolCall(n, JObj(args), Some("llm_tc_" + hex))], ms[|ms| - 1].kwargs))))
  {
  }

  /** Without usable JSON the structured calls decide, with no registry check:
      any call runs the tool node, none ends the turn; nothing is rewritten. */
  lemma RouteBWithoutJson(ms: seq<Message>, registry: set<string>, loads: string -> Option<Json>, hex: string)
    requires |ms| > 0 && ms[|ms| - 1].AI?
    requires JsonSpan(ms[|ms| - 1].content).None? || !loads(JsonSpan(ms[|ms| - 1].content).value).Some?
             || !loads(JsonSpan(ms[|ms| - 1].content).value).value.JObj?
    ensures RouteB(ms, registry, loads, hex) ==
      RoutedB(Routed(if HasToolCalls(ms[|ms| - 1]) then InvokeTool else EndTurn, ms))
  {
  }

  /** A list or an object as the tool name raises out of the router. */
  lemma RouteBUnhashableName(ms: seq<Message>, registry: set<string>, loads: string -> Option<Json>, hex: string,
                             span: string, j: Json)
    requires |ms| > 0 && ms[|ms| - 1].AI?
    requires JsonSpan(ms[|ms| - 1].content) == Some(span) && loads(span) == Some(j) && j.JObj?
    requires !Hashable(Or(GetOr(j, "name", JNull), GetOr(j, "tool", JNull)))
    ensures RouteB(ms, registry, loads, hex) == RouterRaised
  {
  }
}
