// The conversation state of variant A (src/agents/agent_rag/agent.py with
// src/agents/agent_rag/state.py; the copies in src/agents/agent/tool_agent.py
// and src/agents/agent/api.py are the same): the message list and the booking
// fields, which the router and the state-update nodes change in place, and the
// graph loop that runs them.
module AgentSession {
  import opened Wrappers
  import opened Strings
  import opened JsonValue
  import opened Messages
  import opened BookingContext
  import R = Router
  import opened LlmNode
  import opened ToolNode

  /** Everything the graph calls out to: `json.loads`, the model, the tools,
      and the uuids drawn by the router (per step) and by the tool node (per
      step and call). */
  datatype Oracles = Oracles(
    loads: string -> Option<Json>,
    llm: seq<Message> -> LlmOutcome,
    invoke: (string, Json) -> ToolOutcome,
    routerHex: nat -> string,
    callHex: (nat, nat) -> string)

  class Session {
    var messages: seq<Message>
    var context: Context

    constructor (ms: seq<Message>, c: Context)
      ensures messages == ms && context == c
    {
      messages := ms;
      context := c;
    }

    /** `should_invoke_tool_router`: it assigns `tool_calls` and `content` of
        the last message in place. */
    method RouteA(registry: set<string>, loads: string -> Option<Json>, hex: string) returns (route: R.Route)
      modifies this
      ensures R.RouteA(old(messages), registry, loads, hex) == R.Routed(route, messages)
      ensures context == old(context)
    {
      if |messages| == 0 || !messages[|messages| - 1].AI? {
        return R.EndTurn;
      }
      var last := messages[|messages| - 1];
      if |last.toolCalls| > 0 {
        if last.toolCalls[0].name in registry {
          return R.InvokeTool;
        }
        messages := ReplaceLast(messages, last.(toolCalls := []));
        return R.EndTurn;
      }
      route := R.EndTurn;
      if StartsWith(Strip(last.content), "{") {
        var parsed := loads(last.content);
        if parsed.Some? && parsed.value.JObj? {
          var fields := parsed.value.fields;
          if HasField(fields, "tool") && HasField(fields, "tool_input") {
            var tool := Lookup(fields, "tool").value;
            var input := Lookup(fields, "tool_input").value;
            if tool.JStr? && tool.s in registry && input.JObj? {
              messages := ReplaceLast(messages, last.(content := "", toolCalls := [ToolCall(tool.s, input, Some("qwen_tc_" + hex))]));
              route := R.InvokeTool;
            }
          } else if HasField(fields, "answer") {
            messages := ReplaceLast(messages, last.(content := Str(Lookup(fields, "answer").value), toolCalls := []));
          }
        }
      }
    }

    /** `should_invoke_tool_router` of variant B (src/agents/modules/agent.py),
        which also rewrites the last message in place; `raised` is the
        `TypeError` of an unhashable tool name. */
    method RouteB(registry: set<string>, loads: string -> Option<Json>, hex: string) returns (route: R.Route, raised: bool)
      requires |messages| > 0
      modifies this
      ensures raised ==> R.RouteB(old(messages), registry, loads, hex) == R.RouterRaised && messages == old(messages)
      ensures !raised ==> R.RouteB(old(messages), registry, loads, hex) == R.RoutedB(R.Routed(route, messages))
      ensures context == old(context)
    {
      raised := false;
      var last := messages[|messages| - 1];
      if !last.AI? {
        return R.EndTurn, false;
      }
      var span := R.JsonSpan(last.content);
      if span.Some? {
        var parsed := loads(span.value);
        if parsed.Some? && parsed.value.JObj? {
          var j := parsed.value;
          var name := Or(GetOr(j, "name", JNull), GetOr(j, "tool", JNull));
          var args := Or(GetOr(j, "arguments", JNull), GetOr(j, "tool_input", JNull));
          if !Hashable(name) {
            return R.EndTurn, true;
          }
          if name.JStr? && name.s in registry && args.JObj? {
            messages := ReplaceLast(messages, last.(content := "", toolCalls := [ToolCall(name.s, args, Some("llm_tc_" + hex))]));
            return R.InvokeTool, false;
          }
        }
      }
      route := if |last.toolCalls| > 0 then R.InvokeTool else R.EndTurn;
    }

    /** `update_state_after_llm`: it may write the name into the state. */
    method UpdateStateAfterLlm()
      modifies this
      ensures context == AfterLlm(old(context), messages) && messages == old(messages)
    {
      if |messages| >= 2 {
        var last := messages[|messages| - 1];
        var prev := messages[|messages| - 2];
        var answer := if last.Human? then last.content else "";
        if last.Human? && prev.AI? && AsksForName(prev.content) && context.pending && |answer| > 0 {
          context := context.(name := Some(Strip(answer)));
        }
      }
    }

    /** `update_state_after_tool`: it writes the booking fields in place. */
    method UpdateStateAfterTool()
      requires |messages| > 0
      modifies this
      ensures messages == old(messages) && context == AfterTool(old(context), old(messages))
    {
      var last := messages[|messages| - 1];
      if !last.Tool? {
        return;
      }
      if last.name == Some(CheckToolName) {
        if ReportsSlots(last.content) {
          if |messages| >= 2 && HasToolCalls(messages[|messages| - 2]) {
            var queried := GetOr(messages[|messages| - 2].toolCalls[0].args, "target_date", JNull);
            if Truthy(queried) {
              context := context.(pending := true, slot := queried);
            }
          } else {
            context := context.(pending := true);
          }
        } else if ReportsNoSlots(last.content) {
          context := context.(slot := JNull, pending := false);
        }
      } else if last.name == Some(BookToolName) {
        context := Context(JNull, None, false);
      }
    }

    /** `call_llm_node`, with the reducer appending its reply. */
    method CallLlm(prompt: string, llm: seq<Message> -> LlmOutcome)
      modifies this
      ensures messages == CallLlmA(old(messages), context, prompt, llm) && context == old(context)
    {
      var forModel := AssembleA(messages, Render(prompt, Scratchpad(context)));
      messages := messages + [ReplyOf(llm(forModel))];
    }

    /** One user turn through the graph `call_llm -> update_state_after_llm ->
        router -> (invoke_tools_node -> update_state_after_tool -> call_llm)*`.
        The graph has no cap on the number of rounds; `fuel` bounds them here
        only so that the loop is finite in the model. The earlier history is
        never rewritten, and a turn that ends by the router's choice ends on a
        model message with no tool calls. */
    method RunTurn(user: string, prompt: string, registry: set<string>, copy: Copy, o: Oracles, fuel: nat)
      returns (ended: bool)
      modifies this
      ensures |messages| >= |old(messages)| + 1 && messages[..|old(messages)| + 1] == old(messages) + [Human(user)]
      ensures ended ==> messages[|messages| - 1].AI? && !HasToolCalls(messages[|messages| - 1])
    {
      messages := messages + [Human(user)];
      ghost var start := messages;
      var step: nat := 0;
      ended := false;
      while step < fuel && !ended
        invariant |messages| >= |start| && messages[..|start|] == start
        invariant ended ==> messages[|messages| - 1].AI? && !HasToolCalls(messages[|messages| - 1])
        decreases fuel - step, if ended then 0 else 1
      {
        ghost var before := messages;
        var route := Round(step, prompt, registry, copy, o);
        assert messages[..|start|] == before[..|start|];
        if route == R.EndTurn {
          ended := true;
        } else {
          step := step + 1;
        }
      }
    }

    /** One round: the model, the update after it, the router and, when the
        router says so, the tools and the update after them. Only new messages
        are added, and only the model's reply of this round is rewritten. */
    method Round(step: nat, prompt: string, registry: set<string>, copy: Copy, o: Oracles) returns (route: R.Route)
      modifies this
      ensures |messages| > |old(messages)| && messages[..|old(messages)|] == old(messages)
      ensures route == R.EndTurn ==> messages[|messages| - 1].AI? && !HasToolCalls(messages[|messages| - 1])
    {
      ghost var prev := messages;
      ModelStep(prompt, o.llm);
      ghost var replied := messages;
      route := RouteStep(registry, o.loads, o.routerHex(step));
      assert messages[..|prev|] == replied[..|prev|];
      if route == R.InvokeTool {
        ghost var routed := messages;
        messages := InvokeToolsA(copy, messages, registry, o.invoke, (i: nat) => o.callHex(step, i));
        assert messages[..|prev|] == routed[..|prev|];
        UpdateStateAfterTool();
      }
    }

    /** `call_llm` and `update_state_after_llm`: one model message is added. */
    method ModelStep(prompt: string, llm: seq<Message> -> LlmOutcome)
      modifies this
      ensures |messages| == |old(messages)| + 1 && messages[..|old(messages)|] == old(messages)
      ensures messages[|messages| - 1].AI?
    {
      ghost var prev := messages;
      CallLlm(prompt, llm);
      CallLlmAppendsReply(prev, old(context), prompt, llm);
      UpdateStateAfterLlm();
    }

    /** The router on a list that ends with the model's message. */
    method RouteStep(registry: set<string>, loads: string -> Option<Json>, hex: string) returns (route: R.Route)
      requires |messages| > 0 && messages[|messages| - 1].AI?
      modifies this
      ensures |messages| == |old(messages)|
      ensures messages[..|messages| - 1] == old(messages)[..|messages| - 1]
      ensures route == R.EndTurn ==> messages[|messages| - 1].AI? && !HasToolCalls(messages[|messages| - 1])
    {
      ghost var prev := messages;
      R.RouteAKeepsHistory(prev, registry, loads, hex);
      R.RouteAEndsWithoutCalls(prev, registry, loads, hex);
      route := RouteA(registry, loads, hex);
    }
  }
}
