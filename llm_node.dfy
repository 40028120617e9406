// `call_llm_node`: the scratchpad is put into the system prompt, the prompt is
// put in front of the conversation, the model is called, and a failure becomes
// an error message from the model's side. Variant A is in
// src/agents/agent_rag/agent.py, src/agents/agent/tool_agent.py and
// src/agents/agent/api.py; variant B is in src/agents/modules/agent.py.
module LlmNode {
  import opened Wrappers
  import opened Strings
  import opened JsonValue
  import opened Messages
  import opened BookingContext

  const Placeholder := "{{agent_scratchpad}}"

  /** `RAG_SYSTEM_PROMPT.replace("{{agent_scratchpad}}", scratchpad)`. */
  function Render(prompt: string, scratchpad: string): string {
    ReplaceAll(prompt, Placeholder, scratchpad)
  }

  /** In src/agents/agent/tool_agent.py and src/agents/agent/system_prompt.py
      the prompt is an f-string, so each `{{` of its source is printed as one
      `{` and the prompt holds `{agent_scratchpad}`: no two `{` follow each
      other. Such a prompt reaches the model unchanged and without the
      scratchpad. */
  lemma RenderFStringPrompt(prompt: string, scratchpad: string)
    requires NoDoubleOpen(prompt)
    ensures Render(prompt, scratchpad) == prompt
  {
    NoDoubleOpenExcludes(prompt, Placeholder);
    ReplaceAbsent(prompt, Placeholder, scratchpad);
  }

  /** In src/agents/modules/prompt.py the prompt is a plain string holding the
      placeholder once, with no `{{` before it; there the scratchpad is put in
      its place. */
  lemma RenderPlainPrompt(head: string, tail: string, scratchpad: string)
    requires NoDoubleOpen(head + "{") && !Contains(tail, Placeholder)
    ensures Render(head + Placeholder + tail, scratchpad) == head + scratchpad + tail
  {
    var s := head + Placeholder + tail;
    forall i | 0 <= i < |head|
      ensures !OccursAt(s, Placeholder, i)
    {
      var h := head + "{";
      assert s[i] == h[i];
      assert s[i + 1] == h[i + 1];
    }
    ReplaceFirstOccurrence(head, Placeholder, tail, scratchpad);
    ReplaceAbsent(tail, Placeholder, scratchpad);
  }

  // ---- the messages the model sees ----

  predicate HasSystem(ms: seq<Message>) {
    exists i | 0 <= i < |ms| :: ms[i].System?
  }

  /** Each system message replaced by the rendered prompt, in place. */
  function SwapSystem(ms: seq<Message>, prompt: string): (r: seq<Message>)
    ensures |r| == |ms|
    ensures forall i | 0 <= i < |ms| :: r[i] == (if ms[i].System? then System(prompt) else ms[i])
  {
    if |ms| == 0 then []
    else [if ms[0].System? then System(prompt) else ms[0]] + SwapSystem(ms[1..], prompt)
  }

  /** The messages other than system messages, in their order. */
  function NonSystem(ms: seq<Message>): (r: seq<Message>)
    ensures |r| <= |ms|
    ensures forall i | 0 <= i < |r| :: !r[i].System?
  {
    if |ms| == 0 then []
    else if ms[0].System? then NonSystem(ms[1..])
    else [ms[0]] + NonSystem(ms[1..])
  }

  /** Variant A: every system message is replaced by the prompt; when there
      is none, the prompt is put in front. */
  function ForModelA(ms: seq<Message>, prompt: string): seq<Message> {
    if HasSystem(ms) then SwapSystem(ms, prompt) else [System(prompt)] + ms
  }

  /** Variant B: the prompt, then every message that is not a system message. */
  function ForModelB(ms: seq<Message>, prompt: string): seq<Message> {
    [System(prompt)] + NonSystem(ms)
  }

  /** The loop of variant A, proved against `ForModelA`. */
  method AssembleA(ms: seq<Message>, prompt: string) returns (r: seq<Message>)
    ensures r == ForModelA(ms, prompt)
  {
    r := [];
    var hasSystem := false;
    var i := 0;
    while i < |ms|
      invariant 0 <= i <= |ms|
      invariant r == SwapSystem(ms[..i], prompt)
      invariant hasSystem <==> HasSystem(ms[..i])
    {
      var m := ms[i];
      AssembleStep(ms, i, prompt);
      if m.System? {
        r := r + [System(prompt)];
        hasSystem := true;
      } else {
        r := r + [m];
      }
      i := i + 1;
    }
    assert ms[..i] == ms;
    if !hasSystem {
      r := [System(prompt)] + r;
      SwapSystemNone(ms, prompt);
    }
  }

  /** One more message: its swapped form is appended, and it is a system
      message or the earlier ones hold one. */
  lemma AssembleStep(ms: seq<Message>, i: int, prompt: string)
    requires 0 <= i < |ms|
    ensures SwapSystem(ms[..i + 1], prompt) == SwapSystem(ms[..i], prompt) + [if ms[i].System? then System(prompt) else ms[i]]
    ensures HasSystem(ms[..i + 1]) <==> HasSystem(ms[..i]) || ms[i].System?
  {
    assert ms[..i + 1] == ms[..i] + [ms[i]];
    SwapSystemAppend(ms[..i], ms[i], prompt);
    assert ms[..i + 1][i] == ms[i];
    assert forall k | 0 <= k < i :: ms[..i + 1][k] == ms[..i][k];
  }

  lemma SwapSystemAppend(ms: seq<Message>, m: Message, prompt: string)
    ensures SwapSystem(ms + [m], prompt) == SwapSystem(ms, prompt) + [if m.System? then System(prompt) else m]
  {
    var l := SwapSystem(ms + [m], prompt);
    var r := SwapSystem(ms, prompt) + [if m.System? then System(prompt) else m];
    assert forall i | 0 <= i < |ms| :: (ms + [m])[i] == ms[i];
    assert |l| == |r|;
    forall i | 0 <= i < |l| ensures l[i] == r[i] {
    }
  }

  lemma SwapSystemNone(ms: seq<Message>, prompt: string)
    requires !HasSystem(ms)
    ensures SwapSystem(ms, prompt) == ms
  {
  }

  /** Variant A never changes the order of the other messages: without the
      system messages, the model sees exactly the conversation. */
  lemma {:induction false} ForModelAKeepsConversation(ms: seq<Message>, prompt: string)
    ensures NonSystem(ForModelA(ms, prompt)) == NonSystem(ms)
    ensures |ForModelA(ms, prompt)| >= 1 && HasSystem(ForModelA(ms, prompt))
  {
    SwapKeepsNonSystem(ms, prompt);
    var r := ForModelA(ms, prompt);
    if HasSystem(ms) {
      var k :| 0 <= k < |ms| && ms[k].System?;
      assert r[k].System?;
    } else {
      assert r[0].System?;
    }
  }

  lemma {:induction false} SwapKeepsNonSystem(ms: seq<Message>, prompt: string)
    ensures NonSystem(SwapSystem(ms, prompt)) == NonSystem(ms)
  {
    if |ms| > 0 {
      SwapKeepsNonSystem(ms[1..], prompt);
      var r := SwapSystem(ms, prompt);
      assert r[1..] == SwapSystem(ms[1..], prompt);
    }
  }

  /** The two variants agree when the conversation has at most one system
      message, at its front: the model then sees the prompt and the
      conversation. */
  lemma {:induction false} VariantsAgree(ms: seq<Message>, prompt: string)
    requires forall i | 0 < i < |ms| :: !ms[i].System?
    ensures ForModelA(ms, prompt) == ForModelB(ms, prompt)
  {
    NonSystemNone(if |ms| > 0 then ms[1..] else []);
    if |ms| > 0 {
      assert forall i | 0 <= i < |ms[1..]| :: ms[1..][i] == ms[i + 1];
      if ms[0].System? {
        var r := ForModelA(ms, prompt);
        assert r == [System(prompt)] + ms[1..];
      } else {
        assert !HasSystem(ms);
        assert NonSystem(ms) == [ms[0]] + ms[1..] == ms;
      }
    }
  }

  lemma {:induction false} NonSystemNone(ms: seq<Message>)
    requires forall i | 0 <= i < |ms| :: !ms[i].System?
    ensures NonSystem(ms) == ms
  {
    if |ms| > 0 {
      assert forall i | 0 <= i < |ms[1..]| :: ms[1..][i] == ms[i + 1];
      NonSystemNone(ms[1..]);
    }
  }

  // ---- the call ----

  /** What the model oracle does with the messages: an AI reply, or an
      exception with its text. */
  datatype LlmOutcome = Answered(content: string, calls: seq<ToolCall>, kwargs: seq<Field>) | LlmFailed(error: string)

  /** The message the node returns for the reducer to append. */
  function ReplyOf(o: LlmOutcome): (m: Message)
    ensures m.AI?
    ensures o.LlmFailed? ==> m == AI("Error al procesar con LLM: " + o.error, [], [])
    ensures o.Answered? ==> m == AI(o.content, o.calls, o.kwargs)
  {
    match o
    case Answered(content, calls, kwargs) => AI(content, calls, kwargs)
    case LlmFailed(e) => AI("Error al procesar con LLM: " + e, [], [])
  }

  /** `call_llm_node`, variant A: the message list after the node. */
  function CallLlmA(ms: seq<Message>, c: Context, prompt: string, llm: seq<Message> -> LlmOutcome): seq<Message> {
    ms + [ReplyOf(llm(ForModelA(ms, Render(prompt, Scratchpad(c)))))]
  }

  /** `call_llm_node`, variant B. */
  function CallLlmB(ms: seq<Message>, c: Context, prompt: string, llm: seq<Message> -> LlmOutcome): seq<Message> {
    ms + [ReplyOf(llm(ForModelB(ms, Render(prompt, Scratchpad(c)))))]
  }

  /** The node appends one model message; a failure appends the error text with
      no calls, so the router then ends the turn. */
  lemma CallLlmAppendsReply(ms: seq<Message>, c: Context, prompt: string, llm: seq<Message> -> LlmOutcome)
    ensures var r := CallLlmA(ms, c, prompt, llm);
      |r| == |ms| + 1 && r[..|ms|] == ms && r[|ms|].AI?
    ensures llm(ForModelA(ms, Render(prompt, Scratchpad(c)))).LlmFailed? ==>
      !HasToolCalls(CallLlmA(ms, c, prompt, llm)[|ms|])
  {
  }

  /** `update_state_after_llm` is wired right after this node, when the last
      message is always the model's reply; so it never captures a name. */
  lemma NameNeverCapturedAfterLlm(ms: seq<Message>, c: Context, prompt: string, llm: seq<Message> -> LlmOutcome)
    ensures AfterLlm(c, CallLlmA(ms, c, prompt, llm)) == c
  {
    var r := CallLlmA(ms, c, prompt, llm);
    assert r[|r| - 1].AI?;
    AfterLlmNeedsHuman(c, r);
  }
}
