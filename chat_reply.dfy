// The reply of the chat endpoint of src/agents/agent/api.py: how the fields of
// a new conversation are set, and which text is sent back once the graph has
// run, with the model's `<think>` blocks removed.
module ChatReply {
  import opened Wrappers
  import opened Strings
  import opened JsonValue
  import opened Messages
  import opened BookingContext

  // ---- removing <think> blocks ----

  const OpenTag := "<think>"
  const CloseTag := "</think>"

  /** The first index at which `p` occurs in `s`. */
  function Find(s: string, p: string): (r: Option<nat>)
    ensures r.None? <==> !Contains(s, p)
    ensures r.Some? ==> OccursAt(s, p, r.value) && forall j | 0 <= j < r.value :: !OccursAt(s, p, j)
    decreases |s|
  {
    if |s| < |p| then None
    else if s[..|p|] == p then assert OccursAt(s, p, 0); Some(0)
    else
      OccursShift(s, p);
      assert !OccursAt(s, p, 0);
      match Find(s[1..], p)
      case None => None
      case Some(k) => Some(k + 1)
  }

  /** An occurrence in `s[1..]` is one in `s`, one place further. */
  lemma OccursShift(s: string, p: string)
    requires |s| > 0
    ensures forall j | 0 <= j :: OccursAt(s[1..], p, j) <==> OccursAt(s, p, j + 1)
    ensures forall i | 1 <= i :: OccursAt(s, p, i) <==> OccursAt(s[1..], p, i - 1)
  {
    forall j | 0 <= j
      ensures OccursAt(s[1..], p, j) <==> OccursAt(s, p, j + 1)
    {
      if j <= |s| - 1 - |p| {
        assert s[1..][j..j + |p|] == s[j + 1..j + 1 + |p|];
      }
    }
  }

  /** `re.sub(r"<think>.*?</think>\s*\n?", "", s, flags=re.DOTALL)`: from left
      to right, each `<think>` that is later closed is removed up to the first
      `</think>` after it, together with the white space that follows. */
  function RemoveThink(s: string): string
    decreases |s|
  {
    if |s| == 0 then ""
    else if StartsWith(s, OpenTag) && Find(s[7..], CloseTag).Some? then
      var k := Find(s[7..], CloseTag).value;
      RemoveThink(StripStart(s[7 + k + 8..]))
    else [s[0]] + RemoveThink(s[1..])
  }

  /** A text with no `<` has no block to remove. */
  lemma {:induction false} RemoveThinkNoTag(s: string)
    requires '<' !in s
    ensures RemoveThink(s) == s
    decreases |s|
  {
    if |s| > 0 {
      assert s[0] in s;
      assert !StartsWith(s, OpenTag) by {
        assert |s| >= 7 ==> s[..7][0] == s[0] && OpenTag[0] == '<';
      }
      RemoveThinkNoTag(s[1..]);
      assert [s[0]] + s[1..] == s;
    }
  }

  /** Text without `<` before a block is kept as it is. */
  lemma {:induction false} RemoveThinkPassesPrefix(pre: string, rest: string)
    requires '<' !in pre
    ensures RemoveThink(pre + rest) == pre + RemoveThink(rest)
    decreases |pre|
  {
    if |pre| > 0 {
      var s := pre + rest;
      assert s[0] == pre[0] && pre[0] != '<';
      assert !StartsWith(s, OpenTag);
      assert s[1..] == pre[1..] + rest;
      RemoveThinkPassesPrefix(pre[1..], rest);
      assert [pre[0]] + pre[1..] == pre;
    } else {
      assert pre + rest == rest;
    }
  }

  /** A block with no `<` inside is removed with the white space after it,
      and the text around it is kept. */
  lemma RemoveThinkBlock(pre: string, body: string, space: string, post: string)
    requires '<' !in pre && '<' !in body && '<' !in post
    requires forall i | 0 <= i < |space| :: IsSpace(space[i])
    requires post == [] || !IsSpace(post[0])
    ensures RemoveThink(pre + OpenTag + body + CloseTag + space + post) == pre + post
  {
    var block := OpenTag + body + CloseTag + (space + post);
    Regroup(pre, OpenTag, body, CloseTag, space, post);
    RemoveThinkPassesPrefix(pre, block);
    RemoveBlockBeforeText(body, space, post);
  }

  lemma Regroup(a: string, b: string, c: string, d: string, e: string, f: string)
    ensures a + b + c + d + e + f == a + (b + c + d + (e + f))
  {
  }

  /** A block with no `<` inside, followed by white space, leaves only the
      text after it. */
  lemma RemoveBlockBeforeText(body: string, space: string, post: string)
    requires '<' !in body && '<' !in post
    requires forall i | 0 <= i < |space| :: IsSpace(space[i])
    requires post == [] || !IsSpace(post[0])
    ensures RemoveThink(OpenTag + body + CloseTag + (space + post)) == post
  {
    RemoveOneBlock(body, space + post);
    StripStartSpaces(space, post);
    RemoveThinkNoTag(post);
  }

  lemma RemoveOneBlock(body: string, rest: string)
    requires '<' !in body
    ensures RemoveThink(OpenTag + body + CloseTag + rest) == RemoveThink(StripStart(rest))
  {
    var block := OpenTag + body + CloseTag + rest;
    assert StartsWith(block, OpenTag);
    assert block[7..] == body + CloseTag + rest;
    CloseFoundAfter(body, rest);
    assert block[7 + |body| + 8..] == rest;
  }

  lemma CloseFoundAfter(body: string, rest: string)
    requires '<' !in body
    ensures Find(body + CloseTag + rest, CloseTag) == Some(|body|)
  {
    var s := body + CloseTag + rest;
    assert s[|body|..|body| + 8] == CloseTag;
    assert OccursAt(s, CloseTag, |body|);
    forall j | 0 <= j < |body|
      ensures !OccursAt(s, CloseTag, j)
    {
      assert s[j] == body[j] && body[j] in body;
      if j <= |s| - 8 {
        assert s[j..j + 8][0] == s[j];
      }
    }
  }

  /** Leading white space is dropped up to the first other character. */
  lemma StripStartSpaces(space: string, post: string)
    requires forall i | 0 <= i < |space| :: IsSpace(space[i])
    requires post == [] || !IsSpace(post[0])
    ensures StripStart(space + post) == post
  {
    var s := space + post;
    var r := StripStart(s);
    LeadingSpaces(s);
    StripStartSuffix(s);
    assert forall i | 0 <= i < |space| :: s[i] == space[i];
    assert |post| > 0 ==> s[|space|] == post[0];
    assert |r| > 0 ==> r[0] == s[|s| - |r|];
    assert |r| == |post|;
    assert s[|s| - |post|..] == post;
  }

  // ---- the reply ----

  /** What the endpoint answers: a reply text, or an HTTP error. */
  datatype ChatResult = Reply(text: string) | HttpError(status: int, detail: string)

  const NotReadyDetail := "El agente no está inicializado. " + "Revisa los logs."
  const NoStateText := "No se pudo obtener el estado final " + "del agente o no hay mensajes."
  const NoTextText := "El agente terminó de procesar pero " + "no generó un mensaje final de texto " + "explícito en este paso."

  function UsedToolText(name: string): string {
    "(Agente usó herramienta: " + name + ". Esperando que el flujo continúe " + "o la respuesta sea procesada.)"
  }

  function ProcessedToolText(name: Option<string>): string {
    "(Agente procesó herramienta: " + OptStr(name) + ". El flujo continuará para generar " + "una respuesta en lenguaje natural.)"
  }

  const ReasoningLabel := "\nRazonamiento (si lo hay): "

  /** The model's text without its `<think>` blocks and outer white space. */
  function Cleaned(m: Message): string {
    if m.AI? then Strip(RemoveThink(m.content)) else m.content
  }

  /** The reply text for the last message of the conversation. */
  function ReplyFor(m: Message): string {
    var cleaned := Cleaned(m);
    if m.AI? && |m.toolCalls| == 0 then cleaned
    else if m.AI? then
      var placeholder := UsedToolText(m.toolCalls[0].name);
      if |cleaned| > 0 && cleaned != placeholder then placeholder + ReasoningLabel + cleaned else placeholder
    else if m.Tool? then ProcessedToolText(m.name)
    else NoTextText
  }

  /** `chat_with_agent`: whether the agent was set up, the error the graph
      raised if any, and the messages the graph holds afterwards. */
  function Chat(ready: bool, streamError: Option<string>, finalMessages: seq<Message>): ChatResult {
    if !ready then HttpError(503, NotReadyDetail)
    else if streamError.Some? then HttpError(500, "Error procesando solicitud: " + streamError.value)
    else if |finalMessages| == 0 then Reply(NoStateText)
    else Reply(ReplyFor(finalMessages[|finalMessages| - 1]))
  }

  /** Errors come first: 503 before anything runs, 500 when the graph raises. */
  lemma ChatErrors(ready: bool, streamError: Option<string>, finalMessages: seq<Message>)
    ensures !ready ==> Chat(ready, streamError, finalMessages) == HttpError(503, NotReadyDetail)
    ensures ready && streamError.Some? ==>
      Chat(ready, streamError, finalMessages).HttpError? && Chat(ready, streamError, finalMessages).status == 500
      && EndsWith(Chat(ready, streamError, finalMessages).detail, streamError.value)
    ensures Chat(ready, streamError, finalMessages).HttpError? <==> !ready || streamError.Some?
  {
  }

  /** A final model answer without calls is sent as its text, without the
      think blocks and stripped; with no `<` in it, it is just stripped. */
  lemma ChatPlainAnswer(finalMessages: seq<Message>)
    requires |finalMessages| > 0 && finalMessages[|finalMessages| - 1].AI?
    requires !HasToolCalls(finalMessages[|finalMessages| - 1])
    ensures var m := finalMessages[|finalMessages| - 1];
      Chat(true, None, finalMessages) == Reply(Strip(RemoveThink(m.content)))
      && ('<' !in m.content ==> Chat(true, None, finalMessages) == Reply(Strip(m.content)))
  {
    var m := finalMessages[|finalMessages| - 1];
    if '<' !in m.content {
      RemoveThinkNoTag(m.content);
    }
  }

  /** A final model message with calls is reported by the first call's name,
      and any other text it has is added as reasoning. */
  lemma ChatToolCallPlaceholder(finalMessages: seq<Message>)
    requires |finalMessages| > 0 && HasToolCalls(finalMessages[|finalMessages| - 1])
    ensures var m := finalMessages[|finalMessages| - 1];
      var placeholder := UsedToolText(m.toolCalls[0].name);
      var r := Chat(true, None, finalMessages);
      r.Reply? && StartsWith(r.text, placeholder)
      && (|Cleaned(m)| > 0 && Cleaned(m) != placeholder ==> EndsWith(r.text, ReasoningLabel + Cleaned(m)))
      && (|Cleaned(m)| == 0 ==> r.text == placeholder)
  {
    var m := finalMessages[|finalMessages| - 1];
    var placeholder := UsedToolText(m.toolCalls[0].name);
    if |Cleaned(m)| > 0 && Cleaned(m) != placeholder {
      assert ReplyFor(m) == placeholder + (ReasoningLabel + Cleaned(m));
    }
  }

  /** The other endings: a tool message, a user or system message, nothing. */
  lemma ChatOtherEndings(finalMessages: seq<Message>)
    ensures |finalMessages| == 0 ==> Chat(true, None, finalMessages) == Reply(NoStateText)
    ensures |finalMessages| > 0 && finalMessages[|finalMessages| - 1].Tool? ==>
      Chat(true, None, finalMessages) == Reply(ProcessedToolText(finalMessages[|finalMessages| - 1].name))
    ensures |finalMessages| > 0 && (finalMessages[|finalMessages| - 1].Human? || finalMessages[|finalMessages| - 1].System?) ==>
      Chat(true, None, finalMessages) == Reply(NoTextText)
  {
  }

  // ---- the fields of a new conversation ----

  /** The booking fields the graph starts from: a thread with no stored
      messages gets the initial fields; any other keeps what it stored. */
  function StartingContext(stored: seq<Message>, storedContext: Context): (c: Context)
    ensures |stored| == 0 ==> c == Initial
    ensures |stored| > 0 ==> c == storedContext
  {
    if |stored| == 0 then Initial else storedContext
  }

  /** So the first scratchpad of a new conversation is the fixed sentence. */
  lemma NewThreadHasNoContext(storedContext: Context)
    ensures Scratchpad(StartingContext([], storedContext)) == NoContextText
  {
    ScratchpadBlank(Initial);
  }
}
