// The gym-booking memory the agent keeps beside its messages: the slot it has
// offered, the guest's name and whether it is waiting for a confirmation; the
// scratchpad text that reports it to the model; and the two state updates that
// run after the model and after a tool (src/agents/agent_rag/state.py and its
// copies in src/agents/agent/tool_agent.py and src/agents/agent/api.py).
module BookingContext {
  import opened Wrappers
  import opened Strings
  import opened JsonValue
  import opened Messages

  /** `gym_slot_iso_to_book` (whatever JSON value the tool call carried; `JNull`
      is Python's `None`), `user_name_for_gym_booking` and
      `pending_gym_slot_confirmation`. */
  datatype Context = Context(slot: Json, name: Option<string>, pending: bool)

  /** The fields a new conversation starts with. */
  const Initial := Context(JNull, None, false)

  const CheckToolName := "check_gym_availability"
  const BookToolName := "book_gym_slot"

  // Long texts are written in pieces of at most forty characters, which the
  // verifier can look inside.
  const NoContextText := "No hay información de contexto " + "adicional para la reserva de gimnasio " + "en este momento."
  const HeaderLine := "Contexto actual " + "de la reserva de gimnasio:"
  const PendingLine := "- Actualmente estamos esperando " + "la confirmación del usuario para un " + "slot de gimnasio y/o su nombre."

  function SlotLine(slot: Json): string {
    "- Slot de gimnasio " + "preseleccionado para reserva: " + Str(slot)
  }

  function NameLine(name: string): string {
    "- Nombre de usuario para la reserva: " + name
  }

  /** The name field is set to a non-empty string (Python truthiness). */
  predicate HasName(c: Context) {
    c.name.Some? && |c.name.value| > 0
  }

  /** No field would be reported. */
  predicate IsBlank(c: Context) {
    !Truthy(c.slot) && !HasName(c) && !c.pending
  }

  /** The lines of the scratchpad: one per truthy field, in the order slot,
      name, pending. */
  function ContextLines(c: Context): (r: seq<string>)
    ensures |r| == (if Truthy(c.slot) then 1 else 0) + (if HasName(c) then 1 else 0) + (if c.pending then 1 else 0)
    ensures Truthy(c.slot) ==> r[0] == SlotLine(c.slot)
    ensures HasName(c) ==> r[if Truthy(c.slot) then 1 else 0] == NameLine(c.name.value)
    ensures c.pending ==> r[|r| - 1] == PendingLine
  {
    (if Truthy(c.slot) then [SlotLine(c.slot)] else [])
    + (if HasName(c) then [NameLine(c.name.value)] else [])
    + (if c.pending then [PendingLine] else [])
  }

  /** `get_current_agent_scratchpad`. */
  function Scratchpad(c: Context): string {
    var lines := ContextLines(c);
    if |lines| == 0 then NoContextText else HeaderLine + "\n" + Join("\n", lines)
  }

  /** The fixed "no context" sentence is produced exactly when no field is set. */
  lemma ScratchpadBlank(c: Context)
    ensures Scratchpad(c) == NoContextText <==> IsBlank(c)
  {
    if !IsBlank(c) {
      assert Scratchpad(c)[0] == 'C' != 'N' == NoContextText[0];
    }
  }

  /** Otherwise the scratchpad, read line by line, is the header followed by one
      line per set field, in the order slot, name, pending (when the slot and
      the name are themselves one line each). */
  lemma ScratchpadLines(c: Context)
    requires !IsBlank(c)
    requires '\n' !in Str(c.slot)
    requires c.name.Some? ==> '\n' !in c.name.value
    ensures Split(Scratchpad(c), '\n') == [HeaderLine] + ContextLines(c)
  {
    var lines := ContextLines(c);
    JoinCons("\n", HeaderLine, lines);
    LinesAreSingle(c);
    SplitJoin([HeaderLine] + lines, '\n');
  }

  lemma LinesAreSingle(c: Context)
    requires '\n' !in Str(c.slot)
    requires c.name.Some? ==> '\n' !in c.name.value
    ensures forall i | 0 <= i < |[HeaderLine] + ContextLines(c)| :: '\n' !in ([HeaderLine] + ContextLines(c))[i]
  {
    var all := [HeaderLine] + ContextLines(c);
    forall i | 0 <= i < |all|
      ensures '\n' !in all[i]
    {
      var l := all[i];
      if i == 0 {
        HeaderIsSingle();
      } else if Truthy(c.slot) && i == 1 {
        SlotLineIsSingle(c.slot);
      } else if HasName(c) && i == (if Truthy(c.slot) then 2 else 1) {
        NameLineIsSingle(c.name.value);
      } else {
        assert l == PendingLine;
        PendingIsSingle();
      }
    }
  }

  lemma HeaderIsSingle() ensures '\n' !in HeaderLine {}
  lemma PendingIsSingle() ensures '\n' !in PendingLine {
    var a := "- Actualmente estamos esperando ";
    var b := "la confirmación del usuario para un ";
    var c := "slot de gimnasio y/o su nombre.";
    PendingHead(a);
    PendingMiddle(b);
    PendingEnd(c);
    NotInConcat('\n', a, b);
    NotInConcat('\n', a + b, c);
  }

  lemma PendingHead(a: string)
    requires a == "- Actualmente estamos esperando "
    ensures '\n' !in a
  {}

  lemma PendingMiddle(b: string)
    requires b == "la confirmación del usuario para un "
    ensures '\n' !in b
  {}

  lemma PendingEnd(c: string)
    requires c == "slot de gimnasio y/o su nombre."
    ensures '\n' !in c
  {}

  lemma SlotLineIsSingle(slot: Json)
    requires '\n' !in Str(slot)
    ensures '\n' !in SlotLine(slot)
  {}

  lemma NameLineIsSingle(name: string)
    requires '\n' !in name
    ensures '\n' !in NameLine(name)
  {}

  /** The model's wording asks for the guest's name. */
  predicate AsksForName(text: string) {
    var t := Lower(text);
    Contains(t, "nombre completo") || Contains(t, "su nombre")
  }

  /** `update_state_after_llm`: when the model asked for the name while a slot
      awaits confirmation and the user then answered, the stripped answer
      becomes the name. The confirmation heuristic that follows only sets a
      local flag, so it has no effect on the state. */
  function AfterLlm(c: Context, ms: seq<Message>): Context {
    if |ms| >= 2 && ms[|ms| - 1].Human? && ms[|ms| - 2].AI?
       && AsksForName(ms[|ms| - 2].content) && c.pending && |ms[|ms| - 1].content| > 0
    then c.(name := Some(Strip(ms[|ms| - 1].content)))
    else c
  }

  /** The update after the model touches only the name. */
  lemma AfterLlmOnlyName(c: Context, ms: seq<Message>)
    ensures AfterLlm(c, ms).slot == c.slot && AfterLlm(c, ms).pending == c.pending
  {
  }

  /** It changes nothing unless the last message is the user's. */
  lemma AfterLlmNeedsHuman(c: Context, ms: seq<Message>)
    requires |ms| == 0 || !ms[|ms| - 1].Human?
    ensures AfterLlm(c, ms) == c
  {
  }

  /** When it does capture a name, that name is the user's answer without its
      surrounding white space. */
  lemma AfterLlmCapturesAnswer(c: Context, ms: seq<Message>)
    requires AfterLlm(c, ms) != c
    ensures |ms| >= 2 && ms[|ms| - 1].Human? && c.pending
    ensures AfterLlm(c, ms).name == Some(Strip(ms[|ms| - 1].content))
  {
  }

  /** The phrases the update looks for in the availability tool's text. */
  const FoundPhrase := "Horarios disponibles encontrados"
  const FreePhrase := "está disponible"
  const NoSlotsPhrase := "No hay horarios disponibles"

  /** The tool text reports free slots. */
  predicate ReportsSlots(text: string) {
    Contains(text, FoundPhrase) || Contains(text, FreePhrase)
  }

  /** The tool text reports that nothing is free. */
  predicate ReportsNoSlots(text: string) {
    Contains(text, NoSlotsPhrase)
  }

  /** The `target_date` argument of the first call of the AI message before the
      last one, when there is such a message with calls (`None` otherwise). */
  function CallerTargetDate(ms: seq<Message>): Option<Json> {
    if |ms| >= 2 && HasToolCalls(ms[|ms| - 2]) then
      Some(GetOr(ms[|ms| - 2].toolCalls[0].args, "target_date", JNull))
    else None
  }

  /** `update_state_after_tool`, on the message list after the tool node. */
  function AfterTool(c: Context, ms: seq<Message>): Context
    requires |ms| > 0
  {
    var last := ms[|ms| - 1];
    if !last.Tool? then c
    else if last.name == Some(CheckToolName) then
      if ReportsSlots(last.content) then
        match CallerTargetDate(ms)
        case Some(q) => if Truthy(q) then c.(pending := true, slot := q) else c
        case None => c.(pending := true)
      else if ReportsNoSlots(last.content) then c.(slot := JNull, pending := false)
      else c
    else if last.name == Some(BookToolName) then Initial
    else c
  }

  /** A reported slot with a calling AI message that names `target_date`: the
      queried date is offered and a confirmation is awaited. */
  lemma AfterToolOffersQueriedDate(c: Context, ms: seq<Message>, q: Json)
    requires |ms| > 0 && ms[|ms| - 1].Tool? && ms[|ms| - 1].name == Some(CheckToolName)
    requires ReportsSlots(ms[|ms| - 1].content)
    requires CallerTargetDate(ms) == Some(q) && Truthy(q)
    ensures AfterTool(c, ms) == Context(q, c.name, true)
  {
  }

  /** The same text with no calling AI message only sets the pending flag; a
      calling message without `target_date` changes nothing. */
  lemma AfterToolWithoutQueriedDate(c: Context, ms: seq<Message>)
    requires |ms| > 0 && ms[|ms| - 1].Tool? && ms[|ms| - 1].name == Some(CheckToolName)
    requires ReportsSlots(ms[|ms| - 1].content)
    ensures CallerTargetDate(ms).None? ==> AfterTool(c, ms) == c.(pending := true)
    ensures CallerTargetDate(ms) == Some(JNull) ==> AfterTool(c, ms) == c
  {
  }

  /** "No hay horarios disponibles" (without a success phrase) clears the slot
      and the pending flag and keeps the guest's name. */
  lemma AfterToolNoSlots(c: Context, ms: seq<Message>)
    requires |ms| > 0 && ms[|ms| - 1].Tool? && ms[|ms| - 1].name == Some(CheckToolName)
    requires !ReportsSlots(ms[|ms| - 1].content) && ReportsNoSlots(ms[|ms| - 1].content)
    ensures AfterTool(c, ms) == Context(JNull, c.name, false)
  {
  }

  /** Any result of the booking tool, success or failure, clears all three
      fields, and so the scratchpad goes back to the fixed sentence. */
  lemma AfterToolBooking(c: Context, ms: seq<Message>)
    requires |ms| > 0 && ms[|ms| - 1].Tool? && ms[|ms| - 1].name == Some(BookToolName)
    ensures AfterTool(c, ms) == Initial
    ensures Scratchpad(AfterTool(c, ms)) == NoContextText
  {
  }

  /** A last message that is not a tool result, or one from another tool,
      leaves the fields as they were. */
  lemma AfterToolOtherMessage(c: Context, ms: seq<Message>)
    requires |ms| > 0
    requires !ms[|ms| - 1].Tool? || ms[|ms| - 1].name !in {Some(CheckToolName), Some(BookToolName)}
    ensures AfterTool(c, ms) == c
  {
  }

  /** Whatever the tool said, the slot ends up either unchanged, cleared, or the
      date the calling AI message asked about. */
  lemma AfterToolSlotOrigin(c: Context, ms: seq<Message>)
    requires |ms| > 0
    ensures var s := AfterTool(c, ms).slot;
      s == c.slot || s == JNull || CallerTargetDate(ms) == Some(s)
  {
  }
}
