# receptibot in Dafny

A model of the core of receptibot, a receptionist agent that books gym
classes, sauna sessions and hotel rooms through a language model that calls
tools. The model covers:

- **The agent graph**, in its two copies (the gym agent with the booking
  context and the generic tool agent). This includes the routers that decide
  between the model and the tools (`router.dfy`), the model node that builds
  the prompt and appends the reply (`llm_node.dfy`), the tool node that runs
  each tool call and answers it with a tool message (`tool_node.dfy`), and a
  whole session driven turn by turn (`agent_session.dfy`).
- **The booking context** kept between turns (`booking_context.dfy`). This is
  the scratchpad text, the capture of the guest's name, and how tool results
  update the offered slots and the pending booking.
- **The chat endpoint's reply** (`chat_reply.dfy`): which message is returned
  to the user.
- **The Redis checkpointer.**
  - `checkpoint_codec.dfy`: how a checkpoint and its messages become JSON and
    come back.
  - `checkpoint_store.dfy`: the keys, the time-to-live, `put`, `get_tuple`,
    `list`, the clearing of a session and the listing of active sessions.
  - `config.dfy`: its configuration (the Redis URL and the lifetime in
    seconds).
- **The gym tools** (`gym_tools.dfy`), which call the booking API over HTTP
  in both copies, and the simpler demo tools (`simple_tools.dfy`).
- **The small demo graphs**: the hand-written nodes (`graph_nodes.dfy`) and
  the graph on a hosted model (`gym_hf.dfy`).
- **The document chunker** of the loader (`chunker.dfy`).
- **The gym and sauna booking APIs** (`gym_services.dfy`), in both copies of
  the service: availability of a service (by POST, either at an exact time or
  the first slots of a day, and by GET, every slot of a day) and booking.
- **The hotel room API** (`rooms.dfy`): availability and reservation, with the
  invariant that no two stays of a room overlap.

The surroundings are parameters of the model, never implemented:

- the language model, the HTTP client and the JSON encoder and decoder;
- date parsing;
- the Redis clock and fresh identifiers.

Pure logic is written as functions with lemmas. Code that loops or changes
state is written as methods: the checkpointer, the database services and a
session are classes. Each method is proved against the function that
specifies it.

## Model

| member | source | states |
|---|---|---|
| Router.RouteA | src/agents/agent_rag/agent.py:70-113 | the variant-A router as a function of the messages, the registry and the JSON decoder; it has no contract of its own, and the RouteA lemmas in the rows that follow state its whole decision table |
| Router.RouteANotAI | src/agents/agent_rag/agent.py:72-75 | with no messages, or a last message that is not an AI message, variant A responds directly and changes nothing |
| Router.RouteARegisteredCall | src/agents/agent_rag/agent.py:77-81 | with structured calls only the first name is looked up; a registered one routes to the tool node with the messages untouched |
| Router.RouteAUnknownCall | src/agents/agent_rag/agent.py:82-85 | an unregistered first call name empties `tool_calls`, keeps the text and responds directly; the JSON fallback is not tried |
| Router.RouteAJsonToolCall | src/agents/agent_rag/agent.py:87-99 | text starting with "{" that parses to an object with a registered "tool" and an object "tool_input" becomes exactly one call (id "qwen_tc_" + hex) with empty text, and the tool node runs |
| Router.RouteAJsonAnswer | src/agents/agent_rag/agent.py:102-106 | an object with "answer" and not both tool keys puts the answer in the content (a string answer exactly as it is), empties the calls and responds directly |
| Router.RouteAUnparsed | src/agents/agent_rag/agent.py:87-113 | text that does not start with "{" or does not parse to an object leaves the message unchanged and responds directly |
| Router.RouteAKeepsHistory | src/agents/agent_rag/agent.py:84-105 | the router only ever rewrites the last message; the list keeps its length and every earlier message |
| Router.RouteAEndsWithoutCalls | src/agents/agent_rag/agent.py:82-113 | when the route is to respond on an AI message, that message carries no tool calls afterwards |
| Router.RouteAInvokesRegistered | src/agents/agent_rag/agent.py:79-99 | the tool node is chosen only when the last message's first call names a registered tool |
| Router.JsonSpanIsGreedy | src/agents/modules/agent.py:79-81 | the DOTALL search `\{.*\}` finds a span iff some "{" precedes some "}", and the span runs from the first "{" to the last "}" |
| Router.RouteB | src/agents/modules/agent.py:67-100 | the variant-B router, including the raise on an unhashable name; it has no contract of its own, and the RouteB lemmas and StructuredB state its decision table |
| Router.RouteBNotAI | src/agents/modules/agent.py:73-76 | variant B ends the turn with nothing changed when the last message is not an AI message |
| Router.RouteBJsonToolCall | src/agents/modules/agent.py:78-91 | JSON in the text is read before the structured calls: a registered name ("name", else "tool") with object arguments ("arguments", else "tool_input") replaces the calls by one call with id "llm_tc_" + hex and empties the text |
| Router.RouteBWithoutJson | src/agents/modules/agent.py:92-100 | without usable JSON, any structured call routes to the tool node without a registry check; none ends the turn; nothing is rewritten |
| Router.RouteBUnhashableName | src/agents/modules/agent.py:84-92 | a list or object as the name makes `tool_name in self._tools_map` raise TypeError, which the `except` does not catch |
| Router.StructuredB | src/agents/modules/agent.py:95-100 | the fallback keeps the messages and routes to the tool node iff the last message has calls |
| BookingContext.Scratchpad | src/agents/agent_rag/state.py:16-28 | the scratchpad text; it has no contract of its own, and ScratchpadBlank, ScratchpadLines and LinesAreSingle state what it holds |
| BookingContext.ContextLines | src/agents/agent_rag/state.py:18-24 | one line per truthy field, in the order slot, name, pending, each with its fixed wording |
| BookingContext.ScratchpadBlank | src/agents/agent_rag/state.py:26-27 | the scratchpad is the fixed "No hay información…" sentence iff slot, name and pending are all falsy |
| BookingContext.ScratchpadLines | src/agents/agent_rag/state.py:28 | otherwise the scratchpad, split at newlines, is the header line followed by exactly the context lines (when the slot and name hold no newline) |
| BookingContext.LinesAreSingle | src/agents/agent_rag/state.py:20-28 | no header or field line contains a newline of its own, so the join can be split back |
| BookingContext.AfterLlm | src/agents/agent_rag/state.py:30-82 | the update after the model; it has no contract of its own, and the AfterLlm lemmas state what it changes |
| BookingContext.AfterLlmOnlyName | src/agents/agent_rag/state.py:50-64 | the update after the model never touches the slot or the pending flag |
| BookingContext.AfterLlmNeedsHuman | src/agents/agent_rag/state.py:51-61 | unless the last message is a human message, the update after the model changes nothing |
| BookingContext.AfterLlmCapturesAnswer | src/agents/agent_rag/state.py:55-63 | a name is captured only while a slot is pending, and it is the user's answer stripped of white space |
| BookingContext.AfterTool | src/agents/agent_rag/state.py:84-135 | the update after a tool; it has no contract of its own, and the AfterTool lemmas state each of its branches |
| BookingContext.AfterToolOffersQueriedDate | src/agents/agent_rag/state.py:97-116 | a success text from the availability tool after an AI call with a truthy `target_date` sets pending and the slot to that date, keeping the name |
| BookingContext.AfterToolWithoutQueriedDate | src/agents/agent_rag/state.py:101-119 | the same text with no calling AI message only sets pending; a calling message without `target_date` changes nothing |
| BookingContext.AfterToolNoSlots | src/agents/agent_rag/state.py:121-125 | "No hay horarios disponibles" clears the slot and pending and keeps the guest's name |
| BookingContext.AfterToolBooking | src/agents/agent_rag/state.py:127-132 | any booking-tool result clears slot, name and pending, so the scratchpad is back to the fixed sentence |
| BookingContext.AfterToolOtherMessage | src/agents/agent_rag/state.py:86-127 | a last message that is not a tool result, or comes from another tool, leaves the state unchanged |
| BookingContext.AfterToolSlotOrigin | src/agents/agent_rag/state.py:84-135 | after the update the slot is unchanged, cleared, or the date the calling AI message asked for |
| AgentSession.Session.RouteA | src/agents/agent_rag/agent.py:70-113 | the in-place router leaves exactly the message list and route of the variant-A decision table and does not touch the booking fields |
| AgentSession.Session.RouteB | src/agents/modules/agent.py:67-100 | the in-place variant-B router matches its decision table, and on the unhashable-name error leaves the messages as they were |
| AgentSession.Session.UpdateStateAfterLlm | src/agents/agent_rag/state.py:30-82 | the booking fields become the result of the after-model update and the messages are not modified |
| AgentSession.Session.UpdateStateAfterTool | src/agents/agent_rag/state.py:84-135 | the booking fields become the result of the after-tool update and the messages are not modified |
| AgentSession.Session.CallLlm | src/agents/agent_rag/agent.py:115-161 | one reply is appended, computed from the assembled list for the model; the booking fields are unchanged |
| AgentSession.Session.RunTurn | src/agents/agent_rag/agent.py:43-54 | a user turn appends the human message and keeps the earlier history as a prefix; a turn ended by the router ends on an AI message with no tool calls |
| AgentSession.Session.Round | src/agents/agent_rag/agent.py:46-54 | one model-router-tools round only adds messages after the old ones, and a round that ends the turn ends on an AI message without calls |
| AgentSession.Session.ModelStep | src/agents/agent_rag/agent.py:115-161 | the model step (wired at line 46) appends exactly one AI message and keeps everything before it |
| AgentSession.Session.RouteStep | src/agents/agent_rag/agent.py:47-113 | routing keeps the list's length and all but its last message; ending the turn leaves an AI message without calls last |
| LlmNode.RenderFStringPrompt | src/agents/agent/tool_agent.py:193-238 | a prompt rendered by an f-string holds no "{{", so at line 464 the `.replace("{{agent_scratchpad}}", …)` leaves it unchanged and the scratchpad never reaches the model |
| LlmNode.RenderPlainPrompt | src/agents/modules/agent.py:105 | with the plain-string prompt holding the placeholder once, the scratchpad takes exactly the placeholder's place |
| LlmNode.SwapSystem | src/agents/agent_rag/agent.py:130-136 | position by position, each system message becomes the rendered prompt and every other message stays |
| LlmNode.NonSystem | src/agents/modules/agent.py:108 | the kept messages are no system messages and no more than the input |
| LlmNode.AssembleA | src/agents/agent_rag/agent.py:124-139 | the loop builds exactly the variant-A list: system messages swapped in place, or the prompt prepended when there is none |
| LlmNode.AssembleStep | src/agents/agent_rag/agent.py:130-136 | one loop step appends the swapped message and updates whether a system message was seen |
| LlmNode.ForModelAKeepsConversation | src/agents/agent_rag/agent.py:124-139 | without its system messages the list for the model is exactly the conversation, in order, and it holds a system message |
| LlmNode.VariantsAgree | src/agents/modules/agent.py:107-108 | when at most the first message is a system message, variant B's list equals variant A's |
| LlmNode.ReplyOf | src/agents/agent_rag/agent.py:148-155 | the node returns an AI message: the model's answer, or on failure "Error al procesar con LLM: " with the error and no calls |
| LlmNode.CallLlmAppendsReply | src/agents/agent_rag/agent.py:148-161 | the node adds exactly one AI message after the old list, and a failed call adds one without tool calls |
| LlmNode.NameNeverCapturedAfterLlm | src/agents/agent_rag/agent.py:46 | wired right after the model node, the after-model update sees the AI reply last and never sets the name |
| ToolNode.Missing | src/agents/agent_rag/agent.py:199-207 | the missing list holds exactly the required names the arguments lack, and is empty iff all are present |
| ToolNode.MessageFor | src/agents/agent_rag/agent.py:183-216 | each call is answered by a tool message carrying the call's id (or "tc_" + hex when it has none) and a name |
| ToolNode.InvokeToolsA | src/agents/agent_rag/agent.py:163-221 | without calls on the last message exactly one error message with id "error_no_valid_tool_calls" ("error_no_tc" in the api copy) is appended; otherwise the old list is kept as a prefix and exactly one message per call follows, in call order |
| ToolNode.MissingArgumentsAnswered | src/agents/agent_rag/agent.py:199-211 | a call lacking a required argument gets the text naming the missing arguments, and the tool is not called: the text does not depend on the tool |
| ToolNode.BookingMissingBoth | src/agents/agent_rag/agent.py:200-202 | the booking tool lacking both arguments reports "booking_date" then "user_name" |
| ToolNode.QueryCheckedOnlyInAgentCopy | src/agents/agent/api.py:264-270 | the api copy does not check the search tool's "query", unlike the agent_rag and tool_agent copies (src/agents/agent_rag/agent.py:205-206) |
| ToolNode.RegisteredToolCalled | src/agents/agent_rag/agent.py:197-214 | a registered tool with all its arguments is called; its return value, or its exception's text after "Error al ejecutar la herramienta", becomes the message |
| ToolNode.MessageForB | src/agents/modules/agent.py:128-143 | in variant B each call becomes a tool message with the call's id and name, with no argument check |
| ToolNode.InvokeToolsB | src/agents/modules/agent.py:120-145 | variant B returns only new messages: one error message "error_no_tool_calls" without calls, else exactly one message per call in order |
| ChatReply.RemoveThink | src/agents/agent/api.py:347 | the think-block substitution; it has no contract of its own, and RemoveThinkNoTag, RemoveThinkPassesPrefix and RemoveThinkBlock state what it removes and keeps |
| ChatReply.Find | src/agents/agent/api.py:347 | the search for "</think>" finds the first occurrence, and none iff there is none |
| ChatReply.RemoveThinkNoTag | src/agents/agent/api.py:347 | a text with no "<" has no think block, so the substitution keeps it unchanged |
| ChatReply.RemoveThinkPassesPrefix | src/agents/agent/api.py:347 | text with no "<" before a block is kept as it is |
| ChatReply.RemoveThinkBlock | src/agents/agent/api.py:347 | a "<think>…</think>" block and the white space after it are removed, and the text around them is kept |
| ChatReply.Chat | src/agents/agent/api.py:311-368 | the chat endpoint's answer; it has no contract of its own, and ChatErrors, ChatPlainAnswer, ChatToolCallPlaceholder and ChatOtherEndings state every outcome |
| ChatReply.ReplyFor | src/agents/agent/api.py:346-363 | the reply text for the final message; it has no contract of its own, and the Chat lemmas state it for each kind of message |
| ChatReply.ChatErrors | src/agents/agent/api.py:313-341 | an uninitialised agent gives 503 before anything else; an exception from the graph gives 500 ending with its text; these are the only errors |
| ChatReply.ChatPlainAnswer | src/agents/agent/api.py:346-352 | a final AI message without calls is sent as its text with think blocks removed, then stripped |
| ChatReply.ChatToolCallPlaceholder | src/agents/agent/api.py:353-356 | a final AI message with calls gives the placeholder naming the first tool, followed by "Razonamiento" and the cleaned text when that text is non-empty and differs |
| ChatReply.ChatOtherEndings | src/agents/agent/api.py:357-363 | a final tool message gives the placeholder naming the tool; a final human or system message gives the fixed "no final text" reply; no messages gives the fixed error text |
| ChatReply.StartingContext | src/agents/agent/api.py:319-332 | a thread with no stored messages starts from (None, None, False); any other thread keeps its stored fields |
| ChatReply.NewThreadHasNoContext | src/agents/agent/api.py:319-326 | so a new thread's first scratchpad is the fixed "no context" sentence |
| CheckpointCodec.CheckpointJson | src/agents/modules/redis_checkpointer.py:44-88 | the dict written for a checkpoint; it has no contract of its own, and CheckpointChannelValues, ChannelsJson and CheckpointRoundTrip state what it holds and that it reads back |
| CheckpointCodec.MessagesOf | src/agents/modules/redis_checkpointer.py:63-64 | the message list is found iff some channel is named "messages", and it is that channel's list |
| CheckpointCodec.CallsJson | src/agents/modules/redis_checkpointer.py:74 | the stored tool calls are one dict per call, in order |
| CheckpointCodec.EntriesJson | src/agents/modules/redis_checkpointer.py:65-80 | the stored list has one item per entry, in order: a message's dict or the entry's text |
| CheckpointCodec.ChannelsJson | src/agents/modules/redis_checkpointer.py:52-82 | the written `channel_values` keeps every channel's name and order; only the message list is replaced by its stored items |
| CheckpointCodec.ChannelsAfterWrite | src/agents/modules/redis_checkpointer.py:52-82 | the caller's own `channel_values` is overwritten: its message list now holds the written dicts and strings, one per entry, and other channels are unchanged |
| CheckpointCodec.PyIn | src/agents/modules/redis_checkpointer.py:96-98 | `in` raises on a number, bool or None, and on a dict tests its keys |
| CheckpointCodec.DecodeCheckpoint | src/agents/modules/redis_checkpointer.py:90-145 | the read of a stored checkpoint; it has no contract of its own, and DecodeOfChannelValues, DecodeWrittenChannels and CheckpointRoundTrip state what it gives back |
| CheckpointCodec.DecodeCalls | src/agents/modules/redis_checkpointer.py:119-120 | stored calls decode item by item, keeping count and order |
| CheckpointCodec.RebuildAll | src/agents/modules/redis_checkpointer.py:107-137 | the list is rebuilt iff every item is, with one message per item in order |
| CheckpointCodec.DecodeCallsJson | src/agents/modules/redis_checkpointer.py:74-120 | the stored form of a call list decodes back to the same calls |
| CheckpointCodec.MessageJsonFields | src/agents/modules/redis_checkpointer.py:70-77 | the stored dict holds the class name, the content, the AI attributes and the tool attributes, with {} / [] / None for those the class lacks |
| CheckpointCodec.RebuildMessageJson | src/agents/modules/redis_checkpointer.py:70-131 | a message written by the checkpointer is rebuilt as the same message: Human/System content; AI content, additional_kwargs and tool_calls; Tool content, tool_call_id and name |
| CheckpointCodec.RebuildTagged | src/agents/modules/redis_checkpointer.py:108-124 | which rebuild a stored dict gets is decided by its "type" field alone |
| CheckpointCodec.EmptyToolNameIsDropped | src/agents/modules/redis_checkpointer.py:129-130 | a tool message named "" comes back with no name, because an empty name is falsy |
| CheckpointCodec.RebuildValueEntry | src/agents/modules/redis_checkpointer.py:78-137 | an entry that is not a message is written as its text and comes back as a human message holding that text |
| CheckpointCodec.RebuildEntry | src/agents/modules/redis_checkpointer.py:67-137 | every restorable entry comes back as its expected message |
| CheckpointCodec.RebuildEntries | src/agents/modules/redis_checkpointer.py:59-139 | the message list keeps its length and order through a write and a read |
| CheckpointCodec.LookupMessages | src/agents/modules/redis_checkpointer.py:96-104 | the written `channel_values` has "messages" iff the checkpoint had a message list, bound to the stored items |
| CheckpointCodec.DecodeWrittenChannels | src/agents/modules/redis_checkpointer.py:96-139 | a written non-empty `channel_values` decodes to the expected message list |
| CheckpointCodec.CheckpointRoundTrip | src/agents/modules/redis_checkpointer.py:44-141 | writing a checkpoint and reading it back gives the written dict with every message as it was, in order, and every other entry as a human message holding its text |
| CheckpointCodec.CheckpointChannelValues | src/agents/modules/redis_checkpointer.py:48-56 | the written dict has "channel_values" bound to the written channels (an empty dict when the checkpoint has none) |
| CheckpointCodec.DecodeOfChannelValues | src/agents/modules/redis_checkpointer.py:96-141 | a dict checkpoint is decoded from its "channel_values" field, and returned as it is when that field is falsy |
| CheckpointCodec.RewriteTurnsMessagesIntoText | src/agents/modules/redis_checkpointer.py:68-82 | after a save the caller's message list holds no message object, so saving the same checkpoint again and reading it gives only human messages |
| CheckpointCodec.MessagesOfAt | src/agents/modules/redis_checkpointer.py:63-64 | with distinct channel names, the channel named "messages" is the one whose list is found |
| CheckpointStore.KeysSplit | src/agents/modules/redis_checkpointer.py:36-42 | with no `:` inside the parts, the checkpoint key splits back into prefix, thread and namespace, and the metadata key into prefix, "meta", thread and namespace |
| CheckpointStore.KeysSeparateSessions | src/agents/modules/redis_checkpointer.py:36-42 | sessions with a different thread or namespace use different checkpoint and metadata keys, and no checkpoint key is another session's metadata key |
| CheckpointStore.KeysDiffer | src/agents/modules/redis_checkpointer.py:36-42 | the two keys of one session never coincide |
| CheckpointStore.GetIn | src/agents/modules/redis_checkpointer.py:160-161 | `GET` gives a text exactly when the key is present and not yet expired |
| CheckpointStore.ExtendedMetadata | src/agents/modules/redis_checkpointer.py:235-268 | the stored metadata is always a dict |
| CheckpointStore.ExtendedMetaFields | src/agents/modules/redis_checkpointer.py:179-257 | the stored metadata gives back the source, step, writes and parents of the given metadata, with the same defaults |
| CheckpointStore.SavedMetaFields | src/agents/modules/redis_checkpointer.py:232-268 | the same holds for the metadata built after the checkpoint was written |
| CheckpointStore.LastMessageTypeIsNeverAClass | src/agents/modules/redis_checkpointer.py:232-268 | as written, the saved `last_message_type` is "dict" when the last entry was a message and "str" otherwise, never a message class name |
| CheckpointStore.IntendedLastTypeNamesClass | src/agents/modules/redis_checkpointer.py:260-268 | reading the message list before it is overwritten, `message_count` is the number of entries and `last_message_type` the class of the last message |
| CheckpointStore.RedisCheckpointer.GetTuple | src/agents/modules/redis_checkpointer.py:147-197 | `get_tuple` on the current store; it has no contract of its own, and GetTupleIn, PutThenGet, PutThenExpire and the Corrupt lemmas state what it returns |
| CheckpointStore.GetTupleIn | src/agents/modules/redis_checkpointer.py:147-197 | a tuple is returned only while the checkpoint key is live; it carries the asked thread and namespace, and a dict checkpoint whose `channel_values` is a dict |
| CheckpointStore.SetField | src/agents/modules/redis_checkpointer.py:351 | after `d[key] = v` the key reads `v` and every other key reads as before |
| CheckpointStore.SessionOf | src/agents/modules/redis_checkpointer.py:344-352 | a scanned key gives at most one session, a dict whose "thread_id" is the key's third `:`-field, and only when the key has at least three fields |
| CheckpointStore.Collected | src/agents/modules/redis_checkpointer.py:341-356 | the loop collects at most one session per scanned key |
| CheckpointStore.CollectedNameThreads | src/agents/modules/redis_checkpointer.py:341-356 | every collected session is a dict naming the thread of one of the scanned keys |
| CheckpointStore.SortDescSorted | src/agents/modules/redis_checkpointer.py:359 | sorting by `saved_at` in reverse puts no session before a newer one, and loses or adds none |
| CheckpointStore.Ranked | src/agents/modules/redis_checkpointer.py:359 | the reverse sort by `saved_at`, or its raise; it has no contract of its own, and RankedOrder states that a sort that does not raise is newest first and a permutation |
| CheckpointStore.RankedOrder | src/agents/modules/redis_checkpointer.py:359 | when the sort does not raise, its result is newest first and a permutation of its input |
| CheckpointStore.PrefixTo | src/agents/modules/redis_checkpointer.py:360 | `s[:n]` is the first `n` items, or all but the last `-n` when `n` is negative |
| CheckpointStore.LiveCheckpoint.WriteMessages | src/agents/modules/redis_checkpointer.py:52-82 | serialising overwrites the caller's message list with its written form and leaves the other keys alone |
| CheckpointStore.RedisCheckpointer.constructor | src/agents/modules/redis_checkpointer.py:20-34 | the checkpointer uses the configured prefix and a lifetime of hours × 3600 seconds |
| CheckpointStore.RedisCheckpointer.Put | src/agents/modules/redis_checkpointer.py:213-284 | both keys are written with the same lifetime and replace what they held; the checkpoint text comes from the channels before writing and the metadata from after; the caller's message list is overwritten; nothing is written when the lifetime is not positive |
| CheckpointStore.RedisCheckpointer.ListTuples | src/agents/modules/redis_checkpointer.py:199-211 | at most one tuple, empty exactly when `get_tuple` gives `None`, and otherwise that tuple |
| CheckpointStore.RedisCheckpointer.ClearSession | src/agents/modules/redis_checkpointer.py:298-313 | both keys of the session are removed and nothing else; the answer is true iff either key was still live |
| CheckpointStore.RedisCheckpointer.ListActiveSessions | src/agents/modules/redis_checkpointer.py:332-364 | the scan loop's result equals `Listed`: the sessions of the scanned keys, sorted newest first and cut to `limit`, or empty when the sort raises or when a `limit` below 1 makes Redis refuse the scan's COUNT |
| CheckpointStore.PutThenGet | src/agents/modules/redis_checkpointer.py:213-284 | within the lifetime, `get_tuple` (lines 147-197) loading a saved session gives its checkpoint with the messages rebuilt and the four metadata fields it was saved with |
| CheckpointStore.AfterPutReads | src/agents/modules/redis_checkpointer.py:273-276 | within the lifetime, both written texts are read back |
| CheckpointStore.PutThenExpire | src/agents/modules/redis_checkpointer.py:163-165 | once the lifetime that `put` sets (lines 274-275) has run out, `get_tuple` gives `None` |
| CheckpointStore.CheckpointReadable | src/agents/modules/redis_checkpointer.py:48-56 | a written checkpoint loads with a dict `channel_values`, so the debug line of `get_tuple` (line 186) does not raise |
| CheckpointStore.ClearedSessionIsGone | src/agents/modules/redis_checkpointer.py:298-313 | after `clear_session`, `get_tuple` gives `None` for that session |
| CheckpointStore.CorruptCheckpointGivesNone | src/agents/modules/redis_checkpointer.py:168-197 | a checkpoint text that is not JSON, or not a dict, gives `None` rather than an error |
| CheckpointStore.CorruptMetadataGivesDefaults | src/agents/modules/redis_checkpointer.py:171-184 | metadata that is not JSON reads as `{}`, so the tuple carries source "update", step -1 and empty writes and parents |
| CheckpointStore.Listed | src/agents/modules/redis_checkpointer.py:332-364 | the sessions listed for the scanned keys, and none when the scan is refused; it has no contract of its own, and the Listed lemmas state its bound, order and origin |
| CheckpointStore.ListedLimit | src/agents/modules/redis_checkpointer.py:341-364 | a `limit` below 1, sent as the scan's COUNT, is refused by Redis and the `except` lists nothing; from 1 on, the first `limit` of the sorted sessions are listed |
| CheckpointStore.ListedBound | src/agents/modules/redis_checkpointer.py:360 | with a non-negative limit, at most `limit` sessions are listed |
| CheckpointStore.ListedNewestFirst | src/agents/modules/redis_checkpointer.py:359-360 | the listed sessions are newest first |
| CheckpointStore.ListedFromCollected | src/agents/modules/redis_checkpointer.py:341-360 | every listed session was collected, and none is listed more often than collected |
| CheckpointStore.ListedNameThreads | src/agents/modules/redis_checkpointer.py:344-351 | every listed session is a dict naming the thread of a scanned key |
| CheckpointStore.ListedThreadOfMetadataKey | src/agents/modules/redis_checkpointer.py:344-346 | for a metadata key that `put` wrote (built at line 42), the third `:`-field is the session's thread |
| CheckpointStore.DefaultPrefixStartsKeys | src/agents/modules/config.py:14 | with the default prefix, the first `:`-field of both keys of a session is "agent_session" |
| Config.TtlSeconds | src/agents/modules/config.py:17-18 | the session lifetime is a whole number of hours in seconds, and 86400 for the default 24 hours |
| Config.RedisUrl | src/agents/modules/config.py:21-24 | with a password the URL starts `redis://:<password>@`, without one it starts `redis://<host>:`; it always ends `<host>:<port>/<db>`, and (for a host without `@`) holds an `@` iff there is a password |
| Config.AddressHasNoAt | src/agents/modules/config.py:24 | the `host:port/db` part has no `@` when the host has none |
| Config.UrlSplitsAtCredentials | src/agents/modules/config.py:21-24 | splitting the URL at `@` gives the credentials part and the address when there is a password, and the whole URL when there is none |
| Chunker.LastCut | src/rag_loader/main.py:119-122 | the index found lies in the searched range and holds a space, `.`, newline, `!` or `?` |
| Chunker.LastCutIsLast | src/rag_loader/main.py:119-122 | the search looks downwards: no cut character lies above the index found, and none in the range when nothing is found |
| Chunker.WindowEnd | src/rag_loader/main.py:114-122 | a window never ends more than 98 characters short of `start + chunk_size` |
| Chunker.WindowEndRange | src/rag_loader/main.py:114-122 | a window spans at most `chunk_size + 1` characters, and the last one ends exactly `chunk_size` after its start |
| Chunker.WindowEndCuts | src/rag_loader/main.py:117-122 | a window other than the last ends just after the last cut character among the 100 indices up to `start + chunk_size`, or at `start + chunk_size` when there is none |
| Chunker.Windows | src/rag_loader/main.py:113-131 | there are windows iff the start lies inside the text, and the first starts there |
| Chunker.WindowsAt | src/rag_loader/main.py:113-131 | every window starts inside the text; each next window starts `overlap` before the previous end, and the loop stops at the first next start at or past the end |
| Chunker.WindowsBounds | src/rag_loader/main.py:113-131 | every window starts inside the text, is not empty and spans at most `chunk_size + 1` characters |
| Chunker.WindowsCover | src/rag_loader/main.py:113-131 | with a non-negative overlap, every character of the text lies in some window |
| Chunker.DefaultsAdvance | src/rag_loader/main.py:105-128 | with the defaults 1000 and 200 each window starts at least 702 characters after the one before |
| Chunker.SliceLength | src/rag_loader/main.py:124 | `text[lo:hi]` is no longer than its window |
| Chunker.ChunksOf | src/rag_loader/main.py:124-126 | there are no more chunks than windows |
| Chunker.ChunksAreStrippedWindows | src/rag_loader/main.py:124-126 | every chunk is the stripped text of one of the windows |
| Chunker.ChunksOfShaped | src/rag_loader/main.py:124-126 | windows no wider than `chunk_size + 1` give non-empty chunks of at most that length with no white space at either end |
| Chunker.ChunkText | src/rag_loader/main.py:105-133 | what `_chunk_text` returns; it has no contract of its own, and ChunkTextShape and the window lemmas state its chunks' shape, and ChunkTextLoop is proved equal to it |
| Chunker.ChunkTextShape | src/rag_loader/main.py:105-133 | a text no longer than a chunk is returned as its one chunk, even when empty; otherwise every chunk is non-empty, at most `chunk_size + 1` long and stripped |
| Chunker.ChunkTextLoop | src/rag_loader/main.py:105-133 | the loop with its backwards search returns exactly the chunks `ChunkText` describes |
| Chunker.FindEnd | src/rag_loader/main.py:114-122 | the backwards search ends the window where `WindowEnd` says |
| GraphNodes.CallLlm | src/agents/agent/graph_nodes.py:10-28 | the old messages are kept and one model message is appended; its calls become the state's calls and the outputs are cleared; a failure appends the fixed apology with no calls |
| GraphNodes.Outputs | src/agents/agent/graph_nodes.py:38-53 | one output per call, in order, each the output for that call |
| GraphNodes.CallToolsShape | src/agents/agent/graph_nodes.py:30-58 | the node keeps the messages, always clears the calls, and gives one output per call in order; with no calls there are no outputs |
| GraphNodes.UnknownToolOutput | src/agents/agent/graph_nodes.py:41-47 | a call naming no registered tool gets a `ToolException` reading "Error: Tool '<name>' not found." |
| GraphNodes.Paired | src/agents/agent/graph_nodes.py:66-67 | as many tool messages as the shorter list, each the output's text under its call's id, by position |
| GraphNodes.AddToolOutputsShape | src/agents/agent/graph_nodes.py:60-72 | the state is unchanged when either list is empty; otherwise one tool message per pair is appended after the old messages and both lists are cleared |
| GraphNodes.OutputsNeverReachMessages | src/agents/agent/graph_nodes.py:54-64 | as written, running `add_tool_outputs_to_messages` after `call_tools` leaves the messages as they were: the tool outputs never reach the conversation |
| GraphNodes.KeptCallsReachMessages | src/agents/agent/graph_nodes.py:38-72 | with `call_tools` keeping its calls, every call gets its tool message, in order, after the earlier messages |
| GymHf.FormatMessages | src/agents/gym/app_hf.py:41-51 | one chat entry per message, in order: system to "system", human to "user", model to "assistant", tool to "function", with the message's text |
| GymHf.Formatted | src/agents/gym/app_hf.py:41-51 | the same mapping, as a function of the message list |
| GymHf.HfState.CallLlm | src/agents/gym/app_hf.py:38-73 | one model message is appended holding the reply text, or the apology when the call raises; it has no calls, and calls and outputs are reset |
| GymHf.HfState.ShouldCallTools | src/agents/gym/app_hf.py:131-136 | routes to the tools iff the last message is a model message with calls, and then writes those calls into the state; nothing else changes |
| GymHf.LlmThenRoute | src/agents/gym/app_hf.py:58-138 | after every model call the router ends the run and the state holds no calls |
| GymHf.HfOutputs | src/agents/gym/app_hf.py:84-97 | one output text per call, in order |
| GymHf.CallTools | src/agents/gym/app_hf.py:75-103 | the messages are kept, the calls cleared, and each call gets its output text, an error text for an unknown or raising tool |
| GymHf.HfPaired | src/agents/gym/app_hf.py:113-114 | one tool message per pair, by position; a call without an id is answered under "unknown" |
| GymHf.AddToolOutputs | src/agents/gym/app_hf.py:105-120 | unchanged when either list is empty; otherwise one tool message per pair is appended and both lists are cleared |
| GymHf.HfOutputsNeverReachMessages | src/agents/gym/app_hf.py:99-139 | as wired, the node after `call_tools` sees no calls, so the messages stay as they were |
| GymTools.FirstNonDict | src/agents/modules/tools.py:78-140 | `None` iff every item is a dict; otherwise a non-dict item of the list, on which `.get` raises |
| GymTools.StartTimes | src/agents/modules/tools.py:78-140 | every start time kept is truthy and comes from an item; every item with a truthy start time contributes it |
| GymTools.FirstStartTimes | src/agents/modules/tools.py:78-140 | `[:n]` keeps a prefix of the start times, at most `n` of them, and all of them when there are fewer |
| GymTools.CheckAvailability | src/agents/modules/tools.py:59-105 | the availability tool's text for each answer of the service; it has no contract of its own, and the Check lemmas state each branch |
| GymTools.CheckAvailableIff | src/agents/modules/tools.py:77-84 | on a list with start times at most five are reported; the reply says the requested time is free iff it is among those five, and ends with their JSON text |
| GymTools.ListedText | src/agents/agent/tool_agent.py:95-101 | on such a list the reply is the "está disponible" text when the target is listed and the "Horarios disponibles encontrados" text otherwise |
| GymTools.AvailableTextShape | src/agents/modules/tools.py:82 | the free-time text starts "El horario <target> está disponible", contains that phrase and ends with the listed times |
| GymTools.FoundTextShape | src/agents/modules/tools.py:84 | the found text does not start like the free-time text, contains "Horarios disponibles encontrados" and ends with the listed times |
| GymTools.CheckNoStartTimes | src/agents/modules/tools.py:85-87 | a non-empty list of dicts without start times is reported as such with at most 200 characters of the body |
| GymTools.CheckNonDictSlot | src/agents/modules/tools.py:78-105 | a slot that is not a dict anywhere in the list gives the unexpected-error text naming a non-dict item |
| GymTools.CheckReportsStatus | src/agents/modules/tools.py:94-97 | any status other than 200 gives a text holding "(código: <status>)" and ending with the first 200 characters of the body |
| GymTools.FirstNonStr | src/agents/modules/tools.py:141 | `None` iff every suggestion is a string; otherwise the first non-string, where `join` raises |
| GymTools.Texts | src/agents/modules/tools.py:141 | the joined texts are those of the suggestions, one each, in order |
| GymTools.FindSlot | src/agents/modules/tools.py:132-136 | the search loop with its `break` gives exactly what `SlotSearch` describes |
| GymTools.SlotSearchMatch | src/agents/modules/tools.py:132-136 | the search finds a slot iff there is a first dict whose start time equals the requested one, and it takes that dict's `slot_id` |
| GymTools.SlotSearchNoMatch | src/agents/modules/tools.py:132-137 | no match means every item is a dict with another start time |
| GymTools.BookGymSlot | src/agents/modules/tools.py:108-175 | the booking tool's text and the booking it posts; it has no contract of its own, and the Book lemmas state when it posts and what it suggests |
| GymTools.BookPostsOnlyExactMatch | src/agents/modules/tools.py:125-152 | a booking is posted only after a 200 list whose first exact match has a truthy id; that id and the user's name are posted |
| GymTools.BookPostsOnExactMatch | src/agents/modules/tools.py:132-152 | conversely, a first exact match with a truthy id is always booked |
| GymTools.BookNoMatchSuggests | src/agents/modules/tools.py:137-144 | without a match nothing is posted and the reply is the not-available text with at most the first three start times, in order |
| GymTools.SuggestionsAreStrings | src/agents/modules/tools.py:140-141 | when every start time is a string, so is every suggestion |
| GymTools.BookingIdShowsDefault | src/agents/modules/tools.py:153-158 | a 201 answer without "booking_id" shows "ID de la reserva: No proporcionado" |
| GymTools.CheckEmptyClearsSlot | src/agents/agent/tool_agent.py:391-394 | an empty availability list gives a text (lines 104-105) that makes the after-tool update clear the slot and pending flag and keep the name |
| GymTools.EmptyListTextReportsNoSlots | src/agents/agent/tool_agent.py:104-105 | the empty-list text contains "No hay horarios disponibles" and neither success phrase |
| GymTools.CheckFoundOffersDate | src/agents/agent/tool_agent.py:95-101 | a list with start times, answering a call for `target`, makes the update (lines 370-390) offer `target` and await confirmation, whether or not `target` was listed |
| GymTools.ListedReportsSlots | src/agents/agent/tool_agent.py:95-101 | both texts naming start times are recognised by the update (lines 370-390) as a success |
| SimpleTools.FirstSubscriptError | src/agents/agent/tools.py:38 | `None` iff `slot["start_time"]` raises on no item; otherwise an item on which it raises |
| SimpleTools.AllStartTimes | src/agents/agent/tools.py:38 | when no item raises, one start time per slot, in order, each read from that slot |
| SimpleTools.SimpleCheck | src/agents/agent/tools.py:10-41 | the simple availability tool; it has no contract of its own, and the SimpleCheck lemmas state each branch |
| SimpleTools.SimpleCheckListsAll | src/agents/agent/tools.py:37-39 | on a 200 list of dicts with start times, the reply is the printed list of every start time, in order, none left out |
| SimpleTools.SimpleCheckMissingKey | src/agents/agent/tools.py:38 | a dict slot without "start_time" makes the tool raise |
| SimpleTools.SimpleCheckStatus | src/agents/agent/tools.py:40-41 | any other status returns "Slot not available (<status>)" followed by the whole body |
| SimpleTools.StartsOf | src/agents/agent/tools.py:85 | one `.get("start_time")` per slot, in order |
| SimpleTools.IterateNonListGivesStrings | src/agents/agent/tools.py:76-78 | iterating an answer that is a dict or a string yields strings, never slot dicts |
| SimpleTools.SimpleBook | src/agents/agent/tools.py:48-104 | the simple booking tool; it has no contract of its own, and the SimpleBook lemmas state when it posts and what it suggests |
| SimpleTools.SimpleBookPostsOnlyExactMatch | src/agents/agent/tools.py:72-95 | a booking is posted only after a 200 list whose first exact match has a truthy id; that id and the user's name are posted |
| SimpleTools.SimpleBookNeedsAvailability | src/agents/agent/tools.py:72-74 | a failed availability request returns "Unable to check availability" and posts nothing |
| SimpleTools.SimpleBookNoMatchSuggests | src/agents/agent/tools.py:83-87 | without an exact match nothing is posted and the reply offers the first three start times, whether or not those slots are free |
| GymServices.Count | src/api/api-services/app.py:149-151 | a slot never counts more bookings than the table holds, here and in the availability join (lines 49-51) |
| GymServices.CountAppend | src/api/api-services/app.py:149-164 | one more booking counts for its own slot only |
| GymServices.Infos | src/api/api-services/app.py:105-115 | one entry per row, in order, each with the slot's capacity, its booking count and capacity minus count |
| GymServices.Between | src/api/api-services/app.py:92-99 | exactly the slots of the named service starting in `[08:00, 21:00)` of the day, each from the table |
| GymServices.SlotAt | src/api/api-services/app.py:48-56 | the slot found belongs to the service and starts at the asked time; none is found iff no slot does |
| GymServices.SortByStart | src/api/api-services/app.py:100 | ordering by start loses and adds no slot |
| GymServices.SortByStartAscending | src/api/api-services/app.py:100 | ordering by start gives an earliest-first list |
| GymServices.TakeAtMost | src/api/api-services/app.py:101 | `.limit(n)` keeps at most the first `n` rows, in order |
| GymServices.FindSlot | src/api/api-services/app.py:139-147 | the slot found has the asked id and is in the table; none is found iff no slot has that id |
| GymServices.GymDb.Collect | src/api/api-servicies/app.py:60-71 | the loop over the rows builds exactly one entry per row, in order |
| GymServices.GymDb.PostServiceAvailability | src/api/api-services/app.py:18-119 | the endpoint answers what `PostAvailability` describes: 404 for an unknown service first, 400 without a start, the exact-time or the per-day lookup, 500 for a body or start of the wrong type |
| GymServices.GymDb.ServiceAvailability | src/api/api-servicies/app.py:18-76 | the endpoint answers what `GetAvailability` describes: 404 for an unknown service, 400 without a day or with one that does not parse, otherwise every slot of the day |
| GymServices.GymDb.constructor | src/api/api-services/app.py:122-180 | the database starts with the given services and slots, no bookings, and valid tables |
| GymServices.GymDb.CreateBooking | src/api/api-services/app.py:122-180 | the answer is `CreateBookingReply`; a 201 appends exactly the new booking and advances the id, any other answer changes nothing; valid tables stay valid |
| GymServices.CreateBookingReply | src/api/api-services/app.py:122-180 | the answer of `POST /booking`; it has no contract of its own, and BookingErrors, BookingRefusedIffFull and BookingKeepsTablesValid state every outcome |
| GymServices.BookingKeepsTablesValid | src/api/api-services/app.py:149-164 | a booking is only made for an existing slot that was not full, so no slot ever holds more bookings than its capacity |
| GymServices.BookingRefusedIffFull | src/api/api-servicies/app.py:106-128 | for a valid request naming an existing slot, 409 iff the slot is full, and the booking is made iff it is not |
| GymServices.BookingErrors | src/api/api-servicies/app.py:82-104 | 400 iff the body is falsy, 422 iff a truthy body does not validate, 404 iff a valid body names no slot |
| GymServices.InvalidBookingBodies | src/api/api-services/app.py:129-135 | a body that is not a dict, lacks a usable `slot_id`, or has a `guest_name` that is not a string does not validate |
| GymServices.InfoCounts | src/api/api-servicies/app.py:60-71 | in valid tables a listed slot shows its booking count and a free count that is never negative |
| GymServices.PostAvailability | src/api/api-services/app.py:18-119 | the answer of `POST /availability`; it has no contract of its own, and the Post lemmas state its order of checks and both lookups |
| GymServices.PostChecksServiceFirst | src/api/api-services/app.py:21-29 | an unknown or missing service name gives 404 whatever else the body holds |
| GymServices.PostNonDictCrashes | src/api/api-services/app.py:21-22 | a truthy body that is not a dict makes the endpoint raise |
| GymServices.PostNeedsStart | src/api/api-services/app.py:30-31 | with a known service, a missing or empty `start_time` gives 400 |
| GymServices.PostExactTime | src/api/api-services/app.py:35-75 | a start with a `T` lists at most one slot, of that service and at that time, and lists none only when there is no such slot |
| GymServices.GetAvailability | src/api/api-servicies/app.py:18-76 | the answer of `GET /<service>/availability`; it has no contract of its own, and GetListsWholeDay and DaySlotsShape state what it lists |
| GymServices.GetListsWholeDay | src/api/api-servicies/app.py:34-73 | GET lists every slot of the service between 08:00 and 21:00 of the day, earliest first, each once |
| GymServices.DaySlotsShape | src/api/api-servicies/app.py:39-58 | the day's rows are earliest first and are exactly the service's slots in the window |
| GymServices.PostDayIsFirstThreeOfGet | src/api/api-services/app.py:77-116 | the POST per-day lookup answers the first three entries of what GET answers for the same day, none later than the rest |
| Rooms.ParseQuery | src/api/api-booking/app.py:12-21 | an accepted availability query always has checkout after checkin |
| Rooms.QueryRejections | src/api/api-booking/app.py:12-21 | a query is refused when checkout is not after checkin, or when a room type is given that is not a string |
| Rooms.QueryAccepted | src/api/api-booking/app.py:12-21 | a query with readable dates in order and a missing, null or string room type is accepted with exactly those values |
| Rooms.ParseRequest | src/api/api-booking/app.py:24-44 | an accepted reservation request has checkout after checkin, and a room type whenever its room id is missing or 0 |
| Rooms.RequestRejections | src/api/api-booking/app.py:34-44 | a request is rejected when checkout is not after checkin, when it has neither a truthy room id nor a room type, or when the guest name is not a string |
| Rooms.RequestAccepted | src/api/api-booking/app.py:24-44 | a request with a guest name, dates in order, no room id and a room type is accepted with exactly those values |
| Rooms.Available | src/api/api-booking/app.py:51-64 | the query never lists more rooms than the table holds |
| Rooms.AvailableIff | src/api/api-booking/app.py:51-64 | a room is listed iff it is in the table, of the type when one is given, and no reservation of it has checkin before the stay's checkout and checkout after its checkin, so back-to-back stays are allowed |
| Rooms.EmptyTypeSame | src/api/api-booking/app.py:55-56 | an empty room type filters nothing, exactly like a missing one |
| Rooms.AvailabilityReply | src/api/api-booking/app.py:96-116 | the answer of `POST /availability`; it has no contract of its own, and AvailabilityLists with AvailableIff states what it lists |
| Rooms.AvailabilityLists | src/api/api-booking/app.py:96-116 | an accepted query is answered with exactly the free rooms of the type for the stay |
| Rooms.FindRoom | src/api/api-booking/app.py:129-131 | the room found has the asked id and is in the table; none is found iff no room has that id |
| Rooms.ReserveReply | src/api/api-booking/app.py:119-168 | the answer of `POST /reserve`; it has no contract of its own, and the Reserve lemmas state each outcome and ReserveKeepsNoOverlap the invariant |
| Rooms.ReserveNamedRoom | src/api/api-booking/app.py:128-162 | with a room id, the named room is reserved iff no reservation of it overlaps the stay, with the request's guest and dates, whatever room type was given |
| Rooms.ReserveUnknownRoom | src/api/api-booking/app.py:128-131 | a room id naming no room gives 404 |
| Rooms.ReserveFirstFree | src/api/api-booking/app.py:136-162 | without a room id, 409 iff no room of the type is free; otherwise the first free room, which is in the table, of the type and not occupied, is reserved |
| Rooms.ReserveKeepsNoOverlap | src/api/api-booking/app.py:119-162 | a reservation is only made for a free room, so no two stays of a room ever overlap, and ids stay below the next one |
| Rooms.HotelDb.constructor | src/api/api-booking/app.py:47-48 | the session opens on the given room table with no reservations yet, and the no-overlap invariant holds |
| Rooms.HotelDb.Reserve | src/api/api-booking/app.py:119-168 | the answer is `ReserveReply`: 500 for a body that is not a dict, 400 for an invalid one, then the outcomes above; a 201 appends exactly the new reservation and advances the id, any other answer changes nothing; the no-overlap invariant is kept |

## Left out

- The language model, the HTTP transport, Redis itself and the JSON text encoding are inputs of the model (oracle parameters), not implementations.
- JSON numbers are integers (`JNum(n: int)`). Floats are not modelled, including a float id such as `3.0` that pydantic reads as an int, a `3.5` it refuses, and a `0.0` that is falsy in `if not json_data` or `if payload.room_id`.
- The LangGraph runtime (state reducers, the compiled graph, streaming) is not modelled. A session is the node sequence the graph wires, run by `AgentSession.Session.RunTurn`.
- AgentSession.Session.RunTurn: the graph has no bound on the number of model/tool rounds. A `fuel` parameter bounds them here, and a run that uses it up stops without an answer.
- ToolNode.InvokeToolsB, ToolNode.MessageForB: require every structured call of the last message to carry an id. The missing-id case is not modelled.
- GraphNodes.Paired, GraphNodes.AddToolOutputs, GraphNodes.AddToolOutputsShape, GraphNodes.KeptCallsReachMessages: require every paired call to carry an id. Where one has none, `call['id']` raises `KeyError` (or `ToolMessage` refuses a `None` id); that error path is not modelled.
- Router.RouteA, AgentSession.Session.RouteA: the model's message content is a string, so an "answer" that is not a JSON string (a number, null, a list or an object) is stored as its printed JSON text. The source stores the raw value, and the chat endpoint then fails with 500 when it puts that value in its `reply: str` response; that outcome is not modelled.
- CheckpointStore.Ranked: the sort by `saved_at` is taken to raise whenever two or more sessions are listed and some `saved_at` is not a string. Python raises only when two keys cannot be compared (a string against a number, or None against anything); metadata written by `put` always holds a string, so the difference only concerns metadata written by other code.
- CheckpointCodec.ContentOf, CheckpointCodec.RebuildAI, CheckpointCodec.RebuildTool: on stored data that `put` never writes, the model raises where the source does not: a truthy `tool_calls` that is not a list, a truthy `name` that is not a string, an integer `tool_call_id` (which `ToolMessage` turns into a string) and list content (which messages accept).
- JsonValue.Lookup: a JSON object with a repeated key is read by its first binding, while `json.loads` keeps the last one. The texts read back are the ones `json.dumps` wrote, which never repeat a key.
- The metrics logger, logging and the printed traces are left out: they do not affect any returned value.
- Vector search, embeddings and the retrieval API are outside the core. That includes the score formatting of the external retrieval tool, which works on floats.
- The data generator's tables are plain sequences of rows. Its CLI and seeding are not part of this model, and neither are the other command-line entry points.
- Request parsing by pydantic and Flask is modelled only as far as the services branch on it. That covers which fields are required, their types and the date order. Error texts of validation errors and the content-type errors of `request.get_json()` are left out.
- A database error during a booking or a reservation rolls back and returns 500. That exception path is not modelled (no database failure is modelled), except for a body that is not a JSON object.
- SQL result order is taken to be table order, and `.first()` the first matching row in it.
- Row locking (`with_for_update`) and concurrent requests are not modelled: every request runs alone.
- Dates and date-times are parsed by a parameter to integers (days or seconds). Calendar arithmetic is not modelled.
- Prices and similarity scores are floats in the source. Room prices are carried as `real` values, and similarity scores are left out.
- Fresh `uuid` values and the current time are parameters.
- Python exception messages (`str(e)`) are spelled out where a tool turns them into text the model reads: the `.get` error on a non-dict slot, the join error on non-string suggestions, the `KeyError` text `'start_time'` and the not-iterable error. Elsewhere (the 500 replies of the services, the graph's error in the chat endpoint) the message is an opaque string.
- `get_session_info` of the checkpointer is a read-only diagnostic helper that no operation uses. It is not modelled.
- `put_writes` of the checkpointer does nothing in the source, and it is not modelled.
- Chunker.ChunkTextLoop: requires `99 <= chunk_size` and `overlap <= chunk_size - 99`. The only caller uses the defaults 1000 and 200. Other settings can make the source loop forever, and they are not modelled.
- CheckpointStore.PutThenGet: assumes that the JSON decoder inverts the encoder on the two dicts that are written.
- The rendering of rooms and reservations as JSON (`room_to_dict`, `reservation_to_dict`) is not modelled. Replies carry the records themselves.

## Findings

| source | as written | input that shows it | evidently intended | confidence | as-written member | corrected member |
|---|---|---|---|---|---|---|
| src/agents/agent/graph_nodes.py:54-64 | `call_tools` clears `tool_calls` in the state it returns, so `add_tool_outputs_to_messages`, which returns the state unchanged when there are no calls, never adds the tool outputs to the messages | a model reply with one tool call: after `call_tools` the state has the output but no calls, and the message list is unchanged | keep the calls until their outputs are formatted, so that every output becomes a message | not executed | GraphNodes.OutputsNeverReachMessages | GraphNodes.CallToolsKeepingCalls, GraphNodes.KeptCallsReachMessages |
| src/agents/modules/redis_checkpointer.py:232-268 | `put` reads the type name of the last message after `_serialize_checkpoint` has replaced the messages with dicts, so `last_message_type` is `dict` (or `str`), never a message class | a checkpoint whose last message is an `AIMessage`: the stored metadata says `dict` | the class name of the last message as it was before serialization (`AIMessage`) | not executed | CheckpointStore.LastMessageTypeIsNeverAClass | CheckpointStore.IntendedMetadata, CheckpointStore.IntendedLastTypeNamesClass |
