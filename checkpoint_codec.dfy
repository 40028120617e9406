// How the Redis checkpointer of src/agents/modules/redis_checkpointer.py
// writes a graph checkpoint as JSON and reads it back. The message list is
// written as one dict per message and rebuilt from those dicts; any other
// value in it is written as its text and comes back as a human message.
module CheckpointCodec {
  import opened Wrappers
  import opened Strings
  import opened JsonValue
  import opened Messages

  /** An entry of `channel_values["messages"]`: a message object, or any
      other value (a dict left there by an earlier save, a string, ...). */
  datatype Entry = MsgEntry(m: Message) | ValueEntry(j: Json)

  /** The value of one channel: the message list, or a JSON value. */
  datatype ChannelValue = Entries(entries: seq<Entry>) | Plain(j: Json)

  /** One key of `channel_values`, in insertion order. */
  datatype Channel = Channel(name: string, value: ChannelValue)

  /** Only the "messages" channel holds the message list, and channel names
      are distinct, as dict keys are. */
  predicate ChannelsValid(cs: seq<Channel>) {
    (forall i | 0 <= i < |cs| :: cs[i].value.Entries? <==> cs[i].name == "messages")
    && (forall i, j | 0 <= i < j < |cs| :: cs[i].name != cs[j].name)
  }

  /** The entries of the first channel named "messages", if there is one. */
  function MessagesOf(cs: seq<Channel>): (r: Option<seq<Entry>>)
    requires ChannelsValid(cs)
    ensures r.None? <==> forall i | 0 <= i < |cs| :: cs[i].name != "messages"
    ensures r.Some? ==> exists i | 0 <= i < |cs| :: cs[i] == Channel("messages", Entries(r.value))
  {
    if |cs| == 0 then None
    else if cs[0].name == "messages" then Some(cs[0].value.entries)
    else
      assert ChannelsValid(cs[1..]) by {
        assert forall i | 0 <= i < |cs[1..]| :: cs[1..][i] == cs[i + 1];
      }
      var r := MessagesOf(cs[1..]);
      assert forall i | 1 <= i < |cs| :: cs[i] == cs[1..][i - 1];
      r
  }

  // ---- writing ----

  /** A tool call as LangChain stores it: name, args, id and type. */
  function CallJson(c: ToolCall): Json {
    JObj([Field("name", JStr(c.name)), Field("args", c.args),
          Field("id", if c.id.Some? then JStr(c.id.value) else JNull),
          Field("type", JStr("tool_call"))])
  }

  function CallsJson(cs: seq<ToolCall>): (r: seq<Json>)
    ensures |r| == |cs| && forall i | 0 <= i < |cs| :: r[i] == CallJson(cs[i])
  {
    if |cs| == 0 then [] else [CallJson(cs[0])] + CallsJson(cs[1..])
  }

  /** The dict written for a message object: its class name, its content and
      the attributes the class has (`{}`, `[]` or `None` for those it lacks). */
  function MessageJson(m: Message): Json {
    JObj([
      Field("type", JStr(ClassName(m))),
      Field("content", JStr(m.content)),
      Field("additional_kwargs", JObj(if m.AI? then m.kwargs else [])),
      Field("tool_calls", JArr(if m.AI? then CallsJson(m.toolCalls) else [])),
      Field("tool_call_id", if m.Tool? then JStr(m.toolCallId) else JNull),
      Field("name", if m.Tool? && m.name.Some? then JStr(m.name.value) else JNull)])
  }

  /** A message object becomes its dict; any other value becomes `str(value)`. */
  function EntryJson(e: Entry): Json {
    match e
    case MsgEntry(m) => MessageJson(m)
    case ValueEntry(j) => JStr(Str(j))
  }

  function EntriesJson(es: seq<Entry>): (r: seq<Json>)
    ensures |r| == |es| && forall i | 0 <= i < |es| :: r[i] == EntryJson(es[i])
  {
    if |es| == 0 then [] else [EntryJson(es[0])] + EntriesJson(es[1..])
  }

  /** `channel_values` as written: the message list replaced by its dicts. */
  function ChannelsJson(cs: seq<Channel>): (r: seq<Field>)
    ensures |r| == |cs|
    ensures forall i | 0 <= i < |cs| :: r[i].key == cs[i].name
    ensures forall i | 0 <= i < |cs| :: r[i].value == match cs[i].value
      case Entries(es) => JArr(EntriesJson(es))
      case Plain(j) => j
  {
    if |cs| == 0 then []
    else
      var v := match cs[0].value
        case Entries(es) => JArr(EntriesJson(es))
        case Plain(j) => j;
      [Field(cs[0].name, v)] + ChannelsJson(cs[1..])
  }

  /** The caller's channels after `_serialize_checkpoint`: the dict it reads
      `channel_values` from is the caller's own, so its message list now holds
      the written dicts and strings instead of the message objects. */
  function ChannelsAfterWrite(cs: seq<Channel>): (r: seq<Channel>)
    ensures |r| == |cs|
    ensures forall i | 0 <= i < |cs| :: r[i].name == cs[i].name && (cs[i].value.Plain? ==> r[i] == cs[i])
    ensures forall i | 0 <= i < |cs| :: cs[i].value.Entries? ==>
      r[i].value.Entries? && |r[i].value.entries| == |cs[i].value.entries|
      && forall k | 0 <= k < |cs[i].value.entries| ::
           r[i].value.entries[k] == ValueEntry(EntryJson(cs[i].value.entries[k]))
  {
    if |cs| == 0 then []
    else
      var v := match cs[0].value
        case Entries(es) => Entries(seq(|es|, (k: int) requires 0 <= k < |es| => ValueEntry(EntryJson(es[k]))))
        case Plain(j) => Plain(j);
      [Channel(cs[0].name, v)] + ChannelsAfterWrite(cs[1..])
  }

  /** The dict `_serialize_checkpoint` hands to `json.dumps`: seven keys, each
      with its default when the checkpoint lacks it; `top` holds the
      checkpoint's keys other than `channel_values`. */
  function CheckpointJson(top: seq<Field>, channels: Option<seq<Channel>>): Json {
    var t := JObj(top);
    JObj([
      Field("v", GetOr(t, "v", JNum(1))),
      Field("id", GetOr(t, "id", JNull)),
      Field("ts", GetOr(t, "ts", JNull)),
      Field("channel_values", JObj(ChannelsJson(channels.GetOr([])))),
      Field("channel_versions", GetOr(t, "channel_versions", JObj([]))),
      Field("versions_seen", GetOr(t, "versions_seen", JObj([]))),
      Field("pending_sends", GetOr(t, "pending_sends", JArr([])))])
  }

  // ---- reading ----

  /** `key in c`: `None` when `in` raises (`c` a number, a bool or `None`). */
  function PyIn(key: string, c: Json): (r: Option<bool>)
    ensures r.None? <==> !(c.JObj? || c.JArr? || c.JStr?)
    ensures c.JObj? ==> r == Some(HasKey(c, key))
  {
    match c
    case JObj(_) => Some(HasKey(c, key))
    case JArr(items) => Some(JStr(key) in items)
    case JStr(s) => Some(Contains(s, key))
    case _ => None
  }

  /** `msg_data.get("content", "")`, when it is a string a message accepts. */
  function ContentOf(d: Json): Option<string> {
    match GetOr(d, "content", JStr(""))
    case JStr(s) => Some(s)
    case _ => None
  }

  /** A stored tool call, when it has the shape the writer gives it. */
  function DecodeCall(j: Json): Option<ToolCall> {
    var name := GetOr(j, "name", JNull);
    var id := GetOr(j, "id", JNull);
    if j.JObj? && name.JStr? && HasKey(j, "args") && (id.JStr? || id.JNull?) then
      Some(ToolCall(name.s, GetOr(j, "args", JNull), if id.JStr? then Some(id.s) else None))
    else None
  }

  function DecodeCalls(items: seq<Json>): (r: Option<seq<ToolCall>>)
    ensures r.Some? ==> |r.value| == |items| && forall i | 0 <= i < |items| :: DecodeCall(items[i]) == Some(r.value[i])
  {
    if |items| == 0 then Some([])
    else match (DecodeCall(items[0]), DecodeCalls(items[1..]))
      case (Some(c), Some(rest)) => Some([c] + rest)
      case _ => None
  }

  /** The message rebuilt from one stored entry; `None` when building it
      raises (a content that is not a string, `additional_kwargs` that is not
      a dict). A dict without "type", or any other value, becomes a human
      message holding `str(entry)`; so does a dict of an unknown type. */
  function Rebuild(d: Json): Option<Message> {
    if !HasKey(d, "type") then Some(Human(Str(d)))
    else
      var t := GetOr(d, "type", JNull);
      if t == JStr("HumanMessage") then
        match ContentOf(d)
        case Some(c) => Some(Human(c))
        case None => None
      else if t == JStr("AIMessage") then RebuildAI(d)
      else if t == JStr("SystemMessage") then
        match ContentOf(d)
        case Some(c) => Some(System(c))
        case None => None
      else if t == JStr("ToolMessage") then RebuildTool(d)
      else Some(Human(Repr(d)))
  }

  /** An `AIMessage`: its tool calls are set only when the stored list is truthy. */
  function RebuildAI(d: Json): Option<Message> {
    var kwargs := GetOr(d, "additional_kwargs", JObj([]));
    var calls := GetOr(d, "tool_calls", JNull);
    match ContentOf(d)
    case None => None
    case Some(c) =>
      if !kwargs.JObj? then None
      else if !Truthy(calls) then Some(AI(c, [], kwargs.fields))
      else if !calls.JArr? then None
      else match DecodeCalls(calls.items)
        case Some(cs) => Some(AI(c, cs, kwargs.fields))
        case None => None
  }

  /** A `ToolMessage`: its name is set only when the stored name is truthy. */
  function RebuildTool(d: Json): Option<Message> {
    var id := GetOr(d, "tool_call_id", JStr(""));
    var name := GetOr(d, "name", JNull);
    match ContentOf(d)
    case None => None
    case Some(c) =>
      if !id.JStr? then None
      else if !Truthy(name) then Some(Tool(c, id.s, None))
      else if name.JStr? then Some(Tool(c, id.s, Some(name.s)))
      else None
  }

  function RebuildAll(items: seq<Json>): (r: Option<seq<Message>>)
    ensures r.Some? <==> forall i | 0 <= i < |items| :: Rebuild(items[i]).Some?
    ensures r.Some? ==> |r.value| == |items| && forall i | 0 <= i < |items| :: Rebuild(items[i]) == Some(r.value[i])
  {
    if |items| == 0 then Some([])
    else
      assert forall i | 1 <= i < |items| :: items[i] == items[1..][i - 1];
      match (Rebuild(items[0]), RebuildAll(items[1..]))
      case (Some(m), Some(rest)) => Some([m] + rest)
      case _ => None
  }

  /** A checkpoint as `_deserialize_checkpoint` returns it: the decoded dict,
      with `channel_values["messages"]` replaced by `messages` when present. */
  datatype Restored = Restored(dict: Json, messages: Option<seq<Message>>)

  /** `_deserialize_checkpoint` on a decoded value; `None` when it raises. */
  function DecodeCheckpoint(j: Json): Option<Restored> {
    match j
    case JObj(_) =>
      var cv := GetOr(j, "channel_values", JNull);
      if !HasKey(j, "channel_values") || !Truthy(cv) then Some(Restored(j, None))
      else DecodeChannels(j, cv)
    case JArr(items) => if JStr("channel_values") in items then None else Some(Restored(j, None))
    case JStr(s) => if Contains(s, "channel_values") then None else Some(Restored(j, None))
    case _ => None
  }

  /** The message list rebuilt from a truthy `channel_values` value `cv`. */
  function DecodeChannels(j: Json, cv: Json): Option<Restored> {
    match PyIn("messages", cv)
    case None => None
    case Some(false) => Some(Restored(j, None))
    case Some(true) =>
      if !cv.JObj? then None
      else
        match Iterate(GetOr(cv, "messages", JNull))
        case None => None
        case Some(items) =>
          match RebuildAll(items)
          case None => None
          case Some(ms) => Some(Restored(j, Some(ms)))
  }

  /** `_deserialize_checkpoint(data)`; `loads` is `json.loads` (`None` when
      it raises). */
  function Deserialize(data: string, loads: string -> Option<Json>): Option<Restored> {
    match loads(data)
    case None => None
    case Some(j) => DecodeCheckpoint(j)
  }

  // ---- the round trip ----

  /** What a stored entry comes back as: a message object as itself, any
      other value as a human message holding its text. */
  function Expected(e: Entry): Message {
    match e
    case MsgEntry(m) => m
    case ValueEntry(j) => Human(Str(j))
  }

  /** Every message except a tool message whose name is the empty string
      comes back unchanged (an empty name is falsy and is not restored). */
  predicate Restorable(e: Entry) {
    !(e.MsgEntry? && e.m.Tool? && e.m.name == Some(""))
  }

  lemma {:induction false} DecodeCallsJson(cs: seq<ToolCall>)
    ensures DecodeCalls(CallsJson(cs)) == Some(cs)
  {
    if |cs| > 0 {
      var j := CallJson(cs[0]);
      GetAt(j, 0, "name");
      GetAt(j, 1, "args");
      GetAt(j, 2, "id");
      assert DecodeCall(j) == Some(cs[0]);
      assert CallsJson(cs)[1..] == CallsJson(cs[1..]);
      DecodeCallsJson(cs[1..]);
      assert [cs[0]] + cs[1..] == cs;
    }
  }

  /** The six keys of a written message and their values. */
  lemma MessageJsonFields(m: Message)
    ensures var d := MessageJson(m);
      HasKey(d, "type") && GetOr(d, "type", JNull) == JStr(ClassName(m))
      && ContentOf(d) == Some(m.content)
      && GetOr(d, "additional_kwargs", JObj([])) == JObj(if m.AI? then m.kwargs else [])
      && GetOr(d, "tool_calls", JNull) == JArr(if m.AI? then CallsJson(m.toolCalls) else [])
      && GetOr(d, "tool_call_id", JStr("")) == (if m.Tool? then JStr(m.toolCallId) else JNull)
      && GetOr(d, "name", JNull) == (if m.Tool? && m.name.Some? then JStr(m.name.value) else JNull)
  {
    MessageJsonHead(m);
    MessageJsonCalls(m);
    MessageJsonTool(m);
  }

  lemma MessageJsonHead(m: Message)
    ensures var d := MessageJson(m);
      HasKey(d, "type") && GetOr(d, "type", JNull) == JStr(ClassName(m)) && ContentOf(d) == Some(m.content)
  {
    var d := MessageJson(m);
    GetAt(d, 0, "type");
    GetAt(d, 1, "content");
  }

  lemma MessageJsonCalls(m: Message)
    ensures var d := MessageJson(m);
      GetOr(d, "additional_kwargs", JObj([])) == JObj(if m.AI? then m.kwargs else [])
      && GetOr(d, "tool_calls", JNull) == JArr(if m.AI? then CallsJson(m.toolCalls) else [])
  {
    var d := MessageJson(m);
    GetAt(d, 2, "additional_kwargs");
    GetAt(d, 3, "tool_calls");
  }

  lemma MessageJsonTool(m: Message)
    ensures var d := MessageJson(m);
      GetOr(d, "tool_call_id", JStr("")) == (if m.Tool? then JStr(m.toolCallId) else JNull)
      && GetOr(d, "name", JNull) == (if m.Tool? && m.name.Some? then JStr(m.name.value) else JNull)
  {
    var d := MessageJson(m);
    GetAt(d, 4, "tool_call_id");
    GetAt(d, 5, "name");
  }

  /** A message written by the checkpointer is rebuilt as the same message. */
  lemma RebuildMessageJson(m: Message)
    requires Restorable(MsgEntry(m))
    ensures Rebuild(MessageJson(m)) == Some(m)
  {
    var d := MessageJson(m);
    MessageJsonFields(m);
    match m
    case Human(c) => RebuildTagged(d, "HumanMessage", c);
    case System(c) => RebuildTagged(d, "SystemMessage", c);
    case AI(c, calls, kwargs) =>
      RebuildTagged(d, "AIMessage", c);
      RebuildAIOf(d, c, calls, kwargs);
    case Tool(c, id, name) =>
      RebuildTagged(d, "ToolMessage", c);
      RebuildToolOf(d, c, id, name);
  }

  lemma RebuildAIOf(d: Json, c: string, calls: seq<ToolCall>, kwargs: seq<Field>)
    requires ContentOf(d) == Some(c) && GetOr(d, "additional_kwargs", JObj([])) == JObj(kwargs)
    requires GetOr(d, "tool_calls", JNull) == JArr(CallsJson(calls))
    ensures RebuildAI(d) == Some(AI(c, calls, kwargs))
  {
    DecodeCallsJson(calls);
  }

  lemma RebuildToolOf(d: Json, c: string, id: string, name: Option<string>)
    requires name != Some("")
    requires ContentOf(d) == Some(c) && GetOr(d, "tool_call_id", JStr("")) == JStr(id)
    requires GetOr(d, "name", JNull) == (if name.Some? then JStr(name.value) else JNull)
    ensures RebuildTool(d) == Some(Tool(c, id, name))
  {
  }

  /** Which rebuilding a dict gets is decided by its "type" field alone. */
  lemma RebuildTagged(d: Json, tag: string, c: string)
    requires HasKey(d, "type") && GetOr(d, "type", JNull) == JStr(tag) && ContentOf(d) == Some(c)
    ensures tag == "HumanMessage" ==> Rebuild(d) == Some(Human(c))
    ensures tag == "SystemMessage" ==> Rebuild(d) == Some(System(c))
    ensures tag == "AIMessage" ==> Rebuild(d) == RebuildAI(d)
    ensures tag == "ToolMessage" ==> Rebuild(d) == RebuildTool(d)
  {
  }

  /** A tool message whose name is "" comes back without a name. */
  lemma EmptyToolNameIsDropped(content: string, id: string)
    ensures Rebuild(MessageJson(Tool(content, id, Some("")))) == Some(Tool(content, id, None))
  {
    var d := MessageJson(Tool(content, id, Some("")));
    MessageJsonFields(Tool(content, id, Some("")));
    RebuildTagged(d, "ToolMessage", content);
  }

  /** An entry that is not a message comes back as a human message holding
      its text. */
  lemma RebuildValueEntry(j: Json)
    ensures Rebuild(EntryJson(ValueEntry(j))) == Some(Human(Str(j)))
  {
  }

  /** Rebuilding succeeds on a list when it does item by item. */
  lemma {:induction false} RebuildAllOf(items: seq<Json>, ms: seq<Message>)
    requires |ms| == |items| && forall i | 0 <= i < |items| :: Rebuild(items[i]) == Some(ms[i])
    ensures RebuildAll(items) == Some(ms)
  {
    if |items| > 0 {
      assert forall i | 0 <= i < |items| - 1 :: items[1..][i] == items[i + 1] && ms[1..][i] == ms[i + 1];
      RebuildAllOf(items[1..], ms[1..]);
      assert [ms[0]] + ms[1..] == ms;
    }
  }

  lemma RebuildEntry(e: Entry)
    requires Restorable(e)
    ensures Rebuild(EntryJson(e)) == Some(Expected(e))
  {
    match e
    case MsgEntry(m) => RebuildMessageJson(m);
    case ValueEntry(j) => RebuildValueEntry(j);
  }

  /** The message list keeps its length and order through a write and a read. */
  lemma RebuildEntries(es: seq<Entry>)
    requires forall i | 0 <= i < |es| :: Restorable(es[i])
    ensures RebuildAll(EntriesJson(es)) == Some(seq(|es|, (i: int) requires 0 <= i < |es| => Expected(es[i])))
  {
    var items := EntriesJson(es);
    var want := seq(|es|, (i: int) requires 0 <= i < |es| => Expected(es[i]));
    forall i | 0 <= i < |es|
      ensures Rebuild(items[i]) == Some(want[i])
    {
      RebuildEntry(es[i]);
    }
    RebuildAllOf(items, want);
  }

  /** The stored message list is the value bound to "messages" in the written
      `channel_values`. */
  lemma {:induction false} LookupMessages(cs: seq<Channel>)
    requires ChannelsValid(cs)
    ensures HasField(ChannelsJson(cs), "messages") <==> MessagesOf(cs).Some?
    ensures MessagesOf(cs).Some? ==> Lookup(ChannelsJson(cs), "messages") == Some(JArr(EntriesJson(MessagesOf(cs).value)))
  {
    var fs := ChannelsJson(cs);
    if |cs| > 0 && cs[0].name != "messages" {
      assert ChannelsValid(cs[1..]) by {
        assert forall i | 0 <= i < |cs[1..]| :: cs[1..][i] == cs[i + 1];
      }
      assert fs[1..] == ChannelsJson(cs[1..]);
      LookupMessages(cs[1..]);
      assert MessagesOf(cs) == MessagesOf(cs[1..]);
      assert HasField(fs, "messages") <==> HasField(fs[1..], "messages") by {
        assert forall i | 1 <= i < |fs| :: fs[i] == fs[1..][i - 1];
      }
    }
  }

  /** The list of messages a checkpoint came back with. */
  function ExpectedMessages(cs: seq<Channel>): Option<seq<Message>>
    requires ChannelsValid(cs)
  {
    match MessagesOf(cs)
    case None => None
    case Some(es) => Some(seq(|es|, (i: int) requires 0 <= i < |es| => Expected(es[i])))
  }

  /** A written `channel_values` gives back the expected message list. */
  lemma DecodeWrittenChannels(j: Json, cs: seq<Channel>)
    requires ChannelsValid(cs) && |cs| > 0
    requires MessagesOf(cs).Some? ==> forall i | 0 <= i < |MessagesOf(cs).value| :: Restorable(MessagesOf(cs).value[i])
    ensures DecodeChannels(j, JObj(ChannelsJson(cs))) == Some(Restored(j, ExpectedMessages(cs)))
  {
    var cv := JObj(ChannelsJson(cs));
    LookupMessages(cs);
    if MessagesOf(cs).Some? {
      var es := MessagesOf(cs).value;
      assert PyIn("messages", cv) == Some(true);
      assert GetOr(cv, "messages", JNull) == JArr(EntriesJson(es));
      RebuildEntries(es);
    } else {
      assert PyIn("messages", cv) == Some(false);
    }
  }

  /** Writing a checkpoint and reading it back gives the written dict with
      the message list rebuilt: every message as it was, in order, and every
      other entry as a human message holding its text. `loads` is assumed to
      invert `dumps` on the written dict. */
  lemma CheckpointRoundTrip(top: seq<Field>, channels: Option<seq<Channel>>,
                            dumps: Json -> string, loads: string -> Option<Json>)
    requires ChannelsValid(channels.GetOr([]))
    requires MessagesOf(channels.GetOr([])).Some? ==>
      forall i | 0 <= i < |MessagesOf(channels.GetOr([])).value| :: Restorable(MessagesOf(channels.GetOr([])).value[i])
    requires loads(dumps(CheckpointJson(top, channels))) == Some(CheckpointJson(top, channels))
    ensures Deserialize(dumps(CheckpointJson(top, channels)), loads)
         == Some(Restored(CheckpointJson(top, channels), ExpectedMessages(channels.GetOr([]))))
  {
    var cs := channels.GetOr([]);
    var j := CheckpointJson(top, channels);
    var cv := JObj(ChannelsJson(cs));
    CheckpointChannelValues(top, channels);
    DecodeOfChannelValues(j, cv);
    if |cs| > 0 {
      DecodeWrittenChannels(j, cs);
    }
  }

  lemma CheckpointChannelValues(top: seq<Field>, channels: Option<seq<Channel>>)
    ensures var j := CheckpointJson(top, channels);
      HasKey(j, "channel_values") && GetOr(j, "channel_values", JNull) == JObj(ChannelsJson(channels.GetOr([])))
  {
    GetAt(CheckpointJson(top, channels), 3, "channel_values");
  }

  /** A dict checkpoint is decoded from its "channel_values" field. */
  lemma DecodeOfChannelValues(j: Json, cv: Json)
    requires j.JObj? && HasKey(j, "channel_values") && GetOr(j, "channel_values", JNull) == cv
    ensures DecodeCheckpoint(j) == if Truthy(cv) then DecodeChannels(j, cv) else Some(Restored(j, None))
  {
  }

  /** Once written, the caller's message list holds no message object, and
      writing the same checkpoint again turns every entry into text: a second
      save followed by a read gives only human messages. */
  lemma RewriteTurnsMessagesIntoText(cs: seq<Channel>)
    requires ChannelsValid(cs) && MessagesOf(cs).Some?
    ensures ChannelsValid(ChannelsAfterWrite(cs))
    ensures MessagesOf(ChannelsAfterWrite(cs)).Some?
    ensures var es := MessagesOf(ChannelsAfterWrite(cs)).value;
      |es| == |MessagesOf(cs).value|
      && (forall i | 0 <= i < |es| :: es[i].ValueEntry? && Expected(es[i]).Human?)
  {
    var after := ChannelsAfterWrite(cs);
    AfterWriteValid(cs);
    var i :| 0 <= i < |cs| && cs[i] == Channel("messages", Entries(MessagesOf(cs).value));
    var written := cs[i].value.entries;
    assert after[i].name == "messages" && after[i].value.Entries?;
    MessagesOfAt(after, i);
    WrittenEntriesAreText(after[i].value.entries, written);
  }

  /** Entries written as JSON values read back as human messages. */
  lemma WrittenEntriesAreText(es: seq<Entry>, written: seq<Entry>)
    requires |es| == |written| && forall k | 0 <= k < |written| :: es[k] == ValueEntry(EntryJson(written[k]))
    ensures forall m | 0 <= m < |es| :: es[m].ValueEntry? && Expected(es[m]).Human?
  {
  }

  lemma AfterWriteValid(cs: seq<Channel>)
    requires ChannelsValid(cs)
    ensures ChannelsValid(ChannelsAfterWrite(cs))
  {
    var after := ChannelsAfterWrite(cs);
    assert forall i | 0 <= i < |after| :: after[i].value.Entries? <==> cs[i].value.Entries?;
  }

  /** With distinct names, the "messages" channel is the one `MessagesOf` finds. */
  lemma MessagesOfAt(cs: seq<Channel>, i: int)
    requires ChannelsValid(cs) && 0 <= i < |cs| && cs[i].name == "messages"
    ensures MessagesOf(cs) == Some(cs[i].value.entries)
  {
    var k :| 0 <= k < |cs| && cs[k] == Channel("messages", Entries(MessagesOf(cs).value));
    assert k == i;
  }
}
