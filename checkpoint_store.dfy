// The Redis checkpointer of src/agents/modules/redis_checkpointer.py as an
// object over a key-value store with expiry: the two keys of a session,
// saving, loading, clearing and listing sessions. Redis is a map from key to
// stored text and expiry time, read at the checkpointer's clock.
module CheckpointStore {
  import opened Wrappers
  import opened Strings
  import opened JsonValue
  import opened Messages
  import opened Config
  import opened CheckpointCodec

  // ---- keys ----

  /** `checkpoint_ns` when the configuration does not give one. */
  function Namespace(ns: Option<string>): string {
    ns.GetOr("default")
  }

  /** `_make_redis_key`: where the checkpoint of a session is stored. */
  function CheckpointKey(prefix: string, thread: string, ns: string): string {
    prefix + ":" + thread + ":" + ns
  }

  /** `_make_metadata_key`: where its metadata is stored. */
  function MetadataKey(prefix: string, thread: string, ns: string): string {
    prefix + ":meta:" + thread + ":" + ns
  }

  /** With no `:` inside the parts, a key splits back into them: the
      checkpoint key into prefix, thread and namespace, the metadata key into
      prefix, "meta", thread and namespace. So the two keys of a session never
      coincide, and the third field of a metadata key is the thread. */
  lemma KeysSplit(prefix: string, thread: string, ns: string)
    requires ':' !in prefix && ':' !in thread && ':' !in ns
    ensures Split(CheckpointKey(prefix, thread, ns), ':') == [prefix, thread, ns]
    ensures Split(MetadataKey(prefix, thread, ns), ':') == [prefix, "meta", thread, ns]
  {
    SplitThree(prefix, thread, ns);
    MetadataKeySplit(prefix, thread, ns);
  }

  lemma MetadataKeySplit(prefix: string, thread: string, ns: string)
    requires ':' !in prefix && ':' !in thread && ':' !in ns
    ensures Split(MetadataKey(prefix, thread, ns), ':') == [prefix, "meta", thread, ns]
  {
    var rest := "meta" + [':'] + thread + [':'] + ns;
    MetadataKeyShape(prefix, thread, ns);
    SplitThree("meta", thread, ns);
    SplitCons(prefix, ':', rest);
  }

  lemma MetadataKeyShape(prefix: string, thread: string, ns: string)
    ensures MetadataKey(prefix, thread, ns) == prefix + [':'] + ("meta" + [':'] + thread + [':'] + ns)
  {
    var c, m := [':'], "meta";
    assert ":meta:" == c + m + c;
    assert prefix + (c + m + c) + thread + c + ns == prefix + c + (m + c + thread + c + ns);
  }

  lemma SplitThree(a: string, b: string, c: string)
    requires ':' !in a && ':' !in b && ':' !in c
    ensures Split(a + [':'] + b + [':'] + c, ':') == [a, b, c]
  {
    var rest := b + [':'] + c;
    assert a + [':'] + b + [':'] + c == a + [':'] + rest;
    SplitCons(a, ':', rest);
    SplitCons(b, ':', c);
    assert Split(c, ':') == [c];
  }

  /** Sessions with different threads or namespaces use different keys. */
  lemma KeysSeparateSessions(prefix: string, t1: string, n1: string, t2: string, n2: string)
    requires ':' !in prefix && ':' !in t1 && ':' !in n1 && ':' !in t2 && ':' !in n2
    requires (t1, n1) != (t2, n2)
    ensures CheckpointKey(prefix, t1, n1) != CheckpointKey(prefix, t2, n2)
    ensures MetadataKey(prefix, t1, n1) != MetadataKey(prefix, t2, n2)
    ensures CheckpointKey(prefix, t1, n1) != MetadataKey(prefix, t2, n2)
  {
    KeysSplit(prefix, t1, n1);
    KeysSplit(prefix, t2, n2);
  }

  /** With the default prefix, both keys of a session start with
      "agent_session", as their first `:`-field. */
  lemma DefaultPrefixStartsKeys(thread: string, ns: string)
    requires ':' !in thread && ':' !in ns
    ensures Split(CheckpointKey(DefaultPrefix, thread, ns), ':')[0] == "agent_session"
    ensures Split(MetadataKey(DefaultPrefix, thread, ns), ':')[0] == "agent_session"
  {
    assert ':' !in DefaultPrefix by {
      assert forall i | 0 <= i < |DefaultPrefix| :: DefaultPrefix[i] != ':';
    }
    KeysSplit(DefaultPrefix, thread, ns);
  }

  // ---- the store ----

  /** A stored text and the time at which it expires. */
  datatype Stored = Stored(value: string, expiry: int)

  /** A key Redis still has at time `now`. */
  predicate LiveIn(store: map<string, Stored>, now: int, key: string) {
    key in store && now < store[key].expiry
  }

  /** `GET key`. */
  function GetIn(store: map<string, Stored>, now: int, key: string): (r: Option<string>)
    ensures r.Some? <==> LiveIn(store, now, key)
  {
    if LiveIn(store, now, key) then Some(store[key].value) else None
  }

  // ---- metadata ----

  /** The four fields of `CheckpointMetadata`, with their defaults. */
  datatype Meta = Meta(source: Json, step: Json, writes: Json, parents: Json)

  function MetaOf(md: Json): Meta {
    Meta(GetOr(md, "source", JStr("update")), GetOr(md, "step", JNum(-1)),
         GetOr(md, "writes", JObj([])), GetOr(md, "parents", JObj([])))
  }

  /** `type(x).__name__` for an entry of the message list. */
  function EntryTypeName(e: Entry): string {
    match e
    case MsgEntry(m) => ClassName(m)
    case ValueEntry(j) => TypeName(j)
  }

  /** The message count and last type `put` adds, from the message list it
      finds in the checkpoint. */
  function MessageInfo(entries: Option<seq<Entry>>): seq<Field> {
    match entries
    case None => []
    case Some(es) =>
      [Field("message_count", JNum(|es|))]
      + (if |es| > 0 then [Field("last_message_type", JStr(EntryTypeName(es[|es| - 1])))] else [])
  }

  /** The metadata `put` stores: the four fields of the given metadata (a
      value that is not a dict has none of them), the time of saving, the
      thread, a fixed user, and what `MessageInfo` reports. */
  function ExtendedMetadata(md: Json, savedAt: string, thread: string, entries: Option<seq<Entry>>): (r: Json)
    ensures r.JObj?
  {
    var m := MetaOf(md);
    JObj([Field("source", m.source), Field("step", m.step), Field("writes", m.writes), Field("parents", m.parents),
          Field("saved_at", JStr(savedAt)), Field("thread_id", JStr(thread)), Field("user_login", JStr("fab1an12"))]
         + MessageInfo(entries))
  }

  /** The message list of a checkpoint's channels, if it has one. */
  function EntriesOf(channels: Option<seq<Channel>>): Option<seq<Entry>>
    requires ChannelsValid(channels.GetOr([]))
  {
    if channels.None? then None else MessagesOf(channels.value)
  }

  /** The channels after `_serialize_checkpoint` has run on them. */
  function ChannelsAfterSave(channels: Option<seq<Channel>>): Option<seq<Channel>>
    requires ChannelsValid(channels.GetOr([]))
  {
    if channels.Some? && MessagesOf(channels.value).Some? then Some(ChannelsAfterWrite(channels.value)) else channels
  }

  /** The metadata `put` stores for a checkpoint whose channels were
      `channels` before saving: the message information is read after the
      message list was overwritten. */
  function SavedMetadata(md: Json, savedAt: string, thread: string, channels: Option<seq<Channel>>): Json
    requires ChannelsValid(channels.GetOr([]))
  {
    WrittenChannelsValid(channels);
    ExtendedMetadata(md, savedAt, thread, EntriesOf(ChannelsAfterSave(channels)))
  }

  lemma WrittenChannelsValid(channels: Option<seq<Channel>>)
    requires ChannelsValid(channels.GetOr([]))
    ensures ChannelsValid(ChannelsAfterSave(channels).GetOr([]))
  {
    if channels.Some? && MessagesOf(channels.value).Some? {
      RewriteTurnsMessagesIntoText(channels.value);
    }
  }

  /** As written, the saved `last_message_type` never names a message class:
      it is "dict" when the last entry was a message and `type(x).__name__`
      of the text it became ("str") otherwise. */
  lemma LastMessageTypeIsNeverAClass(md: Json, savedAt: string, thread: string, cs: seq<Channel>)
    requires ChannelsValid(cs) && MessagesOf(cs).Some? && |MessagesOf(cs).value| > 0
    ensures var es := MessagesOf(cs).value;
      GetOr(SavedMetadata(md, savedAt, thread, Some(cs)), "last_message_type", JNull)
        == JStr(if es[|es| - 1].MsgEntry? then "dict" else "str")
  {
    var es := MessagesOf(cs).value;
    var w := WrittenEntries(es);
    SavedMetadataAfterWrite(md, savedAt, thread, cs);
    LastTypeField(md, savedAt, thread, w);
    WrittenTypeName(es[|es| - 1]);
  }

  /** A written entry is a dict when it was a message and a string otherwise. */
  lemma WrittenTypeName(e: Entry)
    ensures EntryTypeName(ValueEntry(EntryJson(e))) == if e.MsgEntry? then "dict" else "str"
  {
    if e.MsgEntry? {
      assert EntryJson(e).JObj?;
    }
  }

  /** The written form of each entry of a message list, in order. */
  function WrittenEntries(es: seq<Entry>): (r: seq<Entry>)
    ensures |r| == |es| && forall k | 0 <= k < |es| :: r[k] == ValueEntry(EntryJson(es[k]))
  {
    if |es| == 0 then [] else [ValueEntry(EntryJson(es[0]))] + WrittenEntries(es[1..])
  }

  /** `put` reports on the written form of the message list. */
  lemma SavedMetadataAfterWrite(md: Json, savedAt: string, thread: string, cs: seq<Channel>)
    requires ChannelsValid(cs) && MessagesOf(cs).Some?
    ensures SavedMetadata(md, savedAt, thread, Some(cs))
      == ExtendedMetadata(md, savedAt, thread, Some(WrittenEntries(MessagesOf(cs).value)))
  {
    AfterWriteEntries(cs);
    assert MessagesOf(ChannelsAfterWrite(cs)).value == WrittenEntries(MessagesOf(cs).value);
  }

  /** The saved `last_message_type` is the type name of the last entry of
      the list it is given. */
  lemma LastTypeField(md: Json, savedAt: string, thread: string, es: seq<Entry>)
    requires |es| > 0
    ensures var r := ExtendedMetadata(md, savedAt, thread, Some(es));
      GetOr(r, "message_count", JNull) == JNum(|es|)
      && GetOr(r, "last_message_type", JNull) == JStr(EntryTypeName(es[|es| - 1]))
  {
    var r := ExtendedMetadata(md, savedAt, thread, Some(es));
    GetAt(r, 7, "message_count");
    GetAt(r, 8, "last_message_type");
  }

  /** The message list after writing holds, in order, the written form of
      each entry. */
  lemma AfterWriteEntries(cs: seq<Channel>)
    requires ChannelsValid(cs) && MessagesOf(cs).Some?
    ensures ChannelsValid(ChannelsAfterWrite(cs))
    ensures var es := MessagesOf(cs).value;
      var after := MessagesOf(ChannelsAfterWrite(cs));
      after.Some? && |after.value| == |es|
      && forall k | 0 <= k < |es| :: after.value[k] == ValueEntry(EntryJson(es[k]))
  {
    RewriteTurnsMessagesIntoText(cs);
    var after := ChannelsAfterWrite(cs);
    var i :| 0 <= i < |cs| && cs[i] == Channel("messages", Entries(MessagesOf(cs).value));
    var k :| 0 <= k < |after| && after[k] == Channel("messages", Entries(MessagesOf(after).value));
    assert after[i].name == "messages";
  }

  /** The metadata as evidently intended: the message information read from
      the message list before it is overwritten. */
  function IntendedMetadata(md: Json, savedAt: string, thread: string, channels: Option<seq<Channel>>): Json
    requires ChannelsValid(channels.GetOr([]))
  {
    ExtendedMetadata(md, savedAt, thread, EntriesOf(channels))
  }

  /** With the information read first, the last type is the class of the last
      message, and the count is the number of entries. */
  lemma IntendedLastTypeNamesClass(md: Json, savedAt: string, thread: string, cs: seq<Channel>)
    requires ChannelsValid(cs) && MessagesOf(cs).Some? && |MessagesOf(cs).value| > 0
    ensures var es := MessagesOf(cs).value;
      var r := IntendedMetadata(md, savedAt, thread, Some(cs));
      GetOr(r, "message_count", JNull) == JNum(|es|)
      && GetOr(r, "last_message_type", JNull) == JStr(EntryTypeName(es[|es| - 1]))
      && (es[|es| - 1].MsgEntry? ==> GetOr(r, "last_message_type", JNull) == JStr(ClassName(es[|es| - 1].m)))
  {
    LastTypeField(md, savedAt, thread, MessagesOf(cs).value);
  }

  // ---- loading ----

  /** What `get_tuple` returns: the configuration, the checkpoint and the
      metadata. */
  datatype CheckpointTuple = CheckpointTuple(thread: string, ns: Option<string>, checkpoint: Restored, metadata: Meta)

  /** The loaded checkpoint is a dict whose `channel_values`, if present, is
      a dict: otherwise the debug line of `get_tuple` raises. */
  predicate Readable(c: Restored) {
    c.dict.JObj? && (!HasKey(c.dict, "channel_values") || GetOr(c.dict, "channel_values", JNull).JObj?)
  }

  /** The metadata `get_tuple` reads: `{}` when the key is missing, empty or
      not JSON. */
  function LoadedMetadata(text: Option<string>, loads: string -> Option<Json>): Json {
    if text.None? || |text.value| == 0 then JObj([])
    else loads(text.value).GetOr(JObj([]))
  }

  /** `get_tuple` on a store at time `now`; every exception gives `None`. */
  function GetTupleIn(store: map<string, Stored>, now: int, prefix: string, thread: string, ns: Option<string>,
                      loads: string -> Option<Json>): (r: Option<CheckpointTuple>)
    ensures r.Some? ==> LiveIn(store, now, CheckpointKey(prefix, thread, Namespace(ns)))
    ensures r.Some? ==> r.value.thread == thread && r.value.ns == ns && Readable(r.value.checkpoint)
  {
    var data := GetIn(store, now, CheckpointKey(prefix, thread, Namespace(ns)));
    var md := LoadedMetadata(GetIn(store, now, MetadataKey(prefix, thread, Namespace(ns))), loads);
    if data.None? || |data.value| == 0 then None
    else match Deserialize(data.value, loads)
      case None => None
      case Some(c) =>
        if !md.JObj? || !Readable(c) then None
        else Some(CheckpointTuple(thread, ns, c, MetaOf(md)))
  }

  // ---- listing ----

  /** `d[key] = v` on a dict: the first field with that key gets the value,
      or a new field is added at the end. */
  function SetField(fields: seq<Field>, key: string, v: Json): (r: seq<Field>)
    ensures Lookup(r, key) == Some(v)
    ensures forall k | k != key :: Lookup(r, k) == Lookup(fields, k)
  {
    if |fields| == 0 then [Field(key, v)]
    else if fields[0].key == key then [Field(key, v)] + fields[1..]
    else [fields[0]] + SetField(fields[1..], key, v)
  }

  /** The session a scanned key contributes: its metadata dict with
      "thread_id" set to the key's third `:`-field; nothing when the key is
      gone, its text is empty or not JSON, or the value is not a dict. */
  function SessionOf(store: map<string, Stored>, now: int, key: string, loads: string -> Option<Json>): (r: seq<Json>)
    ensures |r| <= 1
    ensures |r| == 1 ==> (|Split(key, ':')| >= 3 && r[0].JObj?
      && Get(r[0], "thread_id") == Some(JStr(Split(key, ':')[2])))
  {
    var parts := Split(key, ':');
    var data := GetIn(store, now, key);
    if |parts| < 3 || data.None? || |data.value| == 0 then []
    else match loads(data.value)
      case Some(JObj(fields)) => [JObj(SetField(fields, "thread_id", JStr(parts[2])))]
      case _ => []
  }

  /** The sessions the scan loop collects, in scan order. */
  function Collected(store: map<string, Stored>, now: int, keys: seq<string>, loads: string -> Option<Json>): (r: seq<Json>)
    ensures |r| <= |keys|
  {
    if |keys| == 0 then []
    else Collected(store, now, keys[..|keys| - 1], loads) + SessionOf(store, now, keys[|keys| - 1], loads)
  }

  lemma CollectedStep(store: map<string, Stored>, now: int, keys: seq<string>, i: int, loads: string -> Option<Json>)
    requires 0 <= i < |keys|
    ensures Collected(store, now, keys[..i + 1], loads) == Collected(store, now, keys[..i], loads) + SessionOf(store, now, keys[i], loads)
  {
    assert keys[..i + 1][..i] == keys[..i];
  }

  /** The key a session came from. */
  predicate NamesThreadOf(x: Json, key: string) {
    |Split(key, ':')| >= 3 && x.JObj? && Get(x, "thread_id") == Some(JStr(Split(key, ':')[2]))
  }

  /** `x` names the thread of one of `keys`. */
  predicate FromSomeKey(x: Json, keys: seq<string>) {
    exists k | 0 <= k < |keys| :: NamesThreadOf(x, keys[k])
  }

  /** Every collected session is a dict naming the thread of a scanned key. */
  lemma {:induction false} CollectedNameThreads(store: map<string, Stored>, now: int, keys: seq<string>,
                                                loads: string -> Option<Json>)
    ensures forall i | 0 <= i < |Collected(store, now, keys, loads)| ::
      FromSomeKey(Collected(store, now, keys, loads)[i], keys)
    decreases |keys|
  {
    if |keys| > 0 {
      var front := keys[..|keys| - 1];
      CollectedNameThreads(store, now, front, loads);
      var a := Collected(store, now, front, loads);
      var b := SessionOf(store, now, keys[|keys| - 1], loads);
      var r := Collected(store, now, keys, loads);
      assert r == a + b;
      forall i | 0 <= i < |r|
        ensures FromSomeKey(r[i], keys)
      {
        if i < |a| {
          assert FromSomeKey(a[i], front);
          var k :| 0 <= k < |front| && NamesThreadOf(a[i], front[k]);
          assert front[k] == keys[k];
          assert NamesThreadOf(r[i], keys[k]);
        } else {
          assert NamesThreadOf(r[i], keys[|keys| - 1]);
        }
      }
    }
  }

  /** The sort key `x.get("saved_at", "")`. */
  function SavedAt(x: Json): Json {
    GetOr(x, "saved_at", JStr(""))
  }

  function Key(x: Json): string {
    if SavedAt(x).JStr? then SavedAt(x).s else ""
  }

  /** Newest first: no session saved earlier than one after it. */
  predicate Descending(s: seq<Json>) {
    forall i, j | 0 <= i < j < |s| :: !Less(Key(s[i]), Key(s[j]))
  }

  /** Each session no older than the next. */
  predicate AdjacentDescending(s: seq<Json>) {
    forall i | 0 <= i < |s| - 1 :: !Less(Key(s[i]), Key(s[i + 1]))
  }

  /** "No older than" is transitive, so neighbours in order give the whole
      order. */
  lemma {:induction false} AdjacentToDescending(s: seq<Json>)
    requires AdjacentDescending(s)
    ensures Descending(s)
    decreases |s|
  {
    if |s| > 1 {
      AdjacentToDescending(s[1..]);
      forall j | 1 <= j < |s|
        ensures !Less(Key(s[0]), Key(s[j]))
      {
        if j > 1 {
          assert !Less(Key(s[1..][0]), Key(s[1..][j - 1]));
          NotLessTransitive(Key(s[0]), Key(s[1]), Key(s[j]));
        }
      }
    }
  }

  lemma NotLessTransitive(a: string, b: string, c: string)
    requires !Less(a, b) && !Less(b, c)
    ensures !Less(a, c)
  {
    LessTotal(a, b);
    LessTotal(b, c);
    if Less(a, c) {
      if Less(b, a) {
        LessTransitive(b, a, c);
      }
      if Less(c, b) {
        LessTransitive(a, c, b);
        if Less(b, a) {
          LessTransitive(a, b, a);
          LessIrreflexive(a);
        }
      }
      LessIrreflexive(a);
    }
  }

  /** Puts `x` after every session not older than it. */
  function InsertDesc(x: Json, s: seq<Json>): (r: seq<Json>)
    ensures multiset(r) == multiset(s) + multiset{x}
    ensures |r| == |s| + 1
    ensures r[0] == x || (|s| > 0 && r[0] == s[0])
  {
    if |s| == 0 then [x]
    else if Less(Key(s[0]), Key(x)) then [x] + s
    else
      assert s == [s[0]] + s[1..];
      [s[0]] + InsertDesc(x, s[1..])
  }

  lemma {:induction false} InsertDescSorted(x: Json, s: seq<Json>)
    requires AdjacentDescending(s)
    ensures AdjacentDescending(InsertDesc(x, s))
    decreases |s|
  {
    if |s| > 0 {
      if Less(Key(s[0]), Key(x)) {
        if Less(Key(x), Key(s[0])) {
          LessTransitive(Key(x), Key(s[0]), Key(x));
          LessIrreflexive(Key(x));
        }
        ConsDescending(x, s);
      } else {
        assert AdjacentDescending(s[1..]) by {
          assert forall i | 1 <= i < |s| :: s[1..][i - 1] == s[i];
        }
        InsertDescSorted(x, s[1..]);
        ConsDescending(s[0], InsertDesc(x, s[1..]));
      }
    }
  }

  /** A descending list stays descending under a head not older than its first. */
  lemma ConsDescending(a: Json, r: seq<Json>)
    requires AdjacentDescending(r)
    requires |r| > 0 ==> !Less(Key(a), Key(r[0]))
    ensures AdjacentDescending([a] + r)
  {
    var t := [a] + r;
    assert forall i | 1 <= i < |t| - 1 :: t[i] == r[i - 1] && t[i + 1] == r[i];
  }

  /** `sessions.sort(key=..., reverse=True)` when every key is a string;
      equal keys keep their order. */
  function SortDesc(s: seq<Json>): (r: seq<Json>)
    ensures multiset(r) == multiset(s)
  {
    if |s| == 0 then []
    else
      assert s == s[..|s| - 1] + [s[|s| - 1]];
      InsertDesc(s[|s| - 1], SortDesc(s[..|s| - 1]))
  }

  lemma {:induction false} SortDescAdjacent(s: seq<Json>)
    ensures AdjacentDescending(SortDesc(s))
    decreases |s|
  {
    if |s| > 0 {
      SortDescAdjacent(s[..|s| - 1]);
      InsertDescSorted(s[|s| - 1], SortDesc(s[..|s| - 1]));
    }
  }

  /** The sort puts the sessions newest first and loses or adds none. */
  lemma SortDescSorted(s: seq<Json>)
    ensures Descending(SortDesc(s)) && multiset(SortDesc(s)) == multiset(s)
  {
    SortDescAdjacent(s);
    AdjacentToDescending(SortDesc(s));
  }

  /** The sort: `None` when it raises. With two or more sessions it is taken
      to raise on any key that is not a string; Python raises only when two
      keys cannot be compared, and `put` always writes a string. */
  function Ranked(s: seq<Json>): Option<seq<Json>> {
    if forall i | 0 <= i < |s| :: SavedAt(s[i]).JStr? then Some(SortDesc(s))
    else if |s| <= 1 then Some(s)
    else None
  }

  /** Python's `s[:n]`, where a negative `n` counts from the end. */
  function PrefixTo<T>(s: seq<T>, n: int): (r: seq<T>)
    ensures n >= 0 ==> |r| == (if n < |s| then n else |s|)
    ensures n < 0 ==> |r| == (if |s| + n > 0 then |s| + n else 0)
    ensures r == s[..|r|]
  {
    if n >= 0 then (if n < |s| then s[..n] else s)
    else if |s| + n > 0 then s[..|s| + n] else []
  }

  // ---- the checkpointer ----

  /** A checkpoint the graph passes to `put`: its keys other than
      `channel_values`, and `channel_values` (`None` when absent). */
  class LiveCheckpoint {
    var top: seq<Field>
    var channels: Option<seq<Channel>>

    predicate Valid()
      reads this
    {
      !HasField(top, "channel_values") && ChannelsValid(channels.GetOr([]))
    }

    constructor (top: seq<Field>, channels: Option<seq<Channel>>)
      ensures this.top == top && this.channels == channels
    {
      this.top := top;
      this.channels := channels;
    }

    /** What `_serialize_checkpoint` does to the checkpoint it is given: the
        message list, when there is one, is replaced by its written form. */
    method WriteMessages()
      requires Valid()
      modifies this
      ensures Valid()
      ensures top == old(top) && channels == ChannelsAfterSave(old(channels))
    {
      WrittenChannelsValid(channels);
      if channels.Some? && MessagesOf(channels.value).Some? {
        channels := Some(ChannelsAfterWrite(channels.value));
      }
    }
  }

  class RedisCheckpointer {
    /** `REDIS_PREFIX` and `SESSION_TTL_SECONDS`. */
    const prefix: string
    const ttl: int
    /** The keys Redis holds, and the time it reads them at. */
    var store: map<string, Stored>
    var now: int

    constructor (prefix: string, ttlHours: int, store: map<string, Stored>, now: int)
      ensures this.prefix == prefix && ttl == TtlSeconds(ttlHours)
      ensures this.store == store && this.now == now
    {
      this.prefix := prefix;
      this.ttl := TtlSeconds(ttlHours);
      this.store := store;
      this.now := now;
    }

    /** `put`: both keys are written with the same lifetime, replacing what
        they held. The checkpoint's message list is overwritten with its
        written form, and the metadata is built after that. With a lifetime
        Redis refuses (not positive) nothing is written and `put` raises
        (`ok` is false). `dumps` is `json.dumps`; `savedAt` is the clock's
        ISO text. */
    method Put(thread: string, ns: Option<string>, cp: LiveCheckpoint, metadata: Json, savedAt: string,
               dumps: Json -> string) returns (ok: bool)
      requires cp.Valid()
      modifies this, cp
      ensures cp.Valid()
      ensures cp.top == old(cp.top) && cp.channels == ChannelsAfterSave(old(cp.channels))
      ensures now == old(now)
      ensures ok <==> ttl > 0
      ensures ok ==> store == old(store)
        [CheckpointKey(prefix, thread, Namespace(ns)) := Stored(dumps(CheckpointJson(old(cp.top), old(cp.channels))), now + ttl)]
        [MetadataKey(prefix, thread, Namespace(ns)) := Stored(dumps(SavedMetadata(metadata, savedAt, thread, old(cp.channels))), now + ttl)]
      ensures !ok ==> store == old(store)
    {
      var n := Namespace(ns);
      var key := CheckpointKey(prefix, thread, n);
      var metaKey := MetadataKey(prefix, thread, n);
      var before := cp.channels;
      var data := dumps(CheckpointJson(cp.top, before));
      cp.WriteMessages();
      WrittenChannelsValid(before);
      var extended := ExtendedMetadata(metadata, savedAt, thread, EntriesOf(cp.channels));
      assert extended == SavedMetadata(metadata, savedAt, thread, before);
      var metaData := dumps(extended);
      assert data == dumps(CheckpointJson(old(cp.top), old(cp.channels)));
      assert metaData == dumps(SavedMetadata(metadata, savedAt, thread, old(cp.channels)));
      if ttl > 0 {
        store := store[key := Stored(data, now + ttl)][metaKey := Stored(metaData, now + ttl)];
        ok := true;
      } else {
        ok := false;
      }
    }

    /** `get_tuple`. */
    function GetTuple(thread: string, ns: Option<string>, loads: string -> Option<Json>): Option<CheckpointTuple>
      reads this
    {
      GetTupleIn(store, now, prefix, thread, ns, loads)
    }

    /** `list_tuples`: the latest checkpoint only, so at most one. */
    function ListTuples(thread: string, ns: Option<string>, loads: string -> Option<Json>): (r: seq<CheckpointTuple>)
      reads this
      ensures |r| <= 1
      ensures |r| == 0 <==> GetTuple(thread, ns, loads).None?
      ensures |r| == 1 ==> Some(r[0]) == GetTuple(thread, ns, loads)
    {
      match GetTuple(thread, ns, loads)
      case Some(t) => [t]
      case None => []
    }

    /** `clear_session`: both keys are deleted; the answer says whether Redis
        still had either of them. */
    method ClearSession(thread: string, ns: Option<string>) returns (deleted: bool)
      modifies this
      ensures now == old(now)
      ensures store == old(store) - {CheckpointKey(prefix, thread, Namespace(ns)), MetadataKey(prefix, thread, Namespace(ns))}
      ensures deleted <==> (LiveIn(old(store), now, CheckpointKey(prefix, thread, Namespace(ns)))
                            || LiveIn(old(store), now, MetadataKey(prefix, thread, Namespace(ns))))
    {
      var key := CheckpointKey(prefix, thread, Namespace(ns));
      var metaKey := MetadataKey(prefix, thread, Namespace(ns));
      var count := (if LiveIn(store, now, key) then 1 else 0) + (if LiveIn(store, now, metaKey) then 1 else 0);
      store := store - {key, metaKey};
      deleted := count > 0;
    }

    /** `list_active_sessions`. `scanned` is what `scan_iter` yields for the
        pattern `<prefix>:meta:*`: keys with that start, every live one among
        them. The sessions are sorted newest first and cut to `limit`. A
        `limit` below 1 is sent as the scan's COUNT, which Redis refuses, and
        the error is answered with no sessions. */
    method ListActiveSessions(limit: int, scanned: seq<string>, loads: string -> Option<Json>) returns (r: seq<Json>)
      requires forall i | 0 <= i < |scanned| :: StartsWith(scanned[i], prefix + ":meta:")
      requires forall k | k in store && LiveIn(store, now, k) && StartsWith(k, prefix + ":meta:") :: k in scanned
      ensures r == Listed(store, now, scanned, loads, limit)
    {
      if limit < 1 {
        return [];
      }
      var sessions: seq<Json> := [];
      var i := 0;
      while i < |scanned|
        invariant 0 <= i <= |scanned|
        invariant sessions == Collected(store, now, scanned[..i], loads)
      {
        var key := scanned[i];
        var parts := Split(key, ':');
        CollectedStep(store, now, scanned, i, loads);
        if |parts| >= 3 {
          var thread := parts[2];
          var data := GetIn(store, now, key);
          if data.Some? && |data.value| > 0 {
            match loads(data.value)
            case Some(JObj(fields)) =>
              sessions := sessions + [JObj(SetField(fields, "thread_id", JStr(thread)))];
            case _ =>
          }
        }
        i := i + 1;
      }
      assert scanned[..i] == scanned;
      match Ranked(sessions)
      case None => r := [];
      case Some(sorted) => r := PrefixTo(sorted, limit);
    }
  }

  // ---- properties of the store ----

  /** The store after a successful `put`. */
  function AfterPut(store: map<string, Stored>, now: int, ttl: int, prefix: string, thread: string, ns: Option<string>,
                    data: string, metaData: string): map<string, Stored> {
    store[CheckpointKey(prefix, thread, Namespace(ns)) := Stored(data, now + ttl)]
         [MetadataKey(prefix, thread, Namespace(ns)) := Stored(metaData, now + ttl)]
  }

  /** A saved checkpoint is loaded back with its messages rebuilt and the
      metadata fields it was saved with, until its lifetime runs out. `loads`
      is assumed to invert `dumps` on the two written dicts, and `dumps` to
      give some text. */
  lemma PutThenGet(store: map<string, Stored>, now: int, ttl: int, prefix: string, thread: string, ns: Option<string>,
                   top: seq<Field>, channels: Option<seq<Channel>>, md: Json, savedAt: string,
                   dumps: Json -> string, loads: string -> Option<Json>, later: int)
    requires ChannelsValid(channels.GetOr([]))
    requires MessagesOf(channels.GetOr([])).Some? ==>
      forall i | 0 <= i < |MessagesOf(channels.GetOr([])).value| :: Restorable(MessagesOf(channels.GetOr([])).value[i])
    requires loads(dumps(CheckpointJson(top, channels))) == Some(CheckpointJson(top, channels))
    requires loads(dumps(SavedMetadata(md, savedAt, thread, channels))) == Some(SavedMetadata(md, savedAt, thread, channels))
    requires |dumps(CheckpointJson(top, channels))| > 0 && |dumps(SavedMetadata(md, savedAt, thread, channels))| > 0
    requires now <= later < now + ttl
    ensures GetTupleIn(AfterPut(store, now, ttl, prefix, thread, ns, dumps(CheckpointJson(top, channels)),
                                dumps(SavedMetadata(md, savedAt, thread, channels))), later, prefix, thread, ns, loads)
      == Some(CheckpointTuple(thread, ns, Restored(CheckpointJson(top, channels), ExpectedMessages(channels.GetOr([]))), MetaOf(md)))
  {
    var n := Namespace(ns);
    var j := CheckpointJson(top, channels);
    var meta := SavedMetadata(md, savedAt, thread, channels);
    var s := AfterPut(store, now, ttl, prefix, thread, ns, dumps(j), dumps(meta));
    AfterPutReads(store, now, ttl, prefix, thread, ns, dumps(j), dumps(meta), later);
    CheckpointRoundTrip(top, channels, dumps, loads);
    CheckpointReadable(top, channels);
    SavedMetaFields(md, savedAt, thread, channels);
    assert LoadedMetadata(GetIn(s, later, MetadataKey(prefix, thread, n)), loads) == meta;
  }

  /** Within its lifetime, both written texts are read back. */
  lemma AfterPutReads(store: map<string, Stored>, now: int, ttl: int, prefix: string, thread: string, ns: Option<string>,
                      data: string, metaData: string, later: int)
    requires now <= later < now + ttl
    ensures var s := AfterPut(store, now, ttl, prefix, thread, ns, data, metaData);
      GetIn(s, later, CheckpointKey(prefix, thread, Namespace(ns))) == Some(data)
      && GetIn(s, later, MetadataKey(prefix, thread, Namespace(ns))) == Some(metaData)
  {
    KeysDiffer(prefix, thread, Namespace(ns));
  }

  /** Once the lifetime has run out, there is nothing to load. */
  lemma PutThenExpire(store: map<string, Stored>, now: int, ttl: int, prefix: string, thread: string, ns: Option<string>,
                      data: string, metaData: string, loads: string -> Option<Json>, later: int)
    requires later >= now + ttl
    ensures GetTupleIn(AfterPut(store, now, ttl, prefix, thread, ns, data, metaData), later, prefix, thread, ns, loads).None?
  {
    var s := AfterPut(store, now, ttl, prefix, thread, ns, data, metaData);
    assert !LiveIn(s, later, CheckpointKey(prefix, thread, Namespace(ns)));
  }

  /** The two keys of a session differ: the metadata key is longer. */
  lemma KeysDiffer(prefix: string, thread: string, ns: string)
    ensures CheckpointKey(prefix, thread, ns) != MetadataKey(prefix, thread, ns)
  {
    assert |MetadataKey(prefix, thread, ns)| == |CheckpointKey(prefix, thread, ns)| + 5;
  }

  /** The written checkpoint has a dict as `channel_values`. */
  lemma CheckpointReadable(top: seq<Field>, channels: Option<seq<Channel>>)
    requires ChannelsValid(channels.GetOr([]))
    ensures Readable(Restored(CheckpointJson(top, channels), ExpectedMessages(channels.GetOr([]))))
  {
    GetAt(CheckpointJson(top, channels), 3, "channel_values");
  }

  /** The saved metadata keeps the four fields of the given metadata. */
  lemma SavedMetaFields(md: Json, savedAt: string, thread: string, channels: Option<seq<Channel>>)
    requires ChannelsValid(channels.GetOr([]))
    ensures MetaOf(SavedMetadata(md, savedAt, thread, channels)) == MetaOf(md)
  {
    WrittenChannelsValid(channels);
    ExtendedMetaFields(md, savedAt, thread, EntriesOf(ChannelsAfterSave(channels)));
  }

  lemma ExtendedMetaFields(md: Json, savedAt: string, thread: string, entries: Option<seq<Entry>>)
    ensures MetaOf(ExtendedMetadata(md, savedAt, thread, entries)) == MetaOf(md)
  {
    ExtendedMetaHead(md, savedAt, thread, entries);
    ExtendedMetaTail(md, savedAt, thread, entries);
  }

  lemma ExtendedMetaHead(md: Json, savedAt: string, thread: string, entries: Option<seq<Entry>>)
    ensures var r := ExtendedMetadata(md, savedAt, thread, entries);
      GetOr(r, "source", JStr("update")) == MetaOf(md).source && GetOr(r, "step", JNum(-1)) == MetaOf(md).step
  {
    var r := ExtendedMetadata(md, savedAt, thread, entries);
    GetAt(r, 0, "source");
    GetAt(r, 1, "step");
  }

  lemma ExtendedMetaTail(md: Json, savedAt: string, thread: string, entries: Option<seq<Entry>>)
    ensures var r := ExtendedMetadata(md, savedAt, thread, entries);
      GetOr(r, "writes", JObj([])) == MetaOf(md).writes && GetOr(r, "parents", JObj([])) == MetaOf(md).parents
  {
    var r := ExtendedMetadata(md, savedAt, thread, entries);
    GetAt(r, 2, "writes");
    GetAt(r, 3, "parents");
  }

  /** After `clear_session` there is nothing to load for that session. */
  lemma ClearedSessionIsGone(store: map<string, Stored>, now: int, prefix: string, thread: string, ns: Option<string>,
                             loads: string -> Option<Json>)
    ensures GetTupleIn(store - {CheckpointKey(prefix, thread, Namespace(ns)), MetadataKey(prefix, thread, Namespace(ns))},
                       now, prefix, thread, ns, loads).None?
  {
  }

  /** A stored checkpoint that cannot be read gives `None`, never an error:
      text that is not JSON, or JSON that is not a dict. */
  lemma CorruptCheckpointGivesNone(store: map<string, Stored>, now: int, prefix: string, thread: string, ns: Option<string>,
                                   loads: string -> Option<Json>)
    requires LiveIn(store, now, CheckpointKey(prefix, thread, Namespace(ns)))
    requires var text := store[CheckpointKey(prefix, thread, Namespace(ns))].value;
      loads(text).None? || !loads(text).value.JObj?
    ensures GetTupleIn(store, now, prefix, thread, ns, loads).None?
  {
  }

  /** Metadata that is not JSON is read as `{}`, so the defaults are used. */
  lemma CorruptMetadataGivesDefaults(store: map<string, Stored>, now: int, prefix: string, thread: string, ns: Option<string>,
                                     loads: string -> Option<Json>)
    requires GetTupleIn(store, now, prefix, thread, ns, loads).Some?
    requires var text := GetIn(store, now, MetadataKey(prefix, thread, Namespace(ns)));
      text.Some? && loads(text.value).None?
    ensures GetTupleIn(store, now, prefix, thread, ns, loads).value.metadata
      == Meta(JStr("update"), JNum(-1), JObj([]), JObj([]))
  {
  }

  /** What `list_active_sessions` returns for the scanned keys; nothing when
      the scan is refused for a COUNT below 1. */
  function Listed(store: map<string, Stored>, now: int, scanned: seq<string>, loads: string -> Option<Json>,
                  limit: int): seq<Json> {
    if limit < 1 then []
    else match Ranked(Collected(store, now, scanned, loads))
      case None => []
      case Some(sorted) => PrefixTo(sorted, limit)
  }

  /** A limit below 1 lists nothing, whatever is stored; from 1 on, the newest
      `limit` sessions are listed when the sort succeeds. */
  lemma ListedLimit(store: map<string, Stored>, now: int, scanned: seq<string>, loads: string -> Option<Json>, limit: int)
    ensures limit < 1 ==> Listed(store, now, scanned, loads, limit) == []
    ensures limit >= 1 && Ranked(Collected(store, now, scanned, loads)).Some? ==>
      var sorted := Ranked(Collected(store, now, scanned, loads)).value;
      Listed(store, now, scanned, loads, limit) == sorted[..if limit < |sorted| then limit else |sorted|]
  {
  }

  /** The sort, when it does not raise, orders the sessions newest first and
      loses or adds none. */
  lemma RankedOrder(s: seq<Json>)
    ensures Ranked(s).Some? ==> Descending(Ranked(s).value) && multiset(Ranked(s).value) == multiset(s)
  {
    if forall i | 0 <= i < |s| :: SavedAt(s[i]).JStr? {
      SortDescSorted(s);
    }
  }

  /** A non-negative limit bounds the number of sessions listed. */
  lemma ListedBound(store: map<string, Stored>, now: int, scanned: seq<string>, loads: string -> Option<Json>, limit: int)
    ensures limit >= 0 ==> |Listed(store, now, scanned, loads, limit)| <= limit
  {
  }

  /** The listed sessions are newest first. */
  lemma ListedNewestFirst(store: map<string, Stored>, now: int, scanned: seq<string>, loads: string -> Option<Json>,
                          limit: int)
    ensures Descending(Listed(store, now, scanned, loads, limit))
  {
    var all := Collected(store, now, scanned, loads);
    RankedOrder(all);
    if Ranked(all).Some? {
      var sorted := Ranked(all).value;
      var r := PrefixTo(sorted, limit);
      assert forall i | 0 <= i < |r| :: r[i] == sorted[i];
    }
  }

  /** Each listed session is one of the collected ones, and none is listed
      more often than it was collected. */
  lemma ListedFromCollected(store: map<string, Stored>, now: int, scanned: seq<string>, loads: string -> Option<Json>,
                            limit: int)
    ensures multiset(Listed(store, now, scanned, loads, limit)) <= multiset(Collected(store, now, scanned, loads))
  {
    var all := Collected(store, now, scanned, loads);
    RankedOrder(all);
    if Ranked(all).Some? {
      var sorted := Ranked(all).value;
      var r := PrefixTo(sorted, limit);
      PrefixMultiset(sorted, |r|);
    }
  }

  /** Each listed session is a dict naming the thread of a scanned key. */
  lemma ListedNameThreads(store: map<string, Stored>, now: int, scanned: seq<string>, loads: string -> Option<Json>,
                          limit: int)
    ensures var r := Listed(store, now, scanned, loads, limit);
      forall i | 0 <= i < |r| :: FromSomeKey(r[i], scanned)
  {
    var all := Collected(store, now, scanned, loads);
    var r := Listed(store, now, scanned, loads, limit);
    ListedFromCollected(store, now, scanned, loads, limit);
    CollectedNameThreads(store, now, scanned, loads);
    forall i | 0 <= i < |r|
      ensures FromSomeKey(r[i], scanned)
    {
      assert r[i] in multiset(r);
      assert r[i] in multiset(all);
      var p :| 0 <= p < |all| && all[p] == r[i];
    }
  }

  lemma PrefixMultiset(s: seq<Json>, n: nat)
    requires n <= |s|
    ensures multiset(s[..n]) <= multiset(s)
  {
    assert s == s[..n] + s[n..];
  }

  /** For a key that `put` wrote, the listed thread is the session's thread. */
  lemma ListedThreadOfMetadataKey(prefix: string, thread: string, ns: string)
    requires ':' !in prefix && ':' !in thread && ':' !in ns
    ensures var parts := Split(MetadataKey(prefix, thread, ns), ':');
      |parts| >= 3 && parts[2] == thread
  {
    KeysSplit(prefix, thread, ns);
  }
}
