// Python values that come out of `json.loads` and go into f-strings: the JSON
// value type, Python truthiness, `dict.get`, `type(x)`, `repr(x)` and `str(x)`.
module JsonValue {
  import opened Wrappers
  import opened Strings

  /** A decoded JSON value. Objects keep their keys in insertion order, as a
      Python dict does; numbers are integers. */
  datatype Json =
    | JNull
    | JBool(b: bool)
    | JNum(n: int)
    | JStr(s: string)
    | JArr(items: seq<Json>)
    | JObj(fields: seq<Field>)

  /** One `key: value` entry of an object. */
  datatype Field = Field(key: string, value: Json)

  /** Python's `bool(x)`. */
  predicate Truthy(j: Json) {
    match j
    case JNull => false
    case JBool(b) => b
    case JNum(n) => n != 0
    case JStr(s) => |s| > 0
    case JArr(items) => |items| > 0
    case JObj(fields) => |fields| > 0
  }

  /** Python's `x or y`. */
  function Or(x: Json, y: Json): (r: Json)
    ensures Truthy(x) ==> r == x
    ensures !Truthy(x) ==> r == y
  {
    if Truthy(x) then x else y
  }

  predicate HasField(fields: seq<Field>, key: string) {
    exists i | 0 <= i < |fields| :: fields[i].key == key
  }

  /** The value bound to `key` in an association list (its first binding). */
  function Lookup(fields: seq<Field>, key: string): (r: Option<Json>)
    ensures r.Some? <==> HasField(fields, key)
    ensures r.Some? ==> exists i | 0 <= i < |fields| :: fields[i] == Field(key, r.value)
  {
    if |fields| == 0 then None
    else if fields[0].key == key then
      Some(fields[0].value)
    else
      var r := Lookup(fields[1..], key);
      assert forall i | 0 <= i < |fields[1..]| :: fields[1..][i] == fields[i + 1];
      r
  }

  /** `key in x` for a dict `x`. */
  predicate HasKey(j: Json, key: string) {
    j.JObj? && HasField(j.fields, key)
  }

  /** `x.get(key)` for a dict `x`; a non-dict has no keys. */
  function Get(j: Json, key: string): (r: Option<Json>)
    ensures r.Some? <==> HasKey(j, key)
  {
    if j.JObj? then Lookup(j.fields, key) else None
  }

  /** The value of the first field named `key` is the one a lookup finds. */
  lemma {:induction false} LookupAt(fields: seq<Field>, i: nat, key: string)
    requires i < |fields| && fields[i].key == key
    requires forall k | 0 <= k < i :: fields[k].key != key
    ensures Lookup(fields, key) == Some(fields[i].value)
  {
    if i > 0 {
      assert forall k | 0 <= k < i - 1 :: fields[1..][k] == fields[k + 1];
      LookupAt(fields[1..], i - 1, key);
    }
  }

  lemma GetAt(j: Json, i: nat, key: string)
    requires j.JObj? && i < |j.fields| && j.fields[i].key == key
    requires forall k | 0 <= k < i :: j.fields[k].key != key
    ensures HasKey(j, key) && Get(j, key) == Some(j.fields[i].value)
    ensures forall d :: GetOr(j, key, d) == j.fields[i].value
  {
    LookupAt(j.fields, i, key);
  }

  /** `x.get(key, default)`; a missing key gives `default` (`None` is `JNull`). */
  function GetOr(j: Json, key: string, default: Json): (r: Json)
    ensures !HasKey(j, key) ==> r == default
    ensures HasKey(j, key) ==> Some(r) == Get(j, key)
  {
    Get(j, key).GetOr(default)
  }

  /** What `for v in x` walks through: a list's items, a dict's keys, a
      string's characters; `None` when the value is not iterable. */
  function Iterate(j: Json): (r: Option<seq<Json>>)
    ensures r.None? <==> !(j.JArr? || j.JObj? || j.JStr?)
    ensures j.JArr? ==> r == Some(j.items)
  {
    match j
    case JArr(items) => Some(items)
    case JObj(fields) => Some(seq(|fields|, i requires 0 <= i < |fields| => JStr(fields[i].key)))
    case JStr(s) => Some(seq(|s|, i requires 0 <= i < |s| => JStr([s[i]])))
    case _ => None
  }

  /** `type(x).__name__`. */
  function TypeName(j: Json): string {
    match j
    case JNull => "NoneType"
    case JBool(_) => "bool"
    case JNum(_) => "int"
    case JStr(_) => "str"
    case JArr(_) => "list"
    case JObj(_) => "dict"
  }

  /** `str(type(x))`, as an f-string prints `{type(x)}`. */
  function TypeRepr(j: Json): string {
    "<class '" + TypeName(j) + "'>"
  }

  /** Whether `x` can be a dict key or a member of a set (lists and dicts cannot). */
  predicate Hashable(j: Json) {
    !j.JArr? && !j.JObj?
  }

  function HexDigit(d: nat): char
    requires d < 16
  {
    "0123456789abcdef"[d]
  }

  /** One character as it appears inside Python's `repr` of a string quoted
      with `quote`. */
  function EscapeChar(c: char, quote: char): string {
    if c == '\\' then "\\\\"
    else if c == quote then ['\\', c]
    else if c == '\n' then "\\n"
    else if c == '\r' then "\\r"
    else if c == '\t' then "\\t"
    else if c as int < 32 || c as int == 127 then
      ['\\', 'x', HexDigit(c as int / 16), HexDigit(c as int % 16)]
    else [c]
  }

  function EscapeString(s: string, quote: char): string {
    if |s| == 0 then "" else EscapeChar(s[0], quote) + EscapeString(s[1..], quote)
  }

  /** Python's `repr(s)` for a string: single quotes, unless the text holds a
      single quote and no double quote. */
  function ReprString(s: string): string {
    var quote := if '\'' in s && '"' !in s then '"' else '\'';
    [quote] + EscapeString(s, quote) + [quote]
  }

  /** Python's `repr(x)`. */
  function Repr(j: Json): string
    decreases j, 1
  {
    match j
    case JNull => "None"
    case JBool(b) => if b then "True" else "False"
    case JNum(n) => IntToString(n)
    case JStr(s) => ReprString(s)
    case JArr(items) => "[" + ReprItems(items) + "]"
    case JObj(fields) => "{" + ReprFields(fields) + "}"
  }

  function ReprItems(items: seq<Json>): string
    decreases items, 0
  {
    if |items| == 0 then ""
    else if |items| == 1 then Repr(items[0])
    else Repr(items[0]) + ", " + ReprItems(items[1..])
  }

  function ReprFields(fields: seq<Field>): string
    decreases fields, 0
  {
    if |fields| == 0 then ""
    else
      var entry := ReprString(fields[0].key) + ": " + Repr(fields[0].value);
      if |fields| == 1 then entry else entry + ", " + ReprFields(fields[1..])
  }

  /** Python's `str(x)`, which is what an f-string prints for `{x}`. */
  function Str(j: Json): string {
    if j.JStr? then j.s else Repr(j)
  }

  /** `str(x)` for an optional string (`None` prints as "None"). */
  function OptStr(o: Option<string>): string {
    match o
    case Some(s) => s
    case None => "None"
  }
}
