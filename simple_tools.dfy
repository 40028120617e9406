// The earlier gym tools of src/agents/agent/tools.py. They have no exception
// handling: whatever `requests`, `.get`, indexing or `join` raises leaves the
// tool, and the tool node turns it into text.
module SimpleTools {
  import opened Wrappers
  import opened Strings
  import opened JsonValue
  import opened ToolNode
  import opened GymTools

  /** The message of the exception `x["start_time"]` raises, if any. */
  function SubscriptError(x: Json): Option<string> {
    match x
    case JObj(_) => if HasKey(x, "start_time") then None else Some("'start_time'")
    case JArr(_) => Some("list indices must be integers or slices, not str")
    case JStr(_) => Some("string indices must be integers, not 'str'")
    case _ => Some("'" + TypeName(x) + "' object is not subscriptable")
  }

  /** The first item on which `slot["start_time"]` raises. */
  function FirstSubscriptError(items: seq<Json>): (r: Option<nat>)
    ensures r.None? <==> forall i | 0 <= i < |items| :: SubscriptError(items[i]).None?
    ensures r.Some? ==> r.value < |items| && SubscriptError(items[r.value]).Some?
  {
    if |items| == 0 then None
    else if SubscriptError(items[0]).Some? then Some(0)
    else match FirstSubscriptError(items[1..])
      case None => None
      case Some(k) => Some(k + 1)
  }

  /** `[slot["start_time"] for slot in items]` when no item raises. */
  function AllStartTimes(items: seq<Json>): (r: seq<Json>)
    requires forall i | 0 <= i < |items| :: SubscriptError(items[i]).None?
    ensures |r| == |items| && forall i | 0 <= i < |items| :: Some(r[i]) == Get(items[i], "start_time")
  {
    if |items| == 0 then []
    else
      assert forall i | 1 <= i < |items| :: items[i] == items[1..][i - 1];
      assert SubscriptError(items[0]).None?;
      assert HasKey(items[0], "start_time");
      var rest := AllStartTimes(items[1..]);
      var r := [GetOr(items[0], "start_time", JNull)] + rest;
      assert forall i | 1 <= i < |items| :: r[i] == rest[i - 1];
      r
  }

  /** The message of the `TypeError` that `for x in v` raises on a value that
      cannot be iterated. */
  function NotIterable(j: Json): string {
    "'" + TypeName(j) + "' object is not iterable"
  }

  function SlotNotAvailableText(status: int, text: string): string {
    "Slot not available (" + IntToString(status) + ")" + ".\n\nNext slots available:\n" + text
  }

  /** `check_gym_availability(target_date)`: on 200, Python's `str` of the list
      of every slot's start time; otherwise the status and the body. */
  function SimpleCheck(resp: Response): ToolOutcome {
    match resp
    case NetErr(m) => Raised(m)
    case Resp(status, body, text) =>
      if status != 200 then Returned(SlotNotAvailableText(status, text))
      else match Iterate(body)
        case None => Raised(NotIterable(body))
        case Some(slots) =>
          match FirstSubscriptError(slots)
          case Some(k) => Raised(SubscriptError(slots[k]).value)
          case None => Returned(Repr(JArr(AllStartTimes(slots))))
  }

  /** On a list of dicts that all have a start time, every start time is
      reported, in order and with none left out (the other copy of the tool
      cuts the list to five). */
  lemma SimpleCheckListsAll(items: seq<Json>, text: string)
    requires forall i | 0 <= i < |items| :: items[i].JObj? && HasKey(items[i], "start_time")
    ensures exists starts: seq<Json> ::
      (|starts| == |items| && (forall i | 0 <= i < |items| :: Some(starts[i]) == Get(items[i], "start_time"))
      && SimpleCheck(Resp(200, JArr(items), text)) == Returned(Repr(JArr(starts))))
  {
    var starts := AllStartTimes(items);
    assert SimpleCheck(Resp(200, JArr(items), text)) == Returned(Repr(JArr(starts)));
  }

  /** A dict slot without a start time makes the tool raise `KeyError`. */
  lemma SimpleCheckMissingKey(items: seq<Json>, text: string, k: nat)
    requires k < |items| && items[k].JObj? && !HasKey(items[k], "start_time")
    ensures SimpleCheck(Resp(200, JArr(items), text)).Raised?
  {
    assert SubscriptError(items[k]).Some?;
  }

  /** Any other status is reported with the full body. */
  lemma SimpleCheckStatus(status: int, body: Json, text: string)
    requires status != 200
    ensures SimpleCheck(Resp(status, body, text)).Returned?
    ensures StartsWith(SimpleCheck(Resp(status, body, text)).text, "Slot not available (" + IntToString(status) + ")")
    ensures EndsWith(SimpleCheck(Resp(status, body, text)).text, text)
  {
    var a := "Slot not available (" + IntToString(status) + ")";
    var b := ".\n\nNext slots available:\n";
    StartsWithHead(a, b);
    StartsWithMore(a + b, a, text);
    EndsWithTail(a + b, text);
  }

  /** What the tool returns or raises, and the booking request it sent. */
  datatype SimpleOutcome = SimpleOutcome(result: ToolOutcome, posted: Option<Json>)

  /** `[slot.get("start_time") for slot in items]` on dicts. */
  function StartsOf(items: seq<Json>): (r: seq<Json>)
    ensures |r| == |items| && forall i | 0 <= i < |items| :: r[i] == StartOf(items[i])
  {
    if |items| == 0 then [] else [StartOf(items[0])] + StartsOf(items[1..])
  }

  /** The reply when no slot with a truthy id was found: the first three
      start times, unless `.get` or `join` raises. */
  function SimpleNotAvailable(date: string, items: seq<Json>): ToolOutcome {
    match FirstNonDict(items)
    case Some(bad) => Raised(NoGet(bad))
    case None =>
      var all := StartsOf(items);
      var first := if |all| <= 3 then all else all[..3];
      match FirstNonStr(first)
      case Some(k) => Raised(JoinError(first, k))
      case None => Returned("Desired slot " + date + " is not available.\nNext available slots: " + Join(", ", Texts(first)))
  }

  /** The reply to the booking request. */
  function SimpleBooked(date: string, resp: Response): ToolOutcome {
    match resp
    case NetErr(m) => Raised(m)
    case Resp(status, data, text) =>
      if status == 201 then
        if data.JObj? then
          Returned("Booking successful: Slot ID " + Str(GetOr(data, "slot_id", JNull))
                   + ", Guest: " + Str(GetOr(data, "guest_name", JNull)) + ".")
        else Raised(NoGet(data))
      else if status == 409 then Returned("Booking conflict: The slot " + date + " is already booked or full.")
      else Returned("Booking failed (status " + IntToString(status) + "): " + text)
  }

  /** `book_gym_slot(booking_date, user_name)`. */
  function SimpleBook(date: string, user: string, avail: Response, book: Json -> Response): SimpleOutcome {
    match avail
    case NetErr(m) => SimpleOutcome(Raised(m), None)
    case Resp(status, body, _) =>
      if status != 200 then
        SimpleOutcome(Returned("Unable to check availability (status code: " + IntToString(status) + ")."), None)
      else match Iterate(body)
        case None => SimpleOutcome(Raised(NotIterable(body)), None)
        case Some(slots) =>
          match SlotSearch(slots, date)
          case NotDict(bad) => SimpleOutcome(Raised(NoGet(bad)), None)
          case NoMatch => SimpleOutcome(SimpleNotAvailable(date, slots), None)
          case Match(id) =>
            if !Truthy(id) then SimpleOutcome(SimpleNotAvailable(date, slots), None)
            else SimpleOutcome(SimpleBooked(date, book(Payload(id, user))), Some(Payload(id, user)))
  }

  /** Iterating a dict or a string gives strings, never dicts. */
  lemma IterateNonListGivesStrings(j: Json)
    ensures (j.JObj? || j.JStr?) ==> forall i | 0 <= i < |Iterate(j).value| :: !Iterate(j).value[i].JObj?
  {
  }

  /** As in the other copy, a booking is posted only after a 200 list whose
      first slot with exactly the requested start time has a truthy id. */
  lemma SimpleBookPostsOnlyExactMatch(date: string, user: string, avail: Response, book: Json -> Response)
    requires SimpleBook(date, user, avail, book).posted.Some?
    ensures avail.Resp? && avail.status == 200 && avail.body.JArr?
    ensures exists i :: (FirstMatchAt(avail.body.items, date, i) && Truthy(SlotIdOf(avail.body.items[i]))
      && SimpleBook(date, user, avail, book).posted == Some(Payload(SlotIdOf(avail.body.items[i]), user)))
  {
    var slots := Iterate(avail.body).value;
    SlotSearchMatch(slots, date);
    IterateNonListGivesStrings(avail.body);
  }

  /** A failed availability request sends no booking. */
  lemma SimpleBookNeedsAvailability(date: string, user: string, status: int, body: Json, text: string,
                                    book: Json -> Response)
    requires status != 200
    ensures SimpleBook(date, user, Resp(status, body, text), book)
      == SimpleOutcome(Returned("Unable to check availability (status code: " + IntToString(status) + ")."), None)
  {
  }

  /** Without an exact match the reply offers the first three start times,
      whether or not those slots are free. */
  lemma SimpleBookNoMatchSuggests(date: string, user: string, items: seq<Json>, text: string, book: Json -> Response)
    requires SlotSearch(items, date) == NoMatch
    requires forall i | 0 <= i < |items| :: StartOf(items[i]).JStr?
    ensures var first := StartsOf(items)[..if |items| <= 3 then |items| else 3];
      (forall k | 0 <= k < |first| :: first[k].JStr?)
      && SimpleBook(date, user, Resp(200, JArr(items), text), book)
         == SimpleOutcome(Returned("Desired slot " + date + " is not available.\nNext available slots: "
                                   + Join(", ", Texts(first))), None)
  {
    SlotSearchNoMatch(items, date);
    var all := StartsOf(items);
    assert all == all[..|items|];
  }
}
