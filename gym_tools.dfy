// The two gym tools of src/agents/modules/tools.py (the same logic, without
// the metric calls, is in src/agents/agent/tool_agent.py): how they read the
// availability service's answer and when they post a booking. The HTTP
// exchanges are inputs; `json.dumps` is a parameter.
module GymTools {
  import opened Wrappers
  import opened Strings
  import opened JsonValue
  import opened Messages
  import opened BookingContext

  /** One HTTP exchange as a handler sees it: the `requests` exception (its
      text), or the status, the decoded JSON body and the raw text. */
  datatype Response = NetErr(message: string) | Resp(status: int, body: Json, text: string)

  /** `slot.get("start_time")` on a dict. */
  function StartOf(slot: Json): Json {
    GetOr(slot, "start_time", JNull)
  }

  /** `slot.get("slot_id")` on a dict. */
  function SlotIdOf(slot: Json): Json {
    GetOr(slot, "slot_id", JNull)
  }

  /** The first item that is not a dict, on which `.get` raises. */
  function FirstNonDict(items: seq<Json>): (r: Option<Json>)
    ensures r.None? <==> forall i | 0 <= i < |items| :: items[i].JObj?
    ensures r.Some? ==> !r.value.JObj? && r.value in items
  {
    if |items| == 0 then None
    else if !items[0].JObj? then Some(items[0])
    else FirstNonDict(items[1..])
  }

  /** The message of the `AttributeError` that `.get` on a non-dict raises. */
  function NoGet(bad: Json): string {
    "'" + TypeName(bad) + "' object has no attribute 'get'"
  }

  /** `[s.get("start_time") for s in items if s.get("start_time")]`: the truthy
      start times, from the items that have one, in the items' order. */
  function StartTimes(items: seq<Json>): (r: seq<Json>)
    ensures |r| <= |items|
    ensures forall k | 0 <= k < |r| :: Truthy(r[k])
    ensures forall i | 0 <= i < |items| && Truthy(StartOf(items[i])) :: StartOf(items[i]) in r
    ensures forall t | t in r :: exists i | 0 <= i < |items| :: StartOf(items[i]) == t
  {
    if |items| == 0 then []
    else
      var rest := StartTimes(items[1..]);
      assert forall i | 1 <= i < |items| :: items[i] == items[1..][i - 1];
      (if Truthy(StartOf(items[0])) then [StartOf(items[0])] else []) + rest
  }

  /** The same list cut to its first `n` entries (`[:n]`). */
  function FirstStartTimes(items: seq<Json>, n: nat): (r: seq<Json>)
    ensures |r| <= n && |r| <= |StartTimes(items)|
    ensures r == StartTimes(items)[..|r|]
    ensures |r| < n ==> r == StartTimes(items)
  {
    var all := StartTimes(items);
    if |all| <= n then all else all[..n]
  }

  // ---- check_gym_availability ----

  function AvailableText(target: string, listed: string): string {
    "El horario " + target + " " + FreePhrase + ". Otros horarios cercanos disponibles: " + listed
  }

  function FoundText(target: string, listed: string): string {
    FoundPhrase + " para el gimnasio cerca de " + target + ": " + listed
  }

  function NoStartTimeText(target: string, dumped: string): string {
    "No se encontraron horarios específicos " + "con 'start_time' en la respuesta para " + target
    + ". Respuesta API: " + Take(dumped, 200)
  }

  function EmptyListText(target: string): string {
    NoSlotsPhrase + " en el gimnasio para la fecha " + "y hora especificadas (" + target + ")."
  }

  function MalformedListText(dumped: string): string {
    "Respuesta inesperada del API de " + "disponibilidad (no es una lista de " + "slots o está malformada): "
    + Take(dumped, 200)
  }

  function CheckStatusText(target: string, status: int, text: string): string {
    "No se pudo verificar la disponibilidad " + "para el gimnasio en " + target + " " + "(código: "
    + IntToString(status) + ")" + ". Respuesta API: " + Take(text, 200)
  }

  function CheckNetText(message: string): string {
    "Error de red al verificar " + "disponibilidad del gimnasio: " + message
  }

  function CheckCrashText(message: string): string {
    "Error inesperado al verificar " + "disponibilidad del gimnasio: " + message
  }

  /** `check_gym_availability(target_date)` given the service's answer. */
  function CheckAvailability(target: string, resp: Response, dumps: Json -> string): string {
    match resp
    case NetErr(m) => CheckNetText(m)
    case Resp(status, body, text) =>
      if status != 200 then CheckStatusText(target, status, text)
      else if body.JArr? && |body.items| > 0 then
        match FirstNonDict(body.items)
        case Some(bad) => CheckCrashText(NoGet(bad))
        case None =>
          var starts := FirstStartTimes(body.items, 5);
          if |starts| == 0 then NoStartTimeText(target, dumps(body))
          else if JStr(target) in starts then AvailableText(target, dumps(JArr(starts)))
          else FoundText(target, dumps(JArr(starts)))
      else if body.JArr? then EmptyListText(target)
      else MalformedListText(dumps(body))
  }

  /** A list of dicts of which at least one has a start time. */
  predicate ListsSlots(resp: Response) {
    resp.Resp? && resp.status == 200 && resp.body.JArr?
    && FirstNonDict(resp.body.items).None? && |StartTimes(resp.body.items)| > 0
  }

  /** On such a list the reply names at most the first five start times, and
      it says that the requested time is free exactly when that time is among
      those five. */
  lemma CheckAvailableIff(target: string, resp: Response, dumps: Json -> string)
    requires ListsSlots(resp)
    ensures var starts := FirstStartTimes(resp.body.items, 5);
      |starts| <= 5
      && (StartsWith(CheckAvailability(target, resp, dumps), "El horario " + target + " " + FreePhrase)
          <==> JStr(target) in starts)
      && EndsWith(CheckAvailability(target, resp, dumps), dumps(JArr(starts)))
  {
    var listed := dumps(JArr(FirstStartTimes(resp.body.items, 5)));
    ListedText(target, resp, dumps);
    AvailableTextShape(target, listed);
    FoundTextShape(target, listed);
  }

  /** On a list with start times the reply is one of the two texts that name
      them. */
  lemma ListedText(target: string, resp: Response, dumps: Json -> string)
    requires ListsSlots(resp)
    ensures var starts := FirstStartTimes(resp.body.items, 5);
      CheckAvailability(target, resp, dumps)
      == if JStr(target) in starts then AvailableText(target, dumps(JArr(starts)))
         else FoundText(target, dumps(JArr(starts)))
  {
    assert |FirstStartTimes(resp.body.items, 5)| > 0;
  }

  lemma AvailableTextShape(target: string, listed: string)
    ensures StartsWith(AvailableText(target, listed), "El horario " + target + " " + FreePhrase)
    ensures EndsWith(AvailableText(target, listed), listed)
    ensures Contains(AvailableText(target, listed), FreePhrase)
  {
    var a := "El horario " + target + " ";
    var b := ". Otros horarios cercanos disponibles: ";
    StartsWithHead(a + FreePhrase, b);
    StartsWithMore(a + FreePhrase + b, a + FreePhrase, listed);
    EndsWithTail(a + FreePhrase + b, listed);
    ContainsEnd(a, FreePhrase);
    ContainsMore(a + FreePhrase, FreePhrase, b);
    ContainsMore(a + FreePhrase + b, FreePhrase, listed);
  }

  lemma FoundTextShape(target: string, listed: string)
    ensures !StartsWith(FoundText(target, listed), "El horario " + target + " " + FreePhrase)
    ensures EndsWith(FoundText(target, listed), listed)
    ensures Contains(FoundText(target, listed), FoundPhrase)
  {
    var t := FoundText(target, listed);
    var a := " para el gimnasio cerca de ";
    StartsWithHead(FoundPhrase, a);
    StartsWithMore(FoundPhrase + a, FoundPhrase, target);
    StartsWithMore(FoundPhrase + a + target, FoundPhrase, ": ");
    StartsWithMore(FoundPhrase + a + target + ": ", FoundPhrase, listed);
    ContainsOfStartsWith(t, FoundPhrase);
    EndsWithTail(FoundPhrase + a + target + ": ", listed);
    assert t[0] == FoundPhrase[0] == 'H';
    assert ("El horario " + target + " " + FreePhrase)[0] == 'E';
  }

  /** A non-empty list none of whose dicts has a start time is reported as
      such, with at most 200 characters of the body. */
  lemma CheckNoStartTimes(target: string, resp: Response, dumps: Json -> string)
    requires resp.Resp? && resp.status == 200 && resp.body.JArr? && |resp.body.items| > 0
    requires forall i | 0 <= i < |resp.body.items| :: resp.body.items[i].JObj? && !Truthy(StartOf(resp.body.items[i]))
    ensures CheckAvailability(target, resp, dumps) == NoStartTimeText(target, dumps(resp.body))
  {
    NoStartTimes(resp.body.items);
  }

  lemma {:induction false} NoStartTimes(items: seq<Json>)
    requires forall i | 0 <= i < |items| :: !Truthy(StartOf(items[i]))
    ensures StartTimes(items) == []
  {
    if |items| > 0 {
      assert forall i | 0 <= i < |items[1..]| :: items[1..][i] == items[i + 1];
      NoStartTimes(items[1..]);
    }
  }

  /** A slot that is not a dict makes `.get` raise, wherever it is in the
      list: the reply is the unexpected-error text naming a non-dict item of
      the list. */
  lemma CheckNonDictSlot(target: string, resp: Response, dumps: Json -> string, k: nat)
    requires resp.Resp? && resp.status == 200 && resp.body.JArr?
    requires k < |resp.body.items| && !resp.body.items[k].JObj?
    ensures exists bad | bad in resp.body.items && !bad.JObj? ::
      CheckAvailability(target, resp, dumps) == CheckCrashText(NoGet(bad))
  {
    var bad := FirstNonDict(resp.body.items).value;
    assert CheckAvailability(target, resp, dumps) == CheckCrashText(NoGet(bad));
  }

  /** Any status other than 200 gives a text naming the status code, the
      target and the first 200 characters of the body. */
  lemma CheckReportsStatus(target: string, status: int, body: Json, text: string, dumps: Json -> string)
    requires status != 200
    ensures var r := CheckAvailability(target, Resp(status, body, text), dumps);
      Contains(r, "(código: " + IntToString(status) + ")") && EndsWith(r, Take(text, 200))
  {
    assert CheckAvailability(target, Resp(status, body, text), dumps) == CheckStatusText(target, status, text);
    StatusTextNamesCode(target, status, text);
  }

  lemma StatusTextNamesCode(target: string, status: int, text: string)
    ensures Contains(CheckStatusText(target, status, text), "(código: " + IntToString(status) + ")")
  {
    var a := "No se pudo verificar la disponibilidad " + "para el gimnasio en " + target + " ";
    var code := "(código: " + IntToString(status) + ")";
    ContainsTail3(a, "(código: ", IntToString(status), ")");
    var s := a + "(código: " + IntToString(status) + ")";
    ContainsMore(s, code, ". Respuesta API: ");
    ContainsMore(s + ". Respuesta API: ", code, Take(text, 200));
  }

  /** Python's `", ".join(xs)` over strings: the index and the type name of
      the first item that is not a string, which makes it raise. */
  function FirstNonStr(xs: seq<Json>): (r: Option<nat>)
    ensures r.None? <==> forall i | 0 <= i < |xs| :: xs[i].JStr?
    ensures r.Some? ==> r.value < |xs| && !xs[r.value].JStr? && forall i | 0 <= i < r.value :: xs[i].JStr?
  {
    if |xs| == 0 then None
    else if !xs[0].JStr? then Some(0)
    else match FirstNonStr(xs[1..])
      case None => None
      case Some(k) => Some(k + 1)
  }

  /** The texts of a list of strings. */
  function Texts(xs: seq<Json>): (r: seq<string>)
    requires forall i | 0 <= i < |xs| :: xs[i].JStr?
    ensures |r| == |xs| && forall i | 0 <= i < |xs| :: JStr(r[i]) == xs[i]
  {
    if |xs| == 0 then [] else [xs[0].s] + Texts(xs[1..])
  }

  /** The message of the `TypeError` that `str.join` raises. */
  function JoinError(xs: seq<Json>, k: nat): string
    requires k < |xs|
  {
    "sequence item " + NatToString(k) + ": expected str instance, " + TypeName(xs[k]) + " found"
  }

  // ---- book_gym_slot ----

  /** The outcome of the search loop `for slot in slots: ... break`. */
  datatype Search = Match(slotId: Json) | NoMatch | NotDict(item: Json)

  /** The loop as a function: the first dict whose start time is the requested
      one gives its `slot_id`; a non-dict before it makes `.get` raise. */
  function SlotSearch(items: seq<Json>, date: string): Search {
    if |items| == 0 then NoMatch
    else if !items[0].JObj? then NotDict(items[0])
    else if StartOf(items[0]) == JStr(date) then Match(SlotIdOf(items[0]))
    else SlotSearch(items[1..], date)
  }

  /** The loop, proved against `SlotSearch`. */
  method FindSlot(items: seq<Json>, date: string) returns (r: Search)
    ensures r == SlotSearch(items, date)
  {
    var i := 0;
    while i < |items|
      invariant 0 <= i <= |items|
      invariant SlotSearch(items, date) == SlotSearch(items[i..], date)
    {
      var slot := items[i];
      if !slot.JObj? {
        return NotDict(slot);
      }
      if StartOf(slot) == JStr(date) {
        return Match(SlotIdOf(slot));
      }
      assert items[i..][1..] == items[i + 1..];
      i := i + 1;
    }
    return NoMatch;
  }

  /** Item `i` is the first dict whose start time is `date`, and every item
      before it is a dict with another start time. */
  predicate FirstMatchAt(items: seq<Json>, date: string, i: int) {
    0 <= i < |items| && items[i].JObj? && StartOf(items[i]) == JStr(date)
    && forall j | 0 <= j < i :: items[j].JObj? && StartOf(items[j]) != JStr(date)
  }

  /** The search finds a slot exactly at the first exact match. */
  lemma {:induction false} SlotSearchMatch(items: seq<Json>, date: string)
    ensures SlotSearch(items, date).Match? ==>
      exists i :: FirstMatchAt(items, date, i) && SlotSearch(items, date).slotId == SlotIdOf(items[i])
    ensures forall i | FirstMatchAt(items, date, i) :: SlotSearch(items, date) == Match(SlotIdOf(items[i]))
  {
    if |items| > 0 {
      var rest := items[1..];
      SlotSearchMatch(rest, date);
      assert forall j | 0 <= j < |rest| :: rest[j] == items[j + 1];
      if items[0].JObj? && StartOf(items[0]) == JStr(date) {
        assert FirstMatchAt(items, date, 0);
      } else if items[0].JObj? {
        if SlotSearch(items, date).Match? {
          var i :| FirstMatchAt(rest, date, i) && SlotSearch(rest, date).slotId == SlotIdOf(rest[i]);
          assert FirstMatchAt(items, date, i + 1);
        }
        forall i | FirstMatchAt(items, date, i)
          ensures SlotSearch(items, date) == Match(SlotIdOf(items[i]))
        {
          assert i != 0;
          assert FirstMatchAt(rest, date, i - 1);
        }
      }
    }
  }

  /** No match means the loop went through the whole list: every item is a
      dict with another start time. */
  lemma {:induction false} SlotSearchNoMatch(items: seq<Json>, date: string)
    requires SlotSearch(items, date) == NoMatch
    ensures forall j | 0 <= j < |items| :: items[j].JObj? && StartOf(items[j]) != JStr(date)
  {
    if |items| > 0 {
      SlotSearchNoMatch(items[1..], date);
      assert forall j | 1 <= j < |items| :: items[j] == items[1..][j - 1];
    }
  }

  /** The JSON body of the booking request. */
  function Payload(slotId: Json, user: string): Json {
    JObj([Field("slot_id", slotId), Field("guest_name", JStr(user))])
  }

  /** The text the tool returns, and the booking request it sent, if any. */
  datatype BookOutcome = BookOutcome(text: string, posted: Option<Json>)

  function BookNetText(message: string): string {
    "Error de red al intentar " + "reservar el gimnasio: " + message
  }

  function BookCrashText(message: string): string {
    "Error inesperado al intentar " + "reservar el gimnasio: " + message
  }

  function NotConfirmedText(date: string, status: int): string {
    "No se pudo confirmar la disponibilidad " + "del horario " + date + " antes de intentar la reserva (Error API: "
    + IntToString(status) + ")."
  }

  function BadFormatText(date: string): string {
    "No se pudo confirmar la disponibilidad " + "del horario " + date + " (formato de respuesta incorrecto)."
  }

  const CheckFirstHint := " Por favor, primero verifica la " + "disponibilidad general con " + "'check_gym_availability'."

  function NotAvailableText(date: string, suggestions: seq<string>): string {
    "El horario deseado " + date + " no está disponible o no se pudo confirmar."
    + (if |suggestions| == 0 then "" else " Horarios alternativos cercanos " + "podrían ser: " + Join(", ", suggestions) + ".")
    + CheckFirstHint
  }

  /** The reply when no slot with a truthy id was found: up to three start
      times as suggestions, unless `.get` or `join` raises on the way. */
  function NotAvailable(date: string, items: seq<Json>): string {
    match FirstNonDict(items)
    case Some(bad) => BookCrashText(NoGet(bad))
    case None =>
      var suggestions := FirstStartTimes(items, 3);
      match FirstNonStr(suggestions)
      case Some(k) => BookCrashText(JoinError(suggestions, k))
      case None => NotAvailableText(date, Texts(suggestions))
  }

  /** What the reply shows for a booking answer without "booking_id". */
  const MissingId := "No proporcionado"

  function SuccessText(date: string, data: Json): string {
    "Reserva exitosa para " + Str(GetOr(data, "guest_name", JNull)) + " en el gimnasio. "
    + "ID de la reserva: " + Str(GetOr(data, "booking_id", JStr(MissingId)))
    + ", Slot ID: " + Str(GetOr(data, "slot_id", JNull)) + ", Hora: " + date + "."
  }

  function ConflictText(date: string, slotId: Json): string {
    "Conflicto de reserva: El horario " + date + " (slot ID: " + Str(slotId) + ") ya está reservado o lleno."
  }

  function FailedText(status: int, text: string): string {
    "Fallo la reserva del gimnasio (código " + IntToString(status) + "): " + Take(text, 200)
  }

  /** The reply to the booking request. */
  function BookedText(date: string, slotId: Json, resp: Response): string {
    match resp
    case NetErr(m) => BookNetText(m)
    case Resp(status, data, text) =>
      if status == 201 then (if data.JObj? then SuccessText(date, data) else BookCrashText(NoGet(data)))
      else if status == 409 then ConflictText(date, slotId)
      else FailedText(status, text)
  }

  /** `book_gym_slot(booking_date, user_name)`: `avail` is the answer to the
      availability request, `book` the booking service seen as a function of
      the request body. */
  function BookGymSlot(date: string, user: string, avail: Response, book: Json -> Response): BookOutcome {
    match avail
    case NetErr(m) => BookOutcome(BookNetText(m), None)
    case Resp(status, body, _) =>
      if status != 200 then BookOutcome(NotConfirmedText(date, status), None)
      else if !body.JArr? then BookOutcome(BadFormatText(date), None)
      else match SlotSearch(body.items, date)
        case NotDict(bad) => BookOutcome(BookCrashText(NoGet(bad)), None)
        case NoMatch => BookOutcome(NotAvailable(date, body.items), None)
        case Match(id) =>
          if !Truthy(id) then BookOutcome(NotAvailable(date, body.items), None)
          else
            var payload := Payload(id, user);
            BookOutcome(BookedText(date, id, book(payload)), Some(payload))
  }

  /** A booking is posted only after a 200 list whose first slot with exactly
      the requested start time has a truthy id; that id and the user's name
      are what is posted. */
  lemma BookPostsOnlyExactMatch(date: string, user: string, avail: Response, book: Json -> Response)
    requires BookGymSlot(date, user, avail, book).posted.Some?
    ensures avail.Resp? && avail.status == 200 && avail.body.JArr?
    ensures exists i :: (FirstMatchAt(avail.body.items, date, i) && Truthy(SlotIdOf(avail.body.items[i]))
      && BookGymSlot(date, user, avail, book).posted == Some(Payload(SlotIdOf(avail.body.items[i]), user)))
  {
    SlotSearchMatch(avail.body.items, date);
  }

  /** Conversely, such a slot is always booked. */
  lemma BookPostsOnExactMatch(date: string, user: string, items: seq<Json>, text: string,
                              book: Json -> Response, i: int)
    requires FirstMatchAt(items, date, i) && Truthy(SlotIdOf(items[i]))
    ensures BookGymSlot(date, user, Resp(200, JArr(items), text), book).posted == Some(Payload(SlotIdOf(items[i]), user))
  {
    SlotSearchMatch(items, date);
  }

  /** Without an exact match the reply is the not-available text with at most
      three of the listed start times, in their order. */
  lemma BookNoMatchSuggests(date: string, user: string, items: seq<Json>, text: string, book: Json -> Response)
    requires SlotSearch(items, date) == NoMatch
    requires forall i | 0 <= i < |items| :: StartOf(items[i]).JStr?
    ensures var suggestions := FirstStartTimes(items, 3);
      |suggestions| <= 3 && (forall k | 0 <= k < |suggestions| :: suggestions[k].JStr?)
      && BookGymSlot(date, user, Resp(200, JArr(items), text), book)
         == BookOutcome(NotAvailableText(date, Texts(suggestions)), None)
  {
    SlotSearchNoMatch(items, date);
    SuggestionsAreStrings(items);
    assert FirstNonDict(items).None?;
    assert FirstNonStr(FirstStartTimes(items, 3)).None?;
  }

  lemma SuggestionsAreStrings(items: seq<Json>)
    requires forall i | 0 <= i < |items| :: StartOf(items[i]).JStr?
    ensures forall k | 0 <= k < |FirstStartTimes(items, 3)| :: FirstStartTimes(items, 3)[k].JStr?
  {
    var suggestions := FirstStartTimes(items, 3);
    forall k | 0 <= k < |suggestions|
      ensures suggestions[k].JStr?
    {
      assert suggestions[k] in StartTimes(items);
    }
  }

  /** The booking service of src/api/api-services/app.py answers a booking
      with its id under "id", not "booking_id", so the reply always shows the
      default. */
  lemma BookingIdShowsDefault(date: string, slotId: Json, data: Json, text: string)
    requires data.JObj? && !HasKey(data, "booking_id")
    ensures Contains(BookedText(date, slotId, Resp(201, data, text)), "ID de la reserva: " + MissingId)
  {
    var a := "Reserva exitosa para " + Str(GetOr(data, "guest_name", JNull)) + " en el gimnasio. ";
    var head, id := "ID de la reserva: ", MissingId;
    var slot := Str(GetOr(data, "slot_id", JNull));
    assert Str(GetOr(data, "booking_id", JStr(id))) == id;
    ContainsTail(a, head, id);
    var s := a + head + id;
    ContainsMore(s, head + id, ", Slot ID: ");
    ContainsMore(s + ", Slot ID: ", head + id, slot);
    ContainsMore(s + ", Slot ID: " + slot, head + id, ", Hora: ");
    ContainsMore(s + ", Slot ID: " + slot + ", Hora: ", head + id, date);
    ContainsMore(s + ", Slot ID: " + slot + ", Hora: " + date, head + id, ".");
    assert BookedText(date, slotId, Resp(201, data, text)) == SuccessText(date, data);
    assert SuccessText(date, data) == s + ", Slot ID: " + slot + ", Hora: " + date + ".";
  }

  // ---- what the state update after a tool makes of these texts ----

  /** An empty list gives the text that makes the update after the tool clear
      the offered slot and the pending flag (for a target written as an ISO
      timestamp, which holds neither 'H' nor 'á'). */
  lemma CheckEmptyClearsSlot(c: Context, ms: seq<Message>, target: string, text: string,
                             dumps: Json -> string, id: string)
    requires 'H' !in target && 'á' !in target
    ensures var reply := Tool(CheckAvailability(target, Resp(200, JArr([]), text), dumps), id, Some(CheckToolName));
      AfterTool(c, ms + [reply]) == Context(JNull, c.name, false)
  {
    var t := EmptyListText(target);
    assert CheckAvailability(target, Resp(200, JArr([]), text), dumps) == t;
    EmptyListTextReportsNoSlots(target);
    AfterToolNoSlots(c, ms + [Tool(t, id, Some(CheckToolName))]);
  }

  lemma EmptyListTextReportsNoSlots(target: string)
    requires 'H' !in target && 'á' !in target
    ensures !ReportsSlots(EmptyListText(target)) && ReportsNoSlots(EmptyListText(target))
  {
    var t := EmptyListText(target);
    EmptyListTextLacks(target);
    PhrasesHold();
    NotContainsMissingChar(t, FoundPhrase, 'H');
    NotContainsMissingChar(t, FreePhrase, 'á');
    EmptyListTextStarts(target);
    ContainsOfStartsWith(t, NoSlotsPhrase);
  }

  lemma EmptyListTextLacks(target: string)
    requires 'H' !in target && 'á' !in target
    ensures 'H' !in EmptyListText(target) && 'á' !in EmptyListText(target)
  {
    var a, b, c, d := NoSlotsPhrase, " en el gimnasio para la fecha ", "y hora especificadas (", ").";
    forall x | x == 'H' || x == 'á'
      ensures x !in a + b + c + target + d
    {
      EmptyListPiecesLack(x);
      NotInConcat(x, a, b);
      NotInConcat(x, a + b, c);
      NotInConcat(x, a + b + c, target);
      NotInConcat(x, a + b + c + target, d);
    }
  }

  lemma EmptyListTextStarts(target: string)
    ensures StartsWith(EmptyListText(target), NoSlotsPhrase)
  {
    var a, b, c, d := NoSlotsPhrase, " en el gimnasio para la fecha ", "y hora especificadas (", ").";
    StartsWithHead(a, b);
    StartsWithMore(a + b, a, c);
    StartsWithMore(a + b + c, a, target);
    StartsWithMore(a + b + c + target, a, d);
  }

  lemma EmptyListPiecesLack(x: char)
    requires x == 'H' || x == 'á'
    ensures x !in NoSlotsPhrase && x !in " en el gimnasio para la fecha "
    ensures x !in "y hora especificadas (" && x !in ")."
  {
    Lacks1(); Lacks2(); Lacks3();
  }

  lemma Lacks1() ensures 'H' !in NoSlotsPhrase && 'á' !in NoSlotsPhrase { }

  /** The letters the empty-list text is told apart by. */
  lemma PhrasesHold() ensures 'H' in FoundPhrase && 'á' in FreePhrase { }
  lemma Lacks2() ensures 'H' !in " en el gimnasio para la fecha " && 'á' !in " en el gimnasio para la fecha " { }
  lemma Lacks3() ensures 'H' !in "y hora especificadas (" && 'á' !in "y hora especificadas (" { }

  /** A list with start times, answering a model message whose first call asked
      for `target`, makes the update offer `target` and await confirmation,
      whether or not `target` itself was listed. */
  lemma CheckFoundOffersDate(c: Context, ms: seq<Message>, target: string, resp: Response,
                             dumps: Json -> string, id: string)
    requires ListsSlots(resp) && |target| > 0
    requires |ms| > 0 && HasToolCalls(ms[|ms| - 1])
    requires GetOr(ms[|ms| - 1].toolCalls[0].args, "target_date", JNull) == JStr(target)
    ensures var reply := Tool(CheckAvailability(target, resp, dumps), id, Some(CheckToolName));
      AfterTool(c, ms + [reply]) == Context(JStr(target), c.name, true)
  {
    ListedReportsSlots(target, resp, dumps);
    ReportOffersCallerDate(c, ms, target, CheckAvailability(target, resp, dumps), id);
  }

  lemma ListedReportsSlots(target: string, resp: Response, dumps: Json -> string)
    requires ListsSlots(resp)
    ensures ReportsSlots(CheckAvailability(target, resp, dumps))
  {
    var listed := dumps(JArr(FirstStartTimes(resp.body.items, 5)));
    ListedText(target, resp, dumps);
    AvailableTextShape(target, listed);
    FoundTextShape(target, listed);
  }

  lemma ReportOffersCallerDate(c: Context, ms: seq<Message>, target: string, t: string, id: string)
    requires ReportsSlots(t) && |target| > 0
    requires |ms| > 0 && HasToolCalls(ms[|ms| - 1])
    requires GetOr(ms[|ms| - 1].toolCalls[0].args, "target_date", JNull) == JStr(target)
    ensures AfterTool(c, ms + [Tool(t, id, Some(CheckToolName))]) == Context(JStr(target), c.name, true)
  {
    var all := ms + [Tool(t, id, Some(CheckToolName))];
    assert all[|all| - 2] == ms[|ms| - 1];
    AfterToolOffersQueriedDate(c, all, JStr(target));
  }
}
