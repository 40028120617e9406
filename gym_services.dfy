// The gym and sauna booking API: src/api/api-services/app.py (availability
// by POST, with an exact-time and a per-day lookup) and
// src/api/api-servicies/app.py (availability by GET, per day), both with the
// same `create_booking`. The database is three tables held in memory:
// services, slots and bookings. Parsing an ISO date or date-time is a
// parameter of the model.
module GymServices {
  import opened Wrappers
  import opened JsonValue

  // ---- tables ----

  datatype Service = Service(id: int, name: string)

  /** A slot; `start` counts seconds from midnight of day 0. */
  datatype Slot = Slot(id: int, serviceId: int, start: int, capacity: int)

  datatype Booking = Booking(id: int, slotId: int, guest: string)

  /** One entry of an availability answer. */
  datatype SlotInfo = SlotInfo(slotId: int, start: int, total: int, current: int, available: int)

  /** What an endpoint answers: an error with its status, a list of slots
      (200), a created booking (201), or an exception Flask turns into 500. */
  datatype Reply =
    | Fail(status: int, error: string)
    | Listed(items: seq<SlotInfo>)
    | Booked(booking: Booking)
    | Crashed

  const SecondsPerDay := 86400
  /** The opening hour, `time(hour=8)`. */
  const OpenHour := 8
  /** The closing hour, `time(hour=21)`; a slot starting then is left out. */
  const CloseHour := 21
  /** `.limit(3)` of the POST per-day lookup. */
  const DayLimit := 3

  function DayOpen(day: int): int { day * SecondsPerDay + OpenHour * 3600 }
  function DayClose(day: int): int { day * SecondsPerDay + CloseHour * 3600 }

  const UnknownServicePost := "Servicio no encontrado. Use 'gimnasio' o 'sauna'."
  const UnknownServiceGet := "Servicio no encontrado. Pruebe 'gimnasio' o 'sauna'."
  const StartRequired := "El campo 'start_time' es obligatorio."
  const BadStart := "Formato inválido para 'start_time'. Use YYYY-MM-DD o YYYY-MM-DDThh:mm:ss"
  const DayRequired := "El parámetro 'day' (YYYY-MM-DD) es obligatorio."
  const BadDay := "Formato de fecha inválido. Use YYYY-MM-DD."
  const NotJson := "Cuerpo de la petición debe ser JSON."
  const Invalid := "Datos de entrada inválidos"
  const NoSuchSlot := "La franja horaria (slot) no existe."
  const SlotFull := "No hay huecos disponibles en esta franja horaria."

  predicate KnownService(name: string) {
    name == "gimnasio" || name == "sauna"
  }

  // ---- queries ----

  /** The number of bookings of a slot: `count(Booking.id)` over the outer join. */
  function Count(bookings: seq<Booking>, slotId: int): (r: nat)
    ensures r <= |bookings|
  {
    if |bookings| == 0 then 0
    else Count(bookings[..|bookings| - 1], slotId) + (if bookings[|bookings| - 1].slotId == slotId then 1 else 0)
  }

  /** A slot with what is left of it. */
  function InfoOf(s: Slot, bookings: seq<Booking>): SlotInfo {
    SlotInfo(s.id, s.start, s.capacity, Count(bookings, s.id), s.capacity - Count(bookings, s.id))
  }

  function Infos(rows: seq<Slot>, bookings: seq<Booking>): (r: seq<SlotInfo>)
    ensures |r| == |rows| && forall i | 0 <= i < |rows| :: r[i] == InfoOf(rows[i], bookings)
  {
    if |rows| == 0 then [] else Infos(rows[..|rows| - 1], bookings) + [InfoOf(rows[|rows| - 1], bookings)]
  }

  /** The join with `services` on the service's name. */
  predicate OfService(services: seq<Service>, name: string, s: Slot) {
    exists k | 0 <= k < |services| :: services[k].id == s.serviceId && services[k].name == name
  }

  /** The slots of a service whose start lies in `[lo, hi)`, in table order. */
  function Between(services: seq<Service>, name: string, lo: int, hi: int, slots: seq<Slot>): (r: seq<Slot>)
    ensures |r| <= |slots|
    ensures forall x | x in r :: x in slots && OfService(services, name, x) && lo <= x.start < hi
    ensures forall x | x in slots && OfService(services, name, x) && lo <= x.start < hi :: x in r
    ensures multiset(r) <= multiset(slots)
  {
    if |slots| == 0 then []
    else
      var init := slots[..|slots| - 1];
      var last := slots[|slots| - 1];
      assert slots == init + [last];
      var r := Between(services, name, lo, hi, init);
      if OfService(services, name, last) && lo <= last.start < hi then r + [last] else r
  }

  /** The first slot of a service that starts exactly at `t`: `.first()`
      with no ordering, taken as table order. */
  function SlotAt(services: seq<Service>, name: string, t: int, slots: seq<Slot>): (r: Option<Slot>)
    ensures r.Some? ==> r.value in slots && OfService(services, name, r.value) && r.value.start == t
    ensures r.None? <==> forall s | s in slots :: !(OfService(services, name, s) && s.start == t)
  {
    if |slots| == 0 then None
    else if OfService(services, name, slots[0]) && slots[0].start == t then Some(slots[0])
    else
      var r := SlotAt(services, name, t, slots[1..]);
      assert forall s | s in slots :: s == slots[0] || s in slots[1..];
      r
  }

  // ---- ordering by start ----

  predicate Ascending(s: seq<Slot>) {
    forall i, j | 0 <= i < j < |s| :: s[i].start <= s[j].start
  }

  /** Puts `x` after every slot that does not start later. */
  function InsertByStart(x: Slot, s: seq<Slot>): (r: seq<Slot>)
    ensures multiset(r) == multiset(s) + multiset{x}
    ensures |r| == |s| + 1
    ensures r[0] == x || (|s| > 0 && r[0] == s[0])
  {
    if |s| == 0 then [x]
    else if x.start < s[0].start then [x] + s
    else
      assert s == [s[0]] + s[1..];
      [s[0]] + InsertByStart(x, s[1..])
  }

  lemma {:induction false} InsertByStartAscending(x: Slot, s: seq<Slot>)
    requires Ascending(s)
    ensures Ascending(InsertByStart(x, s))
    decreases |s|
  {
    if |s| > 0 {
      if x.start < s[0].start {
        ConsAscending(x, s);
      } else {
        assert Ascending(s[1..]) by {
          assert forall i | 0 <= i < |s| - 1 :: s[1..][i] == s[i + 1];
        }
        InsertByStartAscending(x, s[1..]);
        var rest := InsertByStart(x, s[1..]);
        assert rest[0] == x || rest[0] == s[1];
        ConsAscending(s[0], rest);
      }
    }
  }

  /** An ascending list stays ascending under a head that starts no later than its first. */
  lemma ConsAscending(a: Slot, r: seq<Slot>)
    requires Ascending(r)
    requires |r| > 0 ==> a.start <= r[0].start
    ensures Ascending([a] + r)
  {
    var t := [a] + r;
    forall i, j | 0 <= i < j < |t|
      ensures t[i].start <= t[j].start
    {
      if i > 0 {
        assert t[i] == r[i - 1] && t[j] == r[j - 1];
      } else {
        assert t[j] == r[j - 1];
      }
    }
  }

  /** `.order_by(Slot.start_time)`; slots with the same start keep table order. */
  function SortByStart(s: seq<Slot>): (r: seq<Slot>)
    ensures multiset(r) == multiset(s) && |r| == |s|
  {
    if |s| == 0 then []
    else
      assert s == s[..|s| - 1] + [s[|s| - 1]];
      InsertByStart(s[|s| - 1], SortByStart(s[..|s| - 1]))
  }

  lemma {:induction false} SortByStartAscending(s: seq<Slot>)
    ensures Ascending(SortByStart(s))
  {
    if |s| > 0 {
      SortByStartAscending(s[..|s| - 1]);
      InsertByStartAscending(s[|s| - 1], SortByStart(s[..|s| - 1]));
    }
  }

  /** The slots of a service on a day, between 08:00 and 21:00, earliest first. */
  function DaySlots(services: seq<Service>, name: string, day: int, slots: seq<Slot>): seq<Slot> {
    SortByStart(Between(services, name, DayOpen(day), DayClose(day), slots))
  }

  function TakeAtMost<T>(s: seq<T>, n: nat): (r: seq<T>)
    ensures |r| == if |s| <= n then |s| else n
    ensures forall i | 0 <= i < |r| :: r[i] == s[i]
  {
    if |s| <= n then s else s[..n]
  }

  // ---- the availability endpoints ----

  /** `POST /availability` (src/api/api-services/app.py). The body is read
      with `get_json(silent=True) or {}`; a truthy body that is not a dict
      makes `.get` raise. A truthy `start_time` that is not a string makes
      `in` or `fromisoformat` raise `TypeError`. */
  function PostAvailability(services: seq<Service>, slots: seq<Slot>, bookings: seq<Booking>, body: Json,
                            parseDateTime: string -> Option<int>, parseDate: string -> Option<int>): Reply
  {
    var data := if Truthy(body) then body else JObj([]);
    if !data.JObj? then Crashed
    else
      var name := GetOr(data, "service_name", JNull);
      var start := GetOr(data, "start_time", JNull);
      if name != JStr("gimnasio") && name != JStr("sauna") then Fail(404, UnknownServicePost)
      else if !Truthy(start) then Fail(400, StartRequired)
      else if !start.JStr? then Crashed
      else if 'T' in start.s then
        match parseDateTime(start.s)
        case None => Fail(400, BadStart)
        case Some(t) =>
          match SlotAt(services, name.s, t, slots)
          case None => Listed([])
          case Some(s) => Listed([InfoOf(s, bookings)])
      else
        match parseDate(start.s)
        case None => Fail(400, BadStart)
        case Some(day) => Listed(Infos(TakeAtMost(DaySlots(services, name.s, day, slots), DayLimit), bookings))
  }

  /** `GET /<service_name>/availability?day=...` (src/api/api-servicies/app.py). */
  function GetAvailability(services: seq<Service>, slots: seq<Slot>, bookings: seq<Booking>, service: string,
                           day: Option<string>, parseDate: string -> Option<int>): Reply
  {
    if !KnownService(service) then Fail(404, UnknownServiceGet)
    else if day.None? || |day.value| == 0 then Fail(400, DayRequired)
    else match parseDate(day.value)
      case None => Fail(400, BadDay)
      case Some(d) => Listed(Infos(DaySlots(services, service, d, slots), bookings))
  }

  // ---- booking ----

  /** Pydantic's lax `int`: integers, booleans, and strings it can read as
      an integer (`intOfStr`). */
  function IntField(j: Json, intOfStr: string -> Option<int>): Option<int> {
    match j
    case JNum(n) => Some(n)
    case JBool(b) => Some(if b then 1 else 0)
    case JStr(s) => intOfStr(s)
    case _ => None
  }

  /** `BookingCreate.model_validate(json_data)`: the slot id and the guest name. */
  function ValidateBooking(body: Json, intOfStr: string -> Option<int>): Option<(int, string)> {
    var slotId := IntField(GetOr(body, "slot_id", JNull), intOfStr);
    var guest := GetOr(body, "guest_name", JNull);
    if body.JObj? && slotId.Some? && guest.JStr? then Some((slotId.value, guest.s)) else None
  }

  /** `.filter(Slot.id == slot_id).first()`. */
  function FindSlot(slots: seq<Slot>, id: int): (r: Option<Slot>)
    ensures r.Some? ==> r.value in slots && r.value.id == id
    ensures r.None? <==> forall i | 0 <= i < |slots| :: slots[i].id != id
  {
    if |slots| == 0 then None
    else if slots[0].id == id then Some(slots[0])
    else
      var r := FindSlot(slots[1..], id);
      assert forall i | 1 <= i < |slots| :: slots[i] == slots[1..][i - 1];
      r
  }

  /** `POST /booking`: what it answers; on 201 the new booking, with the next id. */
  function CreateBookingReply(slots: seq<Slot>, bookings: seq<Booking>, nextId: int, body: Json,
                              intOfStr: string -> Option<int>): Reply
  {
    if !Truthy(body) then Fail(400, NotJson)
    else match ValidateBooking(body, intOfStr)
      case None => Fail(422, Invalid)
      case Some((slotId, guest)) =>
        match FindSlot(slots, slotId)
        case None => Fail(404, NoSuchSlot)
        case Some(s) =>
          if Count(bookings, s.id) >= s.capacity then Fail(409, SlotFull)
          else Booked(Booking(nextId, slotId, guest))
  }

  /** Slot ids are a primary key. */
  predicate UniqueSlotIds(slots: seq<Slot>) {
    forall i, j | 0 <= i < j < |slots| :: slots[i].id != slots[j].id
  }

  /** No slot holds more bookings than its capacity. */
  predicate WithinCapacity(slots: seq<Slot>, bookings: seq<Booking>) {
    forall i | 0 <= i < |slots| :: Count(bookings, slots[i].id) <= slots[i].capacity
  }

  /** Every booking id was handed out before `nextId`. */
  predicate IdsBelow(bookings: seq<Booking>, nextId: int) {
    forall k | 0 <= k < |bookings| :: bookings[k].id < nextId
  }

  predicate TablesValid(slots: seq<Slot>, bookings: seq<Booking>, nextId: int) {
    UniqueSlotIds(slots) && WithinCapacity(slots, bookings) && IdsBelow(bookings, nextId)
  }

  /** The database: the three tables and the next booking id. */
  class GymDb {
    var services: seq<Service>
    var slots: seq<Slot>
    var bookings: seq<Booking>
    var nextId: int

    ghost predicate Valid()
      reads this
    {
      TablesValid(slots, bookings, nextId)
    }

    constructor(services: seq<Service>, slots: seq<Slot>)
      requires UniqueSlotIds(slots) && forall i | 0 <= i < |slots| :: slots[i].capacity >= 0
      ensures this.services == services && this.slots == slots && bookings == [] && nextId == 1
      ensures Valid()
    {
      this.services := services;
      this.slots := slots;
      bookings := [];
      nextId := 1;
    }

    /** The loop that turns the query's rows into the answer's entries. */
    method Collect(rows: seq<Slot>) returns (items: seq<SlotInfo>)
      ensures items == Infos(rows, bookings)
    {
      items := [];
      var i := 0;
      while i < |rows|
        invariant 0 <= i <= |rows|
        invariant items == Infos(rows[..i], bookings)
      {
        assert rows[..i + 1][..i] == rows[..i];
        items := items + [InfoOf(rows[i], bookings)];
        i := i + 1;
      }
      assert rows[..i] == rows;
    }

    /** `POST /availability`: the exact-time lookup answers at most one
        entry; the per-day lookup runs the loop over the first three rows. */
    method PostServiceAvailability(body: Json, parseDateTime: string -> Option<int>, parseDate: string -> Option<int>)
      returns (r: Reply)
      ensures r == PostAvailability(services, slots, bookings, body, parseDateTime, parseDate)
    {
      var data := if Truthy(body) then body else JObj([]);
      if !data.JObj? {
        return Crashed;
      }
      var name := GetOr(data, "service_name", JNull);
      var start := GetOr(data, "start_time", JNull);
      if name != JStr("gimnasio") && name != JStr("sauna") {
        return Fail(404, UnknownServicePost);
      }
      if !Truthy(start) {
        return Fail(400, StartRequired);
      }
      if !start.JStr? {
        return Crashed;
      }
      if 'T' in start.s {
        var t := parseDateTime(start.s);
        if t.None? {
          return Fail(400, BadStart);
        }
        var found := SlotAt(services, name.s, t.value, slots);
        if found.None? {
          return Listed([]);
        }
        return Listed([InfoOf(found.value, bookings)]);
      }
      var day := parseDate(start.s);
      if day.None? {
        return Fail(400, BadStart);
      }
      var items := Collect(TakeAtMost(DaySlots(services, name.s, day.value, slots), DayLimit));
      return Listed(items);
    }

    /** `GET /<service_name>/availability`. */
    method ServiceAvailability(service: string, day: Option<string>, parseDate: string -> Option<int>)
      returns (r: Reply)
      ensures r == GetAvailability(services, slots, bookings, service, day, parseDate)
    {
      if !KnownService(service) {
        return Fail(404, UnknownServiceGet);
      }
      if day.None? || |day.value| == 0 {
        return Fail(400, DayRequired);
      }
      var d := parseDate(day.value);
      if d.None? {
        return Fail(400, BadDay);
      }
      var items := Collect(DaySlots(services, service, d.value, slots));
      return Listed(items);
    }

    /** `POST /booking`: a booking is added only when the slot exists and
        is not full. */
    method CreateBooking(body: Json, intOfStr: string -> Option<int>) returns (r: Reply)
      modifies this
      ensures r == CreateBookingReply(old(slots), old(bookings), old(nextId), body, intOfStr)
      ensures r.Booked? ==> bookings == old(bookings) + [r.booking] && nextId == old(nextId) + 1
      ensures !r.Booked? ==> bookings == old(bookings) && nextId == old(nextId)
      ensures services == old(services) && slots == old(slots)
      ensures old(Valid()) ==> Valid()
    {
      if !Truthy(body) {
        return Fail(400, NotJson);
      }
      var data := ValidateBooking(body, intOfStr);
      if data.None? {
        return Fail(422, Invalid);
      }
      var (slotId, guest) := data.value;
      var found := FindSlot(slots, slotId);
      if found.None? {
        return Fail(404, NoSuchSlot);
      }
      var s := found.value;
      if Count(bookings, s.id) >= s.capacity {
        return Fail(409, SlotFull);
      }
      var b := Booking(nextId, slotId, guest);
      if TablesValid(slots, bookings, nextId) {
        BookingKeepsTablesValid(slots, bookings, nextId, body, intOfStr);
      }
      bookings := bookings + [b];
      nextId := nextId + 1;
      r := Booked(b);
    }
  }

  // ---- properties ----

  /** One more booking counts for its own slot only. */
  lemma CountAppend(bookings: seq<Booking>, b: Booking, slotId: int)
    ensures Count(bookings + [b], slotId) == Count(bookings, slotId) + (if b.slotId == slotId then 1 else 0)
  {
    assert (bookings + [b])[..|bookings|] == bookings;
  }

  /** A booking is made for an existing slot that was not full, and it keeps
      every slot within its capacity. */
  lemma BookingKeepsTablesValid(slots: seq<Slot>, bookings: seq<Booking>, nextId: int, body: Json,
                                intOfStr: string -> Option<int>)
    requires TablesValid(slots, bookings, nextId)
    ensures var r := CreateBookingReply(slots, bookings, nextId, body, intOfStr);
      r.Booked? ==> TablesValid(slots, bookings + [r.booking], nextId + 1)
  {
    var r := CreateBookingReply(slots, bookings, nextId, body, intOfStr);
    if r.Booked? {
      var b := r.booking;
      var s := FindSlot(slots, b.slotId).value;
      var k :| 0 <= k < |slots| && slots[k] == s;
      forall i | 0 <= i < |slots|
        ensures Count(bookings + [b], slots[i].id) <= slots[i].capacity
      {
        CountAppend(bookings, b, slots[i].id);
      }
    }
  }

  /** For a valid request naming an existing slot, the booking is refused
      with 409 exactly when the slot is full, and made otherwise. */
  lemma BookingRefusedIffFull(slots: seq<Slot>, bookings: seq<Booking>, nextId: int, body: Json,
                              intOfStr: string -> Option<int>, slotId: int, guest: string, s: Slot)
    requires Truthy(body) && ValidateBooking(body, intOfStr) == Some((slotId, guest))
    requires FindSlot(slots, slotId) == Some(s)
    ensures CreateBookingReply(slots, bookings, nextId, body, intOfStr) == Fail(409, SlotFull)
            <==> Count(bookings, s.id) >= s.capacity
    ensures CreateBookingReply(slots, bookings, nextId, body, intOfStr) == Booked(Booking(nextId, slotId, guest))
            <==> Count(bookings, s.id) < s.capacity
  {
  }

  /** The error answers of `POST /booking`, in the order they are checked. */
  lemma BookingErrors(slots: seq<Slot>, bookings: seq<Booking>, nextId: int, body: Json,
                      intOfStr: string -> Option<int>)
    ensures var r := CreateBookingReply(slots, bookings, nextId, body, intOfStr);
      (r == Fail(400, NotJson) <==> !Truthy(body))
      && (r == Fail(422, Invalid) <==> Truthy(body) && ValidateBooking(body, intOfStr).None?)
      && (r == Fail(404, NoSuchSlot) <==>
            (Truthy(body) && ValidateBooking(body, intOfStr).Some?
             && forall i | 0 <= i < |slots| :: slots[i].id != ValidateBooking(body, intOfStr).value.0))
  {
  }

  /** A dict without a usable `slot_id` or with a `guest_name` that is not a
      string is refused with 422; so is any truthy body that is not a dict. */
  lemma InvalidBookingBodies(body: Json, intOfStr: string -> Option<int>)
    ensures !body.JObj? ==> ValidateBooking(body, intOfStr).None?
    ensures !GetOr(body, "guest_name", JNull).JStr? ==> ValidateBooking(body, intOfStr).None?
    ensures IntField(GetOr(body, "slot_id", JNull), intOfStr).None? ==> ValidateBooking(body, intOfStr).None?
  {
  }

  /** In valid tables every listed slot shows how many bookings it holds and
      a free count that is never negative. */
  lemma InfoCounts(slots: seq<Slot>, bookings: seq<Booking>, s: Slot)
    requires WithinCapacity(slots, bookings) && s in slots
    ensures InfoOf(s, bookings).current == Count(bookings, s.id)
    ensures InfoOf(s, bookings).available == s.capacity - Count(bookings, s.id) >= 0
  {
  }

  /** `POST /availability` checks the service before anything else: an
      unknown or missing name gives 404 whatever else the body holds. */
  lemma PostChecksServiceFirst(services: seq<Service>, slots: seq<Slot>, bookings: seq<Booking>, body: Json,
                               parseDateTime: string -> Option<int>, parseDate: string -> Option<int>)
    requires Truthy(body) ==> body.JObj?
    requires GetOr(body, "service_name", JNull) != JStr("gimnasio") && GetOr(body, "service_name", JNull) != JStr("sauna")
    ensures PostAvailability(services, slots, bookings, body, parseDateTime, parseDate) == Fail(404, UnknownServicePost)
  {
  }

  /** A truthy body that is not a dict makes `POST /availability` raise. */
  lemma PostNonDictCrashes(services: seq<Service>, slots: seq<Slot>, bookings: seq<Booking>, body: Json,
                           parseDateTime: string -> Option<int>, parseDate: string -> Option<int>)
    requires Truthy(body) && !body.JObj?
    ensures PostAvailability(services, slots, bookings, body, parseDateTime, parseDate) == Crashed
  {
  }

  /** With a known service, a missing or empty `start_time` gives 400. */
  lemma PostNeedsStart(services: seq<Service>, slots: seq<Slot>, bookings: seq<Booking>, fields: seq<Field>,
                       parseDateTime: string -> Option<int>, parseDate: string -> Option<int>)
    requires var name := GetOr(JObj(fields), "service_name", JNull); name == JStr("gimnasio") || name == JStr("sauna")
    requires !Truthy(GetOr(JObj(fields), "start_time", JNull))
    ensures PostAvailability(services, slots, bookings, JObj(fields), parseDateTime, parseDate) == Fail(400, StartRequired)
  {
  }

  /** A `start_time` with a `T` asks for one exact time: the answer lists
      at most one slot, of that service and starting at that time, and is
      empty only when there is none. */
  lemma PostExactTime(services: seq<Service>, slots: seq<Slot>, bookings: seq<Booking>, fields: seq<Field>,
                      parseDateTime: string -> Option<int>, parseDate: string -> Option<int>,
                      service: string, start: string, t: int)
    requires KnownService(service)
    requires GetOr(JObj(fields), "service_name", JNull) == JStr(service)
    requires GetOr(JObj(fields), "start_time", JNull) == JStr(start)
    requires 'T' in start && parseDateTime(start) == Some(t)
    ensures var r := PostAvailability(services, slots, bookings, JObj(fields), parseDateTime, parseDate);
      r.Listed? && |r.items| <= 1
      && (|r.items| == 0 <==> forall s | s in slots :: !(OfService(services, service, s) && s.start == t))
      && (|r.items| == 1 ==> exists s | s in slots :: OfService(services, service, s) && s.start == t
                                                   && r.items[0] == InfoOf(s, bookings))
  {
    var r := PostAvailability(services, slots, bookings, JObj(fields), parseDateTime, parseDate);
    assert |start| > 0;
    var a := SlotAt(services, service, t, slots);
    if a.Some? {
      assert r.items[0] == InfoOf(a.value, bookings);
    }
  }

  /** `GET` lists every slot of the service between 08:00 and 21:00 of the
      day, earliest first, each once. */
  lemma GetListsWholeDay(services: seq<Service>, slots: seq<Slot>, bookings: seq<Booking>, service: string,
                         day: string, parseDate: string -> Option<int>, d: int)
    requires KnownService(service) && |day| > 0 && parseDate(day) == Some(d)
    ensures var r := GetAvailability(services, slots, bookings, service, Some(day), parseDate);
      var rows := DaySlots(services, service, d, slots);
      r == Listed(Infos(rows, bookings))
      && Ascending(rows)
      && multiset(rows) == multiset(Between(services, service, DayOpen(d), DayClose(d), slots))
      && (forall x | x in rows :: x in slots && OfService(services, service, x) && DayOpen(d) <= x.start < DayClose(d))
      && (forall x | x in slots && OfService(services, service, x) && DayOpen(d) <= x.start < DayClose(d) :: x in rows)
  {
    DaySlotsShape(services, service, d, slots);
  }

  /** The day's slots are those of the service in the window, earliest first. */
  lemma DaySlotsShape(services: seq<Service>, service: string, d: int, slots: seq<Slot>)
    ensures var rows := DaySlots(services, service, d, slots);
      Ascending(rows)
      && (forall x | x in rows :: x in slots && OfService(services, service, x) && DayOpen(d) <= x.start < DayClose(d))
      && (forall x | x in slots && OfService(services, service, x) && DayOpen(d) <= x.start < DayClose(d) :: x in rows)
  {
    var between := Between(services, service, DayOpen(d), DayClose(d), slots);
    SortByStartAscending(between);
    SameMembers(SortByStart(between), between);
  }

  /** Two lists with the same multiset have the same members. */
  lemma SameMembers(a: seq<Slot>, b: seq<Slot>)
    requires multiset(a) == multiset(b)
    ensures forall x :: x in a <==> x in b
  {
    forall x
      ensures x in a <==> x in b
    {
      assert x in a <==> x in multiset(a);
      assert x in b <==> x in multiset(b);
    }
  }

  /** The POST per-day lookup answers the first three entries of what GET
      answers for the same day: the earliest three slots. */
  lemma PostDayIsFirstThreeOfGet(services: seq<Service>, slots: seq<Slot>, bookings: seq<Booking>,
                                 fields: seq<Field>, parseDateTime: string -> Option<int>,
                                 parseDate: string -> Option<int>, service: string, start: string, d: int)
    requires KnownService(service)
    requires GetOr(JObj(fields), "service_name", JNull) == JStr(service)
    requires GetOr(JObj(fields), "start_time", JNull) == JStr(start)
    requires 'T' !in start && |start| > 0 && parseDate(start) == Some(d)
    ensures var post := PostAvailability(services, slots, bookings, JObj(fields), parseDateTime, parseDate);
      var get := GetAvailability(services, slots, bookings, service, Some(start), parseDate);
      post.Listed? && get.Listed?
      && |post.items| == (if |get.items| <= DayLimit then |get.items| else DayLimit)
      && (forall i | 0 <= i < |post.items| :: post.items[i] == get.items[i])
      && (forall i, j | 0 <= i < |post.items| && |post.items| <= j < |get.items| :: post.items[i].start <= get.items[j].start)
  {
    var rows := DaySlots(services, service, d, slots);
    PostDayReply(services, slots, bookings, fields, parseDateTime, parseDate, service, start, d);
    GetListsWholeDay(services, slots, bookings, service, start, parseDate, d);
    FirstOfAscending(rows, bookings, DayLimit);
  }

  /** What the POST per-day lookup answers. */
  lemma PostDayReply(services: seq<Service>, slots: seq<Slot>, bookings: seq<Booking>,
                     fields: seq<Field>, parseDateTime: string -> Option<int>,
                     parseDate: string -> Option<int>, service: string, start: string, d: int)
    requires KnownService(service)
    requires GetOr(JObj(fields), "service_name", JNull) == JStr(service)
    requires GetOr(JObj(fields), "start_time", JNull) == JStr(start)
    requires 'T' !in start && |start| > 0 && parseDate(start) == Some(d)
    ensures PostAvailability(services, slots, bookings, JObj(fields), parseDateTime, parseDate)
         == Listed(Infos(TakeAtMost(DaySlots(services, service, d, slots), DayLimit), bookings))
  {
    var body := JObj(fields);
    assert HasKey(body, "service_name");
    assert Truthy(body);
    var name := GetOr(body, "service_name", JNull);
    assert name.s == service;
    assert !(name != JStr("gimnasio") && name != JStr("sauna"));
  }

  /** The first `n` entries of an ascending list start no later than the rest. */
  lemma FirstOfAscending(rows: seq<Slot>, bookings: seq<Booking>, n: nat)
    requires Ascending(rows)
    ensures var post := Infos(TakeAtMost(rows, n), bookings);
      var all := Infos(rows, bookings);
      |post| == (if |all| <= n then |all| else n)
      && (forall i | 0 <= i < |post| :: post[i] == all[i])
      && (forall i, j | 0 <= i < |post| && |post| <= j < |all| :: post[i].start <= all[j].start)
  {
    var first := TakeAtMost(rows, n);
    var post := Infos(first, bookings);
    var all := Infos(rows, bookings);
    forall i | 0 <= i < |post|
      ensures post[i] == all[i]
    {
      assert first[i] == rows[i];
    }
    forall i, j | 0 <= i < |post| && |post| <= j < |all|
      ensures post[i].start <= all[j].start
    {
      assert post[i].start == rows[i].start && all[j].start == rows[j].start;
    }
  }
}
