// The hotel room API of src/api/api-booking/app.py: the two request
// validators, the availability query over half-open date ranges, and
// `reserve`. Dates are day numbers; how pydantic reads a date from a JSON
// value is a parameter of the model.
module Rooms {
  import opened Wrappers
  import opened JsonValue
  import GymServices

  // ---- tables ----

  datatype Room = Room(id: int, number: string, kind: string, price: real)

  /** A stay in a room from `checkin` up to, not including, `checkout`. */
  datatype Reservation = Reservation(id: int, roomId: int, guest: string, checkin: int, checkout: int)

  /** What an endpoint answers: an error with its status, a list of rooms
      (200), a created reservation (201), or an exception caught by the
      endpoint's `except Exception` (500). */
  datatype Reply =
    | Fail(status: int, error: string)
    | RoomList(rooms: seq<Room>)
    | Reserved(reservation: Reservation)
    | Crashed

  const ValidationError := "Validation error"
  const NoSuchRoom := "Habitación no encontrada"
  const RoomTaken := "Habitación no disponible en ese rango"
  const NoneLeft := "No hay habitaciones disponibles con ese tipo y rango"

  // ---- validators ----

  /** `AvailabilityQuery` once validated. */
  datatype Query = Query(checkin: int, checkout: int, roomType: Option<string>)

  /** `ReservationIn` once validated. */
  datatype Request = Request(guest: string, checkin: int, checkout: int, roomId: Option<int>, roomType: Option<string>)

  /** A required `date` field. */
  function DateField(body: Json, key: string, toDate: Json -> Option<int>): Option<int> {
    if HasKey(body, key) then toDate(GetOr(body, key, JNull)) else None
  }

  /** An optional field (`None` when missing or null); the inner option is
      `None` when the value is not accepted. */
  function OptStrField(body: Json, key: string): Option<Option<string>> {
    match GetOr(body, key, JNull)
    case JNull => Some(None)
    case JStr(s) => Some(Some(s))
    case _ => None
  }

  function OptIntField(body: Json, key: string, intOfStr: string -> Option<int>): Option<Option<int>> {
    var v := GetOr(body, key, JNull);
    if v.JNull? then Some(None)
    else match GymServices.IntField(v, intOfStr)
      case Some(n) => Some(Some(n))
      case None => None
  }

  /** `AvailabilityQuery(**body)`: both dates readable and checkout after checkin. */
  function ParseQuery(body: Json, toDate: Json -> Option<int>): (r: Option<Query>)
    ensures r.Some? ==> r.value.checkin < r.value.checkout
  {
    var ci := DateField(body, "checkin", toDate);
    var co := DateField(body, "checkout", toDate);
    var t := OptStrField(body, "room_type");
    if ci.Some? && co.Some? && co.value > ci.value && t.Some? then Some(Query(ci.value, co.value, t.value))
    else None
  }

  /** Python truthiness of an optional id: `None` and `0` are falsy. */
  predicate TruthyId(id: Option<int>) {
    id.Some? && id.value != 0
  }

  /** `ReservationIn(**body)`: a guest name, readable dates with checkout
      after checkin, and a room type whenever the room id is falsy. */
  function ParseRequest(body: Json, toDate: Json -> Option<int>, intOfStr: string -> Option<int>): (r: Option<Request>)
    ensures r.Some? ==> r.value.checkin < r.value.checkout
    ensures r.Some? ==> TruthyId(r.value.roomId) || r.value.roomType.Some?
  {
    var guest := GetOr(body, "guest_name", JNull);
    var ci := DateField(body, "checkin", toDate);
    var co := DateField(body, "checkout", toDate);
    var id := OptIntField(body, "room_id", intOfStr);
    var t := OptStrField(body, "room_type");
    if guest.JStr? && ci.Some? && co.Some? && co.value > ci.value && id.Some? && t.Some?
       && (TruthyId(id.value) || t.value.Some?)
    then Some(Request(guest.s, ci.value, co.value, id.value, t.value))
    else None
  }

  // ---- availability ----

  /** Two stays overlap when each starts before the other ends. */
  predicate Overlap(ci1: int, co1: int, ci2: int, co2: int) {
    ci1 < co2 && ci2 < co1
  }

  /** Some reservation of the room overlaps `[ci, co)`: the `occupied` subquery. */
  predicate Occupied(reservations: seq<Reservation>, roomId: int, ci: int, co: int) {
    exists k | 0 <= k < |reservations| ::
      reservations[k].roomId == roomId && reservations[k].checkin < co && reservations[k].checkout > ci
  }

  /** The type filter, applied only when the type is truthy. */
  predicate TypeMatches(room: Room, roomType: Option<string>) {
    roomType.None? || |roomType.value| == 0 || room.kind == roomType.value
  }

  /** `_available_rooms`: the rooms of the type that no reservation
      overlaps, in table order. */
  function Available(rooms: seq<Room>, reservations: seq<Reservation>, ci: int, co: int, roomType: Option<string>): (r: seq<Room>)
    ensures |r| <= |rooms|
  {
    if |rooms| == 0 then []
    else
      var init := Available(rooms[..|rooms| - 1], reservations, ci, co, roomType);
      var last := rooms[|rooms| - 1];
      if TypeMatches(last, roomType) && !Occupied(reservations, last.id, ci, co) then init + [last] else init
  }

  /** `POST /availability`. */
  function AvailabilityReply(rooms: seq<Room>, reservations: seq<Reservation>, body: Json,
                             toDate: Json -> Option<int>): Reply
  {
    if !body.JObj? then Crashed
    else match ParseQuery(body, toDate)
      case None => Fail(400, ValidationError)
      case Some(q) => RoomList(Available(rooms, reservations, q.checkin, q.checkout, q.roomType))
  }

  // ---- reserving ----

  /** `.filter(Room.id == room_id).first()`. */
  function FindRoom(rooms: seq<Room>, id: int): (r: Option<Room>)
    ensures r.Some? ==> r.value in rooms && r.value.id == id
    ensures r.None? <==> forall i | 0 <= i < |rooms| :: rooms[i].id != id
  {
    if |rooms| == 0 then None
    else if rooms[0].id == id then Some(rooms[0])
    else
      var r := FindRoom(rooms[1..], id);
      assert forall i | 1 <= i < |rooms| :: rooms[i] == rooms[1..][i - 1];
      r
  }

  /** What `reserve` does with a validated request: a named room must exist
      and be free for the stay (its type is not checked); otherwise the
      first free room of the type is taken. */
  function ReserveRequest(rooms: seq<Room>, reservations: seq<Reservation>, nextId: int, p: Request): Reply {
    if TruthyId(p.roomId) then
      match FindRoom(rooms, p.roomId.value)
      case None => Fail(404, NoSuchRoom)
      case Some(room) =>
        if room !in Available(rooms, reservations, p.checkin, p.checkout, None) then Fail(409, RoomTaken)
        else Reserved(Reservation(nextId, room.id, p.guest, p.checkin, p.checkout))
    else
      var free := Available(rooms, reservations, p.checkin, p.checkout, p.roomType);
      if |free| == 0 then Fail(409, NoneLeft)
      else Reserved(Reservation(nextId, free[0].id, p.guest, p.checkin, p.checkout))
  }

  /** `POST /reserve`. */
  function ReserveReply(rooms: seq<Room>, reservations: seq<Reservation>, nextId: int, body: Json,
                        toDate: Json -> Option<int>, intOfStr: string -> Option<int>): Reply
  {
    if !body.JObj? then Crashed
    else match ParseRequest(body, toDate, intOfStr)
      case None => Fail(400, ValidationError)
      case Some(p) => ReserveRequest(rooms, reservations, nextId, p)
  }

  /** No two reservations of the same room overlap. */
  predicate NoOverlap(reservations: seq<Reservation>) {
    forall i, j | 0 <= i < j < |reservations| ::
      reservations[i].roomId == reservations[j].roomId ==>
        !Overlap(reservations[i].checkin, reservations[i].checkout, reservations[j].checkin, reservations[j].checkout)
  }

  /** Every reservation id was handed out before `nextId`. */
  predicate IdsBelow(reservations: seq<Reservation>, nextId: int) {
    forall k | 0 <= k < |reservations| :: reservations[k].id < nextId
  }

  /** The database: rooms, reservations and the next reservation id. */
  class HotelDb {
    var rooms: seq<Room>
    var reservations: seq<Reservation>
    var nextId: int

    ghost predicate Valid()
      reads this
    {
      NoOverlap(reservations) && IdsBelow(reservations, nextId)
    }

    constructor(rooms: seq<Room>)
      ensures this.rooms == rooms && reservations == [] && nextId == 1
      ensures Valid()
    {
      this.rooms := rooms;
      reservations := [];
      nextId := 1;
    }

    /** `POST /availability`. */
    function AvailableNow(body: Json, toDate: Json -> Option<int>): Reply
      reads this
    {
      AvailabilityReply(rooms, reservations, body, toDate)
    }

    /** `POST /reserve`: a reservation is added only for a room free for the
        whole stay, and no two stays of a room ever overlap. */
    method Reserve(body: Json, toDate: Json -> Option<int>, intOfStr: string -> Option<int>) returns (r: Reply)
      modifies this
      ensures r == ReserveReply(old(rooms), old(reservations), old(nextId), body, toDate, intOfStr)
      ensures r.Reserved? ==> reservations == old(reservations) + [r.reservation] && nextId == old(nextId) + 1
      ensures !r.Reserved? ==> reservations == old(reservations) && nextId == old(nextId)
      ensures rooms == old(rooms)
      ensures old(Valid()) ==> Valid()
    {
      if !body.JObj? {
        return Crashed;
      }
      var parsed := ParseRequest(body, toDate, intOfStr);
      if parsed.None? {
        return Fail(400, ValidationError);
      }
      var p := parsed.value;
      var room: Room;
      if TruthyId(p.roomId) {
        var found := FindRoom(rooms, p.roomId.value);
        if found.None? {
          return Fail(404, NoSuchRoom);
        }
        room := found.value;
        if room !in Available(rooms, reservations, p.checkin, p.checkout, None) {
          return Fail(409, RoomTaken);
        }
      } else {
        var free := Available(rooms, reservations, p.checkin, p.checkout, p.roomType);
        if |free| == 0 {
          return Fail(409, NoneLeft);
        }
        room := free[0];
      }
      var x := Reservation(nextId, room.id, p.guest, p.checkin, p.checkout);
      if NoOverlap(reservations) && IdsBelow(reservations, nextId) {
        ReserveKeepsNoOverlap(rooms, reservations, nextId, p);
      }
      reservations := reservations + [x];
      nextId := nextId + 1;
      r := Reserved(x);
    }
  }

  // ---- properties ----

  /** A room is listed exactly when it is in the table, of the type (when a
      type is given) and no reservation of it overlaps the stay. */
  lemma {:induction false} AvailableIff(rooms: seq<Room>, reservations: seq<Reservation>, ci: int, co: int,
                                        roomType: Option<string>, room: Room)
    ensures room in Available(rooms, reservations, ci, co, roomType)
        <==> room in rooms && TypeMatches(room, roomType) && !Occupied(reservations, room.id, ci, co)
  {
    if |rooms| > 0 {
      var init := rooms[..|rooms| - 1];
      AvailableIff(init, reservations, ci, co, roomType, room);
      assert rooms == init + [rooms[|rooms| - 1]];
    }
  }

  /** An empty room type filters nothing, like a missing one. */
  lemma {:induction false} EmptyTypeSame(rooms: seq<Room>, reservations: seq<Reservation>, ci: int, co: int)
    ensures Available(rooms, reservations, ci, co, Some("")) == Available(rooms, reservations, ci, co, None)
  {
    if |rooms| > 0 {
      EmptyTypeSame(rooms[..|rooms| - 1], reservations, ci, co);
    }
  }

  /** A reservation is only made for a free room, so it keeps every room's
      stays apart. */
  lemma ReserveKeepsNoOverlap(rooms: seq<Room>, reservations: seq<Reservation>, nextId: int, p: Request)
    requires NoOverlap(reservations) && IdsBelow(reservations, nextId)
    ensures var r := ReserveRequest(rooms, reservations, nextId, p);
      r.Reserved? ==> NoOverlap(reservations + [r.reservation]) && IdsBelow(reservations + [r.reservation], nextId + 1)
  {
    var r := ReserveRequest(rooms, reservations, nextId, p);
    if r.Reserved? {
      var x := r.reservation;
      var room: Room;
      if TruthyId(p.roomId) {
        room := FindRoom(rooms, p.roomId.value).value;
        AvailableIff(rooms, reservations, p.checkin, p.checkout, None, room);
      } else {
        room := Available(rooms, reservations, p.checkin, p.checkout, p.roomType)[0];
        AvailableIff(rooms, reservations, p.checkin, p.checkout, p.roomType, room);
      }
      assert x.roomId == room.id && !Occupied(reservations, room.id, p.checkin, p.checkout);
      var all := reservations + [x];
      forall i, j | 0 <= i < j < |all| && all[i].roomId == all[j].roomId
        ensures !Overlap(all[i].checkin, all[i].checkout, all[j].checkin, all[j].checkout)
      {
        if j == |reservations| {
          assert all[i] == reservations[i];
        } else {
          assert all[i] == reservations[i] && all[j] == reservations[j];
        }
      }
    }
  }

  /** With a room id, the named room is reserved exactly when it exists and
      is free for the stay, whatever type was asked for. */
  lemma ReserveNamedRoom(rooms: seq<Room>, reservations: seq<Reservation>, nextId: int, p: Request, room: Room)
    requires TruthyId(p.roomId) && FindRoom(rooms, p.roomId.value) == Some(room)
    ensures ReserveRequest(rooms, reservations, nextId, p).Reserved?
        <==> !Occupied(reservations, room.id, p.checkin, p.checkout)
    ensures ReserveRequest(rooms, reservations, nextId, p).Reserved? ==>
      ReserveRequest(rooms, reservations, nextId, p).reservation
        == Reservation(nextId, p.roomId.value, p.guest, p.checkin, p.checkout)
    ensures forall t :: ReserveRequest(rooms, reservations, nextId, p.(roomType := t))
                        == ReserveRequest(rooms, reservations, nextId, p)
  {
    AvailableIff(rooms, reservations, p.checkin, p.checkout, None, room);
  }

  /** With a room id that names no room, the answer is 404. */
  lemma ReserveUnknownRoom(rooms: seq<Room>, reservations: seq<Reservation>, nextId: int, p: Request)
    requires TruthyId(p.roomId) && forall i | 0 <= i < |rooms| :: rooms[i].id != p.roomId.value
    ensures ReserveRequest(rooms, reservations, nextId, p) == Fail(404, NoSuchRoom)
  {
  }

  /** Without a room id, the first free room of the type is reserved, and
      409 comes back exactly when there is none. */
  lemma ReserveFirstFree(rooms: seq<Room>, reservations: seq<Reservation>, nextId: int, p: Request)
    requires !TruthyId(p.roomId)
    ensures var free := Available(rooms, reservations, p.checkin, p.checkout, p.roomType);
      var r := ReserveRequest(rooms, reservations, nextId, p);
      (r == Fail(409, NoneLeft) <==> |free| == 0)
      && (|free| > 0 ==> r == Reserved(Reservation(nextId, free[0].id, p.guest, p.checkin, p.checkout))
                         && free[0] in rooms && TypeMatches(free[0], p.roomType)
                         && !Occupied(reservations, free[0].id, p.checkin, p.checkout))
  {
    var free := Available(rooms, reservations, p.checkin, p.checkout, p.roomType);
    if |free| > 0 {
      AvailableIff(rooms, reservations, p.checkin, p.checkout, p.roomType, free[0]);
    }
  }

  /** The checks of the validators: a stay must end after it starts, and a
      request without a (truthy) room id must name a room type; room id 0
      counts as no id. */
  lemma RequestRejections(body: Json, toDate: Json -> Option<int>, intOfStr: string -> Option<int>)
    ensures var ci := DateField(body, "checkin", toDate);
      var co := DateField(body, "checkout", toDate);
      ci.Some? && co.Some? && co.value <= ci.value ==> ParseRequest(body, toDate, intOfStr).None?
    ensures GetOr(body, "room_type", JNull).JNull? && !TruthyId(OptIntField(body, "room_id", intOfStr).GetOr(None))
            ==> ParseRequest(body, toDate, intOfStr).None?
    ensures !GetOr(body, "guest_name", JNull).JStr? ==> ParseRequest(body, toDate, intOfStr).None?
  {
  }

  /** A well-formed request is accepted with the values it holds. */
  lemma RequestAccepted(body: Json, toDate: Json -> Option<int>, intOfStr: string -> Option<int>,
                        guest: string, ci: int, co: int, t: string)
    requires GetOr(body, "guest_name", JNull) == JStr(guest)
    requires DateField(body, "checkin", toDate) == Some(ci) && DateField(body, "checkout", toDate) == Some(co)
    requires ci < co && GetOr(body, "room_id", JNull) == JNull && GetOr(body, "room_type", JNull) == JStr(t)
    ensures ParseRequest(body, toDate, intOfStr) == Some(Request(guest, ci, co, None, Some(t)))
  {
  }

  /** A query is refused when checkout is not after checkin, or when the
      room type is given but is not a string. */
  lemma QueryRejections(body: Json, toDate: Json -> Option<int>)
    ensures var ci := DateField(body, "checkin", toDate);
      var co := DateField(body, "checkout", toDate);
      ci.Some? && co.Some? && co.value <= ci.value ==> ParseQuery(body, toDate).None?
    ensures !GetOr(body, "room_type", JNull).JNull? && !GetOr(body, "room_type", JNull).JStr?
            ==> ParseQuery(body, toDate).None?
  {
  }

  /** A query with readable dates in order and a room type that is missing,
      null or a string is accepted with exactly those values. */
  lemma QueryAccepted(body: Json, toDate: Json -> Option<int>, ci: int, co: int, t: Option<string>)
    requires DateField(body, "checkin", toDate) == Some(ci) && DateField(body, "checkout", toDate) == Some(co)
    requires ci < co
    requires GetOr(body, "room_type", JNull) == (if t.Some? then JStr(t.value) else JNull)
    ensures ParseQuery(body, toDate) == Some(Query(ci, co, t))
  {
  }

  /** The availability endpoint lists exactly the free rooms of the query. */
  lemma AvailabilityLists(rooms: seq<Room>, reservations: seq<Reservation>, body: Json, toDate: Json -> Option<int>, q: Query)
    requires body.JObj? && ParseQuery(body, toDate) == Some(q)
    ensures var r := AvailabilityReply(rooms, reservations, body, toDate);
      r.RoomList? && q.checkin < q.checkout
      && forall room :: room in r.rooms <==>
           room in rooms && TypeMatches(room, q.roomType) && !Occupied(reservations, room.id, q.checkin, q.checkout)
  {
    forall room
      ensures room in Available(rooms, reservations, q.checkin, q.checkout, q.roomType) <==>
              room in rooms && TypeMatches(room, q.roomType) && !Occupied(reservations, room.id, q.checkin, q.checkout)
    {
      AvailableIff(rooms, reservations, q.checkin, q.checkout, q.roomType, room);
    }
  }
}
