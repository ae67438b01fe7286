/** The "manage my booking" helpers (manage_booking_logic.py): lookup by
    last name and code, the nightly price of a room type, the recomputed
    total, and the change of check-in date and nights. */
module ManageBookingLogic {
  import opened Common
  import opened BookingStorage
  import opened RoomsData

  /** get_booking(last_name, code): no lookup at all when either is empty. */
  function GetBooking(bs: seq<Record>, lastName: string, code: string): (r: Option<Record>)
    ensures lastName == "" || code == "" ==> r.None?
    ensures lastName != "" && code != "" ==> (r.Some? <==> AnyMatch(bs, lastName, code))
    ensures r.Some? ==> r.value in bs && Matches(r.value, lastName, code)
  {
    if lastName == "" || code == "" then None else FindBooking(bs, lastName, code)
  }

  /** Whether a catalog room answers to a room type, compared lower-cased. */
  predicate SameType(room: Room, roomType: Value) {
    Lower(room.shortType) == Lower(ToStr(roomType))
  }

  /** The nightly price _get_price_for_room reports: that of the first room
      of the type, and 0.0 when there is none. */
  function PriceForRoom(rooms: seq<Room>, roomType: Value): real {
    if rooms == [] then 0.0
    else if SameType(rooms[0], roomType) then rooms[0].price
    else PriceForRoom(rooms[1..], roomType)
  }

  /** The price reported is the first same-type room's, or 0.0 when no room
      has the type. */
  lemma {:induction false} PriceOfFirstOfType(rooms: seq<Room>, roomType: Value)
    ensures var p := PriceForRoom(rooms, roomType);
      (exists i :: 0 <= i < |rooms| && SameType(rooms[i], roomType) && p == rooms[i].price &&
         forall j :: 0 <= j < i ==> !SameType(rooms[j], roomType))
      || (p == 0.0 && forall j :: 0 <= j < |rooms| ==> !SameType(rooms[j], roomType))
  {
    if rooms != [] && !SameType(rooms[0], roomType) {
      var tail := rooms[1..];
      PriceOfFirstOfType(tail, roomType);
      assert forall j :: 1 <= j < |rooms| ==> rooms[j] == tail[j - 1];
      if exists i :: 0 <= i < |tail| && SameType(tail[i], roomType) && PriceForRoom(tail, roomType) == tail[i].price &&
           forall j :: 0 <= j < i ==> !SameType(tail[j], roomType) {
        var i :| 0 <= i < |tail| && SameType(tail[i], roomType) && PriceForRoom(tail, roomType) == tail[i].price &&
          forall j :: 0 <= j < i ==> !SameType(tail[j], roomType);
        assert SameType(rooms[i + 1], roomType);
        forall j | 0 <= j < i + 1
          ensures !SameType(rooms[j], roomType)
        {
          if j > 0 {
            assert rooms[j] == tail[j - 1];
          }
        }
      }
    }
  }

  /** _get_price_for_room(room_type): scans the catalog and stops at the first match. */
  method GetPriceForRoom(rooms: seq<Room>, roomType: Value) returns (price: real)
    ensures price == PriceForRoom(rooms, roomType)
  {
    price := 0.0;
    var i := 0;
    while i < |rooms|
      invariant 0 <= i <= |rooms|
      invariant PriceForRoom(rooms, roomType) == PriceForRoom(rooms[i..], roomType)
    {
      if SameType(rooms[i], roomType) {
        price := rooms[i].price;
        break;
      }
      assert rooms[i..][1..] == rooms[i + 1..];
      i := i + 1;
    }
  }

  /** int(nights) as _calculate_total applies it, with 1 wherever int()
      raises TypeError or ValueError. */
  function NightsInt(v: Value): int {
    match v
    case Int(i) => i
    case Num(r) => Truncate(r)
    case Str(s) => ParseInt(s).GetOr(1)
    case Bool(b) => if b then 1 else 0
    case Null => 1
  }

  /** _calculate_total(room_type, nights): nightly price times nights, and
      nothing for add-ons or tax. */
  function CalculateTotal(rooms: seq<Room>, roomType: Value, nights: Value): real {
    PriceForRoom(rooms, roomType) * NightsInt(nights) as real
  }

  /** The nights apply_changes submits: the typed number when it parses, the
      stored value (1 when absent) otherwise. */
  function NewNights(booking: Record, newNights: string): Value {
    if newNights != "" && ParseInt(newNights).Some? then Int(ParseInt(newNights).value)
    else Get(booking, "nights", Int(1))
  }

  /** The changes dict apply_changes submits for a found booking. */
  function ChangesFor(booking: Record, rooms: seq<Room>, newCheckIn: string, newNights: string): (c: Record)
    ensures c.Keys == {"nights", "total_price"} + (if newCheckIn != "" then {"check_in"} else {})
    ensures newCheckIn != "" ==> c["check_in"] == Str(Strip(newCheckIn))
    ensures c["nights"] == NewNights(booking, newNights)
    ensures c["total_price"] == Num(CalculateTotal(rooms, Get(booking, "room_type", Str("")), c["nights"]))
  {
    ChangesWith(rooms, newCheckIn, Get(booking, "room_type", Str("")), NewNights(booking, newNights))
  }

  /** The changes dict for a room type and the nights to submit. */
  function ChangesWith(rooms: seq<Room>, newCheckIn: string, roomType: Value, nights: Value): Record {
    CheckInChange(newCheckIn)["nights" := nights]["total_price" := Num(CalculateTotal(rooms, roomType, nights))]
  }

  function CheckInChange(newCheckIn: string): Record {
    if newCheckIn != "" then map["check_in" := Str(Strip(newCheckIn))] else map[]
  }

  /** The total a change writes is the nightly price times nights. */
  lemma ChangedTotalIsRoomCharge(booking: Record, rooms: seq<Room>, newCheckIn: string, newNights: string, n: int)
    requires newNights != "" && ParseInt(newNights) == Some(n)
    ensures ChangesFor(booking, rooms, newCheckIn, newNights)["total_price"] ==
      Num(PriceForRoom(rooms, Get(booking, "room_type", Str(""))) * n as real)
  {
    assert NewNights(booking, newNights) == Int(n);
    TotalForNights(booking, rooms, newCheckIn, newNights, n);
  }

  lemma TotalForNights(booking: Record, rooms: seq<Room>, newCheckIn: string, newNights: string, n: int)
    requires NewNights(booking, newNights) == Int(n)
    ensures ChangesFor(booking, rooms, newCheckIn, newNights)["total_price"] ==
      Num(PriceForRoom(rooms, Get(booking, "room_type", Str(""))) * n as real)
  {
    var roomType := Get(booking, "room_type", Str(""));
    TotalOfNightly(rooms, roomType, Int(n), PriceForRoom(rooms, roomType), n);
  }

  /** The changes a booking change writes are the same whatever the
      booking's add-ons, so the recomputed total never charges for them. */
  lemma ChangesIgnoreAddOns(booking: Record, rooms: seq<Room>, newCheckIn: string, newNights: string,
                            breakfast: bool, shuttle: bool)
    ensures ChangesFor(booking, rooms, newCheckIn, newNights) ==
      ChangesFor(booking["breakfast" := Bool(breakfast)]["shuttle" := Bool(shuttle)], rooms, newCheckIn, newNights)
  {
    var b2 := booking["breakfast" := Bool(breakfast)]["shuttle" := Bool(shuttle)];
    assert Get(b2, "room_type", Str("")) == Get(booking, "room_type", Str(""));
    assert Get(b2, "nights", Int(1)) == Get(booking, "nights", Int(1));
    assert NewNights(b2, newNights) == NewNights(booking, newNights);
  }

  /** A change moves check-in or nights but never check-out or room type, so
      the stored nights need not be the nights between the stored dates. */
  lemma ChangeKeepsCheckOutAndRoom(booking: Record, rooms: seq<Room>, newCheckIn: string, newNights: string, n: int)
    requires newNights != "" && ParseInt(newNights) == Some(n)
    ensures var u := booking + ChangesFor(booking, rooms, newCheckIn, newNights);
      && u["nights"] == Int(n)
      && Get(u, "check_out", Null) == Get(booking, "check_out", Null)
      && Get(u, "room_type", Null) == Get(booking, "room_type", Null)
      && Get(u, "check_in", Null) == (if newCheckIn == "" then Get(booking, "check_in", Null) else Str(Strip(newCheckIn)))
  {
  }

  lemma TotalOfNightly(rooms: seq<Room>, roomType: Value, nightsValue: Value, nightly: real, nights: int)
    requires nightly == PriceForRoom(rooms, roomType) && nights == NightsInt(nightsValue)
    ensures nightly * nights as real == CalculateTotal(rooms, roomType, nightsValue)
  {
  }

  /** The steps of apply_changes that assemble the changes dict. */
  method BuildChanges(booking: Record, rooms: seq<Room>, newCheckIn: string, newNights: string)
    returns (changes: Record)
    ensures changes == ChangesFor(booking, rooms, newCheckIn, newNights)
  {
    changes := map[];
    if newCheckIn != "" {
      changes := changes["check_in" := Str(Strip(newCheckIn))];
    }
    assert changes == CheckInChange(newCheckIn);
    var nightsValue := Get(booking, "nights", Int(1));
    if newNights != "" {
      var parsed := ParseInt(newNights);
      if parsed.Some? {
        nightsValue := Int(parsed.value);
      } else {
        nightsValue := Get(booking, "nights", Int(1));
      }
    }
    assert nightsValue == NewNights(booking, newNights);
    changes := changes["nights" := nightsValue];
    var roomType := Get(booking, "room_type", Str(""));
    var nightly := GetPriceForRoom(rooms, roomType);
    var nights := NightsInt(nightsValue);
    var total := nightly * nights as real;
    TotalOfNightly(rooms, roomType, nightsValue, nightly, nights);
    changes := changes["total_price" := Num(total)];
    assert changes == ChangesWith(rooms, newCheckIn, roomType, nightsValue);
  }

  /** apply_changes(last_name, code, new_check_in, new_nights): (false, None) as
      Ok((false, None)) when the booking is missing or empty; otherwise the
      booking as read back after the update. */
  method ApplyChanges(store: BookingStore, catalog: RoomCatalog, lastName: string, code: string,
                      newCheckIn: string, newNights: string)
    returns (r: Result<(bool, Option<Record>)>)
    modifies store
    ensures store.writable == old(store.writable)
    ensures var found := FindBooking(old(store.bookings), lastName, code);
      if found.None? || found.value == map[] then
        r == Ok((false, None)) && store.bookings == old(store.bookings)
      else
        var changes := ChangesFor(found.value, catalog.rooms, newCheckIn, newNights);
        if !old(store.writable) then
          r == Err(IoError) && store.bookings == old(store.bookings)
        else
          && store.bookings == UpdateMatching(old(store.bookings), lastName, code, changes)
          && r == Ok((true, Some(found.value + changes)))
  {
    var booking := store.FindBookingByCode(lastName, code);
    if booking.None? || booking.value == map[] {
      return Ok((false, None));
    }
    var changes := BuildChanges(booking.value, catalog.rooms, newCheckIn, newNights);
    ghost var before := store.bookings;
    var ok := store.UpdateBooking(lastName, code, changes);
    if ok.Err? {
      return Err(ok.error);
    }
    if !ok.value {
      return Ok((false, None));
    }
    FindAfterUpdate(before, lastName, code, changes);
    var updated := store.FindBookingByCode(lastName, code);
    return Ok((true, updated));
  }

  /** cancel_booking(last_name, code): the store's soft cancel. */
  method CancelBooking(store: BookingStore, lastName: string, code: string) returns (r: Result<bool>)
    modifies store
    ensures store.writable == old(store.writable)
    ensures r == if AnyMatch(old(store.bookings), lastName, code) && !store.writable then Err(IoError)
                 else Ok(AnyMatch(old(store.bookings), lastName, code))
    ensures store.bookings == if r == Ok(true) then UpdateMatching(old(store.bookings), lastName, code, CancelFields)
                              else old(store.bookings)
  {
    r := store.CancelBooking(lastName, code);
  }
}
