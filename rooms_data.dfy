/** The room catalog (rooms_data.py): one entry per physical room, the
    number of rooms of each short type, the built-in catalog used when
    rooms_db.json yields nothing, and the search filter over the catalog. */
module RoomsData {
  import opened Common
  import opened Dates
  import opened BookingStorage

  /** One physical room as rooms_db.json describes it. */
  datatype Room = Room(
    code: string,
    name: string,
    shortType: string,          // "" when the record has no short_type
    price: real,                // 0.0 when the record has no price
    floor: string,              // "" when the record has no floor
    petFriendly: bool,
    smoking: bool,
    breakfastAvailable: bool,
    shuttleAvailable: bool,
    roomNumber: Option<string>) // None when the record has no room_number

  /** What _load_rooms_db finds on disk: each array item is a dict
      (Some(room)) or some other JSON value (None). */
  datatype RoomsFile = Missing | Unreadable | NotAList | Items(items: seq<Option<Room>>)

  function DictItems(items: seq<Option<Room>>): seq<Room> {
    if items == [] then []
    else
      DictItems(items[..|items| - 1]) +
      if items[|items| - 1].Some? then [items[|items| - 1].value] else []
  }

  /** The rooms _load_rooms_db returns: the dict items of the array, in order. */
  function LoadedRooms(f: RoomsFile): seq<Room> {
    if f.Items? then DictItems(f.items) else []
  }

  lemma {:induction false} DictItemsMembership(items: seq<Option<Room>>, r: Room)
    ensures r in DictItems(items) <==> Some(r) in items
    ensures |DictItems(items)| <= |items|
  {
    if items != [] {
      var init := items[..|items| - 1];
      DictItemsMembership(init, r);
      assert items == init + [items[|items| - 1]];
    }
  }

  /** _load_rooms_db() */
  method LoadRoomsDb(f: RoomsFile) returns (rooms: seq<Room>)
    ensures rooms == LoadedRooms(f)
    ensures forall r :: r in rooms <==> f.Items? && Some(r) in f.items
  {
    rooms := [];
    if f.Items? {
      var i := 0;
      while i < |f.items|
        invariant 0 <= i <= |f.items|
        invariant rooms == DictItems(f.items[..i])
      {
        assert f.items[..i + 1][..i] == f.items[..i];
        if f.items[i].Some? {
          rooms := rooms + [f.items[i].value];
        }
        i := i + 1;
      }
      assert f.items[..i] == f.items;
      forall r ensures r in rooms <==> Some(r) in f.items {
        DictItemsMembership(f.items, r);
      }
    }
  }

  // ---------------------------------------------------------------------
  // _build_capacity

  function Capacity(rooms: seq<Room>): map<string, nat> {
    if rooms == [] then map[]
    else
      var c := Capacity(rooms[..|rooms| - 1]);
      var t := rooms[|rooms| - 1].shortType;
      if t == "" then c else c[t := (if t in c then c[t] else 0) + 1]
  }

  function ShortTypes(rooms: seq<Room>): multiset<string> {
    multiset(seq(|rooms|, i requires 0 <= i < |rooms| => rooms[i].shortType))
  }

  lemma ShortTypesSnoc(rooms: seq<Room>, r: Room)
    ensures ShortTypes(rooms + [r]) == ShortTypes(rooms) + multiset{r.shortType}
  {
    var s := seq(|rooms| + 1, i requires 0 <= i < |rooms| + 1 => (rooms + [r])[i].shortType);
    assert s == seq(|rooms|, i requires 0 <= i < |rooms| => rooms[i].shortType) + [r.shortType];
  }

  /** Every non-empty short type is a key exactly when some room has it, and
      maps to the number of rooms having it; "" is never a key. */
  lemma {:induction false} CapacityCounts(rooms: seq<Room>, t: string)
    ensures t in Capacity(rooms) <==> t != "" && ShortTypes(rooms)[t] > 0
    ensures t in Capacity(rooms) ==> Capacity(rooms)[t] == ShortTypes(rooms)[t]
  {
    if rooms != [] {
      var init := rooms[..|rooms| - 1];
      CapacityCounts(init, t);
      assert rooms == init + [rooms[|rooms| - 1]];
      ShortTypesSnoc(init, rooms[|rooms| - 1]);
    }
  }

  /** _build_capacity(all_rooms) */
  method BuildCapacity(rooms: seq<Room>) returns (capacity: map<string, nat>)
    ensures capacity == Capacity(rooms)
  {
    capacity := map[];
    var i := 0;
    while i < |rooms|
      invariant 0 <= i <= |rooms|
      invariant capacity == Capacity(rooms[..i])
    {
      assert rooms[..i + 1][..i] == rooms[..i];
      var t := rooms[i].shortType;
      if t != "" {
        if t !in capacity {
          capacity := capacity[t := 0];
        }
        capacity := capacity[t := capacity[t] + 1];
      }
      i := i + 1;
    }
    assert rooms[..i] == rooms;
  }

  // ---------------------------------------------------------------------
  // The built-in catalog

  const DefaultRooms: seq<Room> := [
    Room("SUNSET_TWIN", "Sunset Twin Room", "Twin", 190.0, "Low", false, false, true, false, Some("101")),
    Room("SEAVIEW_TWIN", "Seaview Twin Room", "Twin", 210.0, "High", false, false, false, false, Some("201")),
    Room("CLASSIC_DOUBLE", "Classic King Room", "Double", 230.0, "Low", false, false, false, false, Some("102")),
    Room("CORAL_SUITE", "Coral Family Suite", "Suite", 260.0, "High", true, false, true, true, Some("501"))
  ]

  const DefaultCapacity: map<string, nat> := map["Twin" := 5, "Double" := 4, "Suite" := 3]

  /** The fixed capacities of the built-in catalog are not the number of its
      rooms: it holds two Twin rooms, one Double and one Suite. */
  lemma DefaultCapacityIsNotRoomCount()
    ensures Capacity(DefaultRooms) == map["Twin" := 2, "Double" := 1, "Suite" := 1]
    ensures Capacity(DefaultRooms) != DefaultCapacity
  {
    assert DefaultRooms[..1][..0] == [];
    assert Capacity(DefaultRooms[..1]) == map["Twin" := 1];
    assert DefaultRooms[..2][..1] == DefaultRooms[..1];
    assert Capacity(DefaultRooms[..2]) == map["Twin" := 2];
    assert DefaultRooms[..3][..2] == DefaultRooms[..2];
    assert Capacity(DefaultRooms[..3]) == map["Twin" := 2, "Double" := 1];
    assert DefaultRooms[..3] == DefaultRooms[..|DefaultRooms| - 1];
  }

  /** The criteria filter_rooms applies to one room that is not booked:
      each one that fails clears the match flag. */
  method RoomMatches(room: Room, filters: Filters, minPrice: Option<real>, maxPrice: Option<real>)
    returns (matches: bool)
    requires minPrice == PriceBound(filters.minPrice) && maxPrice == PriceBound(filters.maxPrice)
    ensures matches == Admits(filters, room)
  {
    matches := true;
    if |filters.roomTypes| > 0 && room.shortType !in filters.roomTypes {
      matches := false;
    }
    if filters.floor != "" && room.floor != filters.floor {
      matches := false;
    }
    if filters.pet && !room.petFriendly {
      matches := false;
    }
    if filters.smoke && !room.smoking {
      matches := false;
    }
    if filters.shuttle && !room.shuttleAvailable {
      matches := false;
    }
    if filters.breakfast && !room.breakfastAvailable {
      matches := false;
    }
    if minPrice.Some? && room.price < minPrice.value {
      matches := false;
    }
    if maxPrice.Some? && room.price > maxPrice.value {
      matches := false;
    }
  }

  /** ROOMS and ROOM_CAPACITY as the module sets them when imported. */
  class RoomCatalog {
    var rooms: seq<Room>
    var capacity: map<string, nat>

    constructor (f: RoomsFile)
      ensures rooms == if LoadedRooms(f) == [] then DefaultRooms else LoadedRooms(f)
      ensures capacity == if LoadedRooms(f) == [] then DefaultCapacity else Capacity(LoadedRooms(f))
    {
      var loaded := LoadRoomsDb(f);
      var built := BuildCapacity(loaded);
      rooms := loaded;
      capacity := built;
      if loaded == [] {
        rooms := DefaultRooms;
        capacity := DefaultCapacity;
      }
    }

    /** filter_rooms(filters_dict, stay_info) against the bookings in store.
        The catalog itself is left as it is. */
    method FilterRooms(store: BookingStore, filters: Filters, stay: Option<Stay>) returns (r: Result<seq<Room>>)
      ensures r == FilteredRooms(store.bookings, rooms, filters, stay)
    {
      var blocked: set<string> := {};
      if stay.Some? {
        var unavailable := store.GetUnavailableRoomNumbers(stay.value.checkIn, stay.value.checkOut);
        if unavailable.Err? {
          return Err(unavailable.error);
        }
        blocked := unavailable.value;
      }
      var minPrice := PriceBound(filters.minPrice);
      var maxPrice := PriceBound(filters.maxPrice);
      var results: seq<Room> := [];
      var i := 0;
      while i < |rooms|
        invariant 0 <= i <= |rooms|
        invariant results == Selected(rooms[..i], blocked, filters)
      {
        assert rooms[..i + 1][..i] == rooms[..i];
        var room := rooms[i];
        if RoomKey(room) !in blocked {
          var matches := RoomMatches(room, filters, minPrice, maxPrice);
          if matches {
            results := results + [Display(room)];
          }
        }
        i := i + 1;
      }
      assert rooms[..i] == rooms;
      return Ok(results);
    }
  }

  // ---------------------------------------------------------------------
  // filter_rooms

  /** The filter page's choices: the room types wanted (none means any), a
      floor ("" means any), the four yes/no preferences, and the price bounds
      exactly as typed. */
  datatype Filters = Filters(
    roomTypes: seq<string>,
    floor: string,
    pet: bool,
    smoke: bool,
    shuttle: bool,
    breakfast: bool,
    minPrice: string,
    maxPrice: string)

  const NoFilters := Filters([], "", false, false, false, false, "", "")

  /** controller.current_stay: ISO check-in and check-out and the nights between. */
  datatype Stay = Stay(checkIn: string, checkOut: string, nights: int)

  /** A typed price bound: none when empty or not a float. */
  function PriceBound(s: string): Option<real> {
    if s == "" then None else ParseFloat(s)
  }

  /** str(room.get("room_number", "")): the text compared with the blocked set. */
  function RoomKey(room: Room): string {
    room.roomNumber.GetOr("")
  }

  /** The copy filter_rooms returns: the name followed by the room number in
      parentheses, or by "(N/A)" when the room has none. */
  function Display(room: Room): (d: Room)
    ensures d.name == room.name + " (" + room.roomNumber.GetOr("N/A") + ")"
    ensures d.(name := room.name) == room
  {
    room.(name := room.name + " (" + room.roomNumber.GetOr("N/A") + ")")
  }

  predicate MeetsPreferences(f: Filters, room: Room) {
    (|f.roomTypes| == 0 || room.shortType in f.roomTypes) &&
    (f.floor == "" || room.floor == f.floor) &&
    (!f.pet || room.petFriendly) &&
    (!f.smoke || room.smoking) &&
    (!f.shuttle || room.shuttleAvailable) &&
    (!f.breakfast || room.breakfastAvailable)
  }

  predicate WithinPrice(f: Filters, price: real) {
    (PriceBound(f.minPrice).None? || PriceBound(f.minPrice).value <= price) &&
    (PriceBound(f.maxPrice).None? || price <= PriceBound(f.maxPrice).value)
  }

  /** All criteria together: they are ANDed. */
  predicate Admits(f: Filters, room: Room) {
    MeetsPreferences(f, room) && WithinPrice(f, room.price)
  }

  predicate Kept(room: Room, blocked: set<string>, f: Filters) {
    RoomKey(room) !in blocked && Admits(f, room)
  }

  /** The display copies of the rooms kept, in catalog order. */
  function Selected(rooms: seq<Room>, blocked: set<string>, f: Filters): (r: seq<Room>)
    ensures |r| <= |rooms|
  {
    if rooms == [] then []
    else
      var last := rooms[|rooms| - 1];
      Selected(rooms[..|rooms| - 1], blocked, f) + if Kept(last, blocked, f) then [Display(last)] else []
  }

  /** The blocked set: computed only when there is a stay. */
  function BlockedFor(bs: seq<Record>, stay: Option<Stay>): Result<set<string>> {
    if stay.Some? then UnavailableRoomNumbers(bs, stay.value.checkIn, stay.value.checkOut) else Ok({})
  }

  /** What filter_rooms returns, or the exception it lets escape. */
  function FilteredRooms(bs: seq<Record>, rooms: seq<Room>, f: Filters, stay: Option<Stay>): Result<seq<Room>> {
    match BlockedFor(bs, stay)
    case Err(e) => Err(e)
    case Ok(blocked) => Ok(Selected(rooms, blocked, f))
  }

  /** Filtering a concatenation filters each part in turn: the result keeps
      catalog order and never merges rooms. */
  lemma {:induction false} SelectedAppend(a: seq<Room>, b: seq<Room>, blocked: set<string>, f: Filters)
    ensures Selected(a + b, blocked, f) == Selected(a, blocked, f) + Selected(b, blocked, f)
  {
    if b == [] {
      assert a + b == a;
    } else {
      var init := b[..|b| - 1];
      SelectedAppend(a, init, blocked, f);
      assert (a + b)[..|a + b| - 1] == a + init;
    }
  }

  /** A room copy is in the result exactly when it displays a kept room. */
  lemma {:induction false} SelectedMembership(rooms: seq<Room>, blocked: set<string>, f: Filters, x: Room)
    ensures x in Selected(rooms, blocked, f) <==>
      exists i :: 0 <= i < |rooms| && Kept(rooms[i], blocked, f) && x == Display(rooms[i])
  {
    if rooms != [] {
      var init := rooms[..|rooms| - 1];
      SelectedMembership(init, blocked, f, x);
      assert forall i :: 0 <= i < |init| ==> init[i] == rooms[i];
    }
  }

  /** With no criteria and no stay, every room comes back, renamed, in order. */
  lemma {:induction false} NoCriteriaListsEveryRoom(rooms: seq<Room>)
    ensures Selected(rooms, {}, NoFilters) == seq(|rooms|, i requires 0 <= i < |rooms| => Display(rooms[i]))
  {
    if rooms != [] {
      NoCriteriaListsEveryRoom(rooms[..|rooms| - 1]);
    }
  }

  lemma NoStayNeverRaises(bs: seq<Record>, rooms: seq<Room>, f: Filters)
    ensures FilteredRooms(bs, rooms, f, None) == Ok(Selected(rooms, {}, f))
  {
  }

  /** Price bounds are inclusive: a room priced exactly at both bounds passes. */
  lemma PriceBoundsInclusive(f: Filters, price: real)
    requires f.minPrice != "" && f.maxPrice != ""
    requires ParseFloat(f.minPrice) == Some(price) && ParseFloat(f.maxPrice) == Some(price)
    ensures WithinPrice(f, price)
  {
  }

  /** A bound that is not a number is no bound at all. */
  lemma UnparseableBoundIgnored(f: Filters, price: real)
    requires ParseFloat(f.minPrice).None? && ParseFloat(f.maxPrice).None?
    ensures WithinPrice(f, price)
  {
  }

  /** A room that fails any single criterion is not admitted. */
  lemma EachCriterionExcludes(f: Filters, room: Room)
    ensures f.pet && !room.petFriendly ==> !Admits(f, room)
    ensures f.smoke && !room.smoking ==> !Admits(f, room)
    ensures f.shuttle && !room.shuttleAvailable ==> !Admits(f, room)
    ensures f.breakfast && !room.breakfastAvailable ==> !Admits(f, room)
    ensures f.floor != "" && room.floor != f.floor ==> !Admits(f, room)
    ensures |f.roomTypes| > 0 && room.shortType !in f.roomTypes ==> !Admits(f, room)
    ensures PriceBound(f.minPrice).Some? && room.price < PriceBound(f.minPrice).value ==> !Admits(f, room)
    ensures PriceBound(f.maxPrice).Some? && room.price > PriceBound(f.maxPrice).value ==> !Admits(f, room)
  {
  }

  /** No double booking: every room filter_rooms offers for a stay has no live
      booking of its number whose stay shares a night with the requested one. */
  lemma FilteredRoomsAreFree(bs: seq<Record>, rooms: seq<Room>, f: Filters, stay: Stay, x: Room)
    requires ParseDate(stay.checkIn).Some? && ParseDate(stay.checkOut).Some?
    requires FilteredRooms(bs, rooms, f, Some(stay)).Ok?
    requires x in FilteredRooms(bs, rooms, f, Some(stay)).value
    ensures var reqIn, reqOut := ParseDate(stay.checkIn).value, ParseDate(stay.checkOut).value;
      exists i :: 0 <= i < |rooms| && x == Display(rooms[i]) && Admits(f, rooms[i]) &&
        (forall k :: 0 <= k < |bs| ==> ContributionOf(bs[k], reqIn, reqOut) != Blocks(RoomKey(rooms[i])))
  {
    var reqIn, reqOut := ParseDate(stay.checkIn).value, ParseDate(stay.checkOut).value;
    var blocked := BlockedRooms(bs, reqIn, reqOut);
    assert UnavailableRoomNumbers(bs, stay.checkIn, stay.checkOut) == Ok(blocked);
    assert FilteredRooms(bs, rooms, f, Some(stay)).value == Selected(rooms, blocked, f);
    SelectedMembership(rooms, blocked, f, x);
    var i :| 0 <= i < |rooms| && Kept(rooms[i], blocked, f) && x == Display(rooms[i]);
    BlockedRoomsMembership(bs, reqIn, reqOut, RoomKey(rooms[i]));
    assert Admits(f, rooms[i]);
  }

  /** A room without a number is never hidden by bookings. */
  lemma UnnumberedRoomAlwaysOffered(bs: seq<Record>, rooms: seq<Room>, f: Filters, stay: Option<Stay>, i: nat)
    requires i < |rooms| && rooms[i].roomNumber.None? && Admits(f, rooms[i])
    requires FilteredRooms(bs, rooms, f, stay).Ok?
    ensures Display(rooms[i]) in FilteredRooms(bs, rooms, f, stay).value
  {
    var blocked := BlockedFor(bs, stay).value;
    if stay.Some? {
      var pin, pout := ParseDate(stay.value.checkIn), ParseDate(stay.value.checkOut);
      if pin.Some? && pout.Some? {
        NoEmptyRoomNumberBlocked(bs, pin.value, pout.value);
      }
    }
    assert Kept(rooms[i], blocked, f);
    SelectedMembership(rooms, blocked, f, Display(rooms[i]));
  }
}
