/** The date-selection and search-result pages (booking_flow_b.py): the
    check of the typed dates and the nights between them, the guards and
    rows of the result table, and the choice of a row. */
module BookingFlowB {
  import opened Common
  import opened Dates
  import opened BookingStorage
  import opened RoomsData
  import opened Session

  // ---------------------------------------------------------------------
  // DateSelectionPage.on_continue

  datatype DateCheck = BadFormat | NotAfter | StayOk(stay: Stay)

  /** The verdict on the typed check-in and check-out: both must parse as
      YYYY-MM-DD after stripping, and check-out must come later. */
  function CheckDates(rawIn: string, rawOut: string): DateCheck {
    var pin, pout := ParseDate(Strip(rawIn)), ParseDate(Strip(rawOut));
    if pin.None? || pout.None? then BadFormat
    else if !Before(pin.value, pout.value) then NotAfter
    else StayOk(Stay(IsoFormat(pin.value), IsoFormat(pout.value), DaysBetween(pin.value, pout.value)))
  }

  /** Every stay on_continue accepts is well formed: its dates read back as
      the dates typed, check-in comes first, and nights is the day count
      between them, at least 1. Rejections say which rule failed. */
  lemma CheckDatesSound(rawIn: string, rawOut: string)
    ensures CheckDates(rawIn, rawOut) == BadFormat <==>
      ParseDate(Strip(rawIn)).None? || ParseDate(Strip(rawOut)).None?
    ensures CheckDates(rawIn, rawOut) == NotAfter <==>
      ParseDate(Strip(rawIn)).Some? && ParseDate(Strip(rawOut)).Some? &&
      !Before(ParseDate(Strip(rawIn)).value, ParseDate(Strip(rawOut)).value)
    ensures CheckDates(rawIn, rawOut).StayOk? ==>
      var stay := CheckDates(rawIn, rawOut).stay;
      var din, dout := ParseDate(Strip(rawIn)).value, ParseDate(Strip(rawOut)).value;
      && ParseDate(stay.checkIn) == Some(din)
      && ParseDate(stay.checkOut) == Some(dout)
      && Before(din, dout)
      && stay.nights == DaysBetween(din, dout)
      && stay.nights >= 1
  {
    var pin, pout := ParseDate(Strip(rawIn)), ParseDate(Strip(rawOut));
    if pin.Some? && pout.Some? {
      ParseIsoFormat(pin.value);
      ParseIsoFormat(pout.value);
      BeforeIffOrdinalLess(pin.value, pout.value);
    }
  }

  /** on_continue(): stores the stay and moves to the filter page, or leaves
      everything as it was. */
  method OnContinue(c: Controller, rawIn: string, rawOut: string) returns (outcome: DateCheck)
    modifies c`currentStay, c`page
    ensures outcome == CheckDates(rawIn, rawOut)
    ensures c.currentStay == if outcome.StayOk? then Some(outcome.stay) else old(c.currentStay)
    ensures c.page == if outcome.StayOk? then "FilterPage" else old(c.page)
  {
    var dIn, dOut := ParseDate(Strip(rawIn)), ParseDate(Strip(rawOut));
    if dIn.None? || dOut.None? {
      return BadFormat;
    }
    if !Before(dIn.value, dOut.value) {
      return NotAfter;
    }
    var nights := DaysBetween(dIn.value, dOut.value);
    var stay := Stay(IsoFormat(dIn.value), IsoFormat(dOut.value), nights);
    c.currentStay := Some(stay);
    c.page := "FilterPage";
    return StayOk(stay);
  }

  // ---------------------------------------------------------------------
  // SearchResultsPage.on_show

  /** One row of the result table: name, type, floor, nightly price, total. */
  datatype Row = Row(name: string, shortType: string, floor: string, price: real, total: real)

  datatype SearchOutcome = MissingFilters | MissingStay | NoMatches | Listed(rows: seq<Row>)

  /** The rows on_show inserts, one per room, in order. */
  method BuildRows(rooms: seq<Room>, nights: int) returns (rows: seq<Row>)
    ensures |rows| == |rooms|
    ensures forall i :: 0 <= i < |rooms| ==>
      rows[i] == Row(rooms[i].name, rooms[i].shortType, rooms[i].floor, rooms[i].price, rooms[i].price * nights as real)
  {
    rows := [];
    var i := 0;
    while i < |rooms|
      invariant 0 <= i <= |rooms|
      invariant |rows| == i
      invariant forall j :: 0 <= j < i ==>
        rows[j] == Row(rooms[j].name, rooms[j].shortType, rooms[j].floor, rooms[j].price, rooms[j].price * nights as real)
    {
      var room := rooms[i];
      var price := room.price;
      var total := price * nights as real;
      rows := rows + [Row(room.name, room.shortType, room.floor, price, total)];
      i := i + 1;
    }
  }

  /** on_show(): no search without filters or without a stay; otherwise the
      search results are stored and listed, each row priced for the stay. */
  method OnShow(c: Controller, catalog: RoomCatalog, store: BookingStore) returns (r: Result<SearchOutcome>)
    modifies c`searchResults
    ensures c.currentFilter.None? ==> r == Ok(MissingFilters) && c.searchResults == old(c.searchResults)
    ensures c.currentFilter.Some? && c.currentStay.None? ==>
      r == Ok(MissingStay) && c.searchResults == old(c.searchResults)
    ensures c.currentFilter.Some? && c.currentStay.Some? ==>
      var found := FilteredRooms(store.bookings, catalog.rooms, c.currentFilter.value, c.currentStay);
      if found.Err? then r == Err(found.error) && c.searchResults == old(c.searchResults)
      else
        && c.searchResults == Some(found.value)
        && r.Ok?
        && (found.value == [] ==> r.value == NoMatches)
        && (found.value != [] ==>
              && r.value.Listed?
              && |r.value.rows| == |found.value|
              && forall i :: 0 <= i < |found.value| ==>
                   var room := found.value[i];
                   r.value.rows[i] == Row(room.name, room.shortType, room.floor, room.price,
                                          room.price * c.currentStay.value.nights as real))
  {
    if c.currentFilter.None? {
      return Ok(MissingFilters);
    }
    if c.currentStay.None? {
      return Ok(MissingStay);
    }
    var nights := c.currentStay.value.nights;
    var rooms := catalog.FilterRooms(store, c.currentFilter.value, c.currentStay);
    if rooms.Err? {
      return Err(rooms.error);
    }
    c.searchResults := Some(rooms.value);
    if rooms.value == [] {
      return Ok(NoMatches);
    }
    var rows := BuildRows(rooms.value, nights);
    return Ok(Listed(rows));
  }

  // ---------------------------------------------------------------------
  // SearchResultsPage.on_choose

  datatype ChooseOutcome = NothingSelected | BadIndex | Chosen(room: Room)

  /** on_choose(), given the table index of the first selected row, if any:
      the choice is accepted only for an index inside the stored results. */
  method OnChoose(c: Controller, selection: Option<int>) returns (outcome: ChooseOutcome)
    modifies c`selectedRoom, c`page
    ensures var rooms := c.searchResults.GetOr([]);
      && (selection.None? ==> outcome == NothingSelected)
      && (selection.Some? && !(0 <= selection.value < |rooms|) ==> outcome == BadIndex)
      && (selection.Some? && 0 <= selection.value < |rooms| ==> outcome == Chosen(rooms[selection.value]))
    ensures c.selectedRoom == if outcome.Chosen? then Some(outcome.room) else old(c.selectedRoom)
    ensures c.page == if outcome.Chosen? then "GuestInfoPage" else old(c.page)
  {
    if selection.None? {
      return NothingSelected;
    }
    var index := selection.value;
    var rooms := c.searchResults.GetOr([]);
    if index < 0 || index >= |rooms| {
      return BadIndex;
    }
    var chosen := rooms[index];
    c.selectedRoom := Some(chosen);
    c.page := "GuestInfoPage";
    return Chosen(chosen);
  }
}
