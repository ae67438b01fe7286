/** The booking record store (booking_storage.py): the list of booking
    records kept in bookings.json, which every operation loads whole and every
    mutation writes back whole. */
module BookingStorage {
  import opened Common
  import opened Dates

  /** What load_bookings finds on disk. */
  datatype StoredFile = Missing | Unreadable | NotAList | Array(records: seq<Record>)

  /** load_bookings(): the stored JSON array, and [] whenever the file is
      absent, cannot be read or decoded, or holds something other than an array. */
  function LoadBookings(f: StoredFile): seq<Record> {
    if f.Array? then f.records else []
  }

  // ---------------------------------------------------------------------
  // Confirmation codes

  predicate IsLowerHex(c: char) {
    '0' <= c <= '9' || 'a' <= c <= 'f'
  }

  predicate IsUpperHex(c: char) {
    '0' <= c <= '9' || 'A' <= c <= 'F'
  }

  /** The text of str(uuid.uuid4()): 32 lower-case hex digits grouped 8-4-4-4-12. */
  predicate IsUuidText(u: string) {
    |u| == 36 &&
    forall i :: 0 <= i < 36 ==>
      if i == 8 || i == 13 || i == 18 || i == 23 then u[i] == '-' else IsLowerHex(u[i])
  }

  /** create_confirmation_code(), given the uuid text it draws: the part
      before the first hyphen, upper-cased. */
  function ConfirmationCode(uuidText: string): string {
    match IndexOf(uuidText, '-')
    case None => Upper(uuidText)
    case Some(k) => Upper(uuidText[..k])
  }

  /** A code drawn from a uuid4 is its first eight hex digits in upper case. */
  lemma UuidCodeShape(u: string)
    requires IsUuidText(u)
    ensures ConfirmationCode(u) == Upper(u[..8])
    ensures |ConfirmationCode(u)| == 8
    ensures forall i :: 0 <= i < 8 ==> IsUpperHex(ConfirmationCode(u)[i]) && ConfirmationCode(u)[i] != '-'
  {
    assert forall j :: 0 <= j < 8 ==> u[j] != '-' by {
      forall j | 0 <= j < 8 ensures u[j] != '-' {
        assert IsLowerHex(u[j]);
      }
    }
    assert u[8] == '-';
    assert IndexOf(u, '-') == Some(8);
    var c := ConfirmationCode(u);
    forall i | 0 <= i < 8 ensures IsUpperHex(c[i]) {
      assert IsLowerHex(u[i]);
    }
  }

  // ---------------------------------------------------------------------
  // add_booking

  /** The record add_booking stores for booking_data: the code written in,
      and "status" and "created_at" filled in only when absent. */
  function NewRecord(data: Record, code: string, today: Date): (r: Record)
    requires Valid(today)
    ensures r.Keys == data.Keys + {"confirmation_code", "status", "created_at"}
    ensures r["confirmation_code"] == Str(code)
    ensures r["status"] == if "status" in data then data["status"] else Str("Confirmed")
    ensures r["created_at"] == if "created_at" in data then data["created_at"] else Str(IsoFormat(today))
    ensures forall k :: k in data && k != "confirmation_code" ==> r[k] == data[k]
  {
    var withCode := data["confirmation_code" := Str(code)];
    var withStatus := if "status" in withCode then withCode else withCode["status" := Str("Confirmed")];
    if "created_at" in withStatus then withStatus else withStatus["created_at" := Str(IsoFormat(today))]
  }

  // ---------------------------------------------------------------------
  // find_booking_by_code and update_booking

  /** The identity test both operations apply to every stored record:
      last name compared lower-cased, code compared upper-cased. */
  predicate Matches(b: Record, lastName: string, code: string) {
    Lower(ToStr(Get(b, "last_name", Str("")))) == Lower(lastName) &&
    Upper(ToStr(Get(b, "confirmation_code", Str("")))) == Upper(code)
  }

  predicate AnyMatch(bs: seq<Record>, lastName: string, code: string) {
    exists i :: 0 <= i < |bs| && Matches(bs[i], lastName, code)
  }

  /** The position of the first matching record. */
  function FirstMatch(bs: seq<Record>, lastName: string, code: string): (r: Option<nat>)
    ensures r.Some? ==> r.value < |bs| && Matches(bs[r.value], lastName, code)
    ensures r.Some? ==> forall j :: 0 <= j < r.value ==> !Matches(bs[j], lastName, code)
    ensures r.None? ==> forall j :: 0 <= j < |bs| ==> !Matches(bs[j], lastName, code)
  {
    if bs == [] then None
    else if Matches(bs[0], lastName, code) then Some(0)
    else
      var rest := FirstMatch(bs[1..], lastName, code);
      assert forall j :: 1 <= j < |bs| ==> bs[j] == bs[1..][j - 1];
      if rest.None? then None else Some(rest.value + 1)
  }

  /** A first match exists exactly when some record matches. */
  lemma FirstMatchIffAny(bs: seq<Record>, lastName: string, code: string)
    ensures FirstMatch(bs, lastName, code).Some? <==> AnyMatch(bs, lastName, code)
  {
    var r := FirstMatch(bs, lastName, code);
    if r.Some? {
      assert Matches(bs[r.value], lastName, code);
    }
  }

  /** What find_booking_by_code returns. */
  function FindBooking(bs: seq<Record>, lastName: string, code: string): Option<Record> {
    match FirstMatch(bs, lastName, code)
    case None => None
    case Some(i) => Some(bs[i])
  }

  /** The list update_booking writes: new_fields merged into every match. */
  function UpdateMatching(bs: seq<Record>, lastName: string, code: string, newFields: Record): seq<Record> {
    seq(|bs|, i requires 0 <= i < |bs| => if Matches(bs[i], lastName, code) then bs[i] + newFields else bs[i])
  }

  lemma UpdateMatchingSnoc(bs: seq<Record>, b: Record, lastName: string, code: string, newFields: Record)
    ensures UpdateMatching(bs + [b], lastName, code, newFields) ==
      UpdateMatching(bs, lastName, code, newFields) + [if Matches(b, lastName, code) then b + newFields else b]
    ensures AnyMatch(bs + [b], lastName, code) <==> AnyMatch(bs, lastName, code) || Matches(b, lastName, code)
  {
    var whole := UpdateMatching(bs + [b], lastName, code, newFields);
    var parts := UpdateMatching(bs, lastName, code, newFields) + [if Matches(b, lastName, code) then b + newFields else b];
    assert |whole| == |parts|;
    assert forall i :: 0 <= i < |bs| ==> (bs + [b])[i] == bs[i];
    assert forall i :: 0 <= i < |bs| ==> whole[i] == parts[i];
    assert whole[|bs|] == parts[|bs|];
    AnyMatchSnoc(bs, b, lastName, code);
  }

  lemma AnyMatchSnoc(bs: seq<Record>, b: Record, lastName: string, code: string)
    ensures AnyMatch(bs + [b], lastName, code) <==> AnyMatch(bs, lastName, code) || Matches(b, lastName, code)
  {
    assert forall i :: 0 <= i < |bs| ==> (bs + [b])[i] == bs[i];
    if AnyMatch(bs + [b], lastName, code) && !Matches(b, lastName, code) {
      var i :| 0 <= i < |bs| + 1 && Matches((bs + [b])[i], lastName, code);
      assert i < |bs| && Matches(bs[i], lastName, code);
    }
    if AnyMatch(bs, lastName, code) {
      var i :| 0 <= i < |bs| && Matches(bs[i], lastName, code);
      assert Matches((bs + [b])[i], lastName, code);
    }
    if Matches(b, lastName, code) {
      assert (bs + [b])[|bs|] == b;
    }
  }

  const CancelFields: Record := map["status" := Str("Cancelled")]

  /** Appending a record never changes which older record is found first. */
  lemma {:induction false} FirstMatchAppend(bs: seq<Record>, b: Record, lastName: string, code: string)
    ensures FirstMatch(bs + [b], lastName, code) ==
      if FirstMatch(bs, lastName, code).Some? then FirstMatch(bs, lastName, code)
      else if Matches(b, lastName, code) then Some(|bs|)
      else None
  {
    var s := bs + [b];
    assert forall i :: 0 <= i < |bs| ==> s[i] == bs[i];
    assert s[|bs|] == b;
    var first := FirstMatch(bs, lastName, code);
    if first.Some? {
      FirstMatchUnique(s, lastName, code, first.value);
    } else if Matches(b, lastName, code) {
      FirstMatchUnique(s, lastName, code, |bs|);
    } else {
      assert !AnyMatch(s, lastName, code);
    }
  }

  /** A position that matches, with no match before it, is the first match. */
  lemma {:induction false} FirstMatchUnique(bs: seq<Record>, lastName: string, code: string, k: nat)
    requires k < |bs| && Matches(bs[k], lastName, code)
    requires forall j :: 0 <= j < k ==> !Matches(bs[j], lastName, code)
    ensures FirstMatch(bs, lastName, code) == Some(k)
  {
    if k > 0 {
      var tail := bs[1..];
      assert !Matches(bs[0], lastName, code);
      assert tail[k - 1] == bs[k];
      forall j | 0 <= j < k - 1
        ensures !Matches(tail[j], lastName, code)
      {
        assert tail[j] == bs[j + 1];
      }
      FirstMatchUnique(tail, lastName, code, k - 1);
    }
  }

  /** add_booking does not compare the new code with the stored ones: when an
      older record already answers to the same last name and code, lookups keep
      returning the older record (an update writes to both, since it changes
      every matching record: see UpdateChangesOnlyGivenFields). */
  lemma DuplicateCodeShadowed(bs: seq<Record>, data: Record, uuidText: string, today: Date, lastName: string)
    requires Valid(today)
    requires FirstMatch(bs, lastName, ConfirmationCode(uuidText)).Some?
    ensures var code := ConfirmationCode(uuidText);
      var stored := bs + [NewRecord(data, code, today)];
      FindBooking(stored, lastName, code) == FindBooking(bs, lastName, code)
  {
    FirstMatchAppend(bs, NewRecord(data, ConfirmationCode(uuidText), today), lastName, ConfirmationCode(uuidText));
  }

  /** A record just added can be found by its last name and the returned code
      unless an older record answers to them first. */
  lemma NewRecordFound(bs: seq<Record>, data: Record, code: string, today: Date)
    requires Valid(today)
    requires !AnyMatch(bs, ToStr(Get(data, "last_name", Str(""))), code)
    ensures FindBooking(bs + [NewRecord(data, code, today)], ToStr(Get(data, "last_name", Str(""))), code)
      == Some(NewRecord(data, code, today))
  {
    var lastName := ToStr(Get(data, "last_name", Str("")));
    var r := NewRecord(data, code, today);
    assert Get(r, "last_name", Str("")) == Get(data, "last_name", Str(""));
    assert Matches(r, lastName, code);
    FirstMatchAppend(bs, r, lastName, code);
  }

  /** Fields that are not identity fields leave the identity test unchanged. */
  lemma MergeKeepsIdentity(b: Record, newFields: Record, lastName: string, code: string)
    requires "last_name" !in newFields && "confirmation_code" !in newFields
    ensures Matches(b + newFields, lastName, code) == Matches(b, lastName, code)
  {
    assert Get(b + newFields, "last_name", Str("")) == Get(b, "last_name", Str(""));
    assert Get(b + newFields, "confirmation_code", Str("")) == Get(b, "confirmation_code", Str(""));
  }

  /** After an update that leaves the identity fields alone, the same lookup
      finds the same position, now holding the merged record. */
  lemma {:induction false} FindAfterUpdate(bs: seq<Record>, lastName: string, code: string, newFields: Record)
    requires "last_name" !in newFields && "confirmation_code" !in newFields
    ensures FirstMatch(UpdateMatching(bs, lastName, code, newFields), lastName, code) == FirstMatch(bs, lastName, code)
    ensures FindBooking(UpdateMatching(bs, lastName, code, newFields), lastName, code) ==
      match FindBooking(bs, lastName, code)
      case None => None
      case Some(b) => Some(b + newFields)
  {
    var ub := UpdateMatching(bs, lastName, code, newFields);
    if bs != [] {
      MergeKeepsIdentity(bs[0], newFields, lastName, code);
      assert ub[1..] == UpdateMatching(bs[1..], lastName, code, newFields);
      FindAfterUpdate(bs[1..], lastName, code, newFields);
    }
  }

  /** cancel followed by find: the found record is the old one with status
      "Cancelled" and every other field as before. */
  lemma CancelThenFind(bs: seq<Record>, lastName: string, code: string)
    requires FindBooking(bs, lastName, code).Some?
    ensures var found := FindBooking(UpdateMatching(bs, lastName, code, CancelFields), lastName, code);
      var before := FindBooking(bs, lastName, code).value;
      && found.Some?
      && found.value["status"] == Str("Cancelled")
      && found.value.Keys == before.Keys + {"status"}
      && forall k :: k in before && k != "status" ==> found.value[k] == before[k]
  {
    FindAfterUpdate(bs, lastName, code, CancelFields);
  }

  /** An update never adds or removes a record and never touches a field it
      was not given; a record that does not answer to the identity is kept as is. */
  lemma UpdateChangesOnlyGivenFields(bs: seq<Record>, lastName: string, code: string, newFields: Record)
    ensures var ub := UpdateMatching(bs, lastName, code, newFields);
      && |ub| == |bs|
      && (forall i :: 0 <= i < |bs| && !Matches(bs[i], lastName, code) ==> ub[i] == bs[i])
      && (forall i, k :: 0 <= i < |bs| && k !in newFields ==> (k in ub[i] <==> k in bs[i]))
      && (forall i, k :: 0 <= i < |bs| && k !in newFields && k in bs[i] ==> ub[i][k] == bs[i][k])
      && (forall i, k :: 0 <= i < |bs| && Matches(bs[i], lastName, code) && k in newFields ==> ub[i][k] == newFields[k])
  {
  }

  // ---------------------------------------------------------------------
  // count_confirmed_by_room_type

  /** A record counted for room type t: its room type is exactly t and its
      status, "Confirmed" when absent, is exactly "Confirmed". */
  predicate ConfirmedOfType(b: Record, t: string) {
    ToStr(Get(b, "room_type", Str(""))) == t && Get(b, "status", Str("Confirmed")) == Str("Confirmed")
  }

  function CountConfirmed(bs: seq<Record>, t: string): nat {
    if bs == [] then 0
    else CountConfirmed(bs[..|bs| - 1], t) + (if ConfirmedOfType(bs[|bs| - 1], t) then 1 else 0)
  }

  /** The count is zero exactly when no record qualifies, and never exceeds the list. */
  lemma {:induction false} CountConfirmedZero(bs: seq<Record>, t: string)
    ensures CountConfirmed(bs, t) == 0 <==> forall i :: 0 <= i < |bs| ==> !ConfirmedOfType(bs[i], t)
    ensures CountConfirmed(bs, t) <= |bs|
  {
    if bs != [] {
      CountConfirmedZero(bs[..|bs| - 1], t);
    }
  }

  /** Whenever every record that qualifies afterwards already qualified, the
      count cannot grow. */
  lemma {:induction false} CountConfirmedMonotone(bs: seq<Record>, cs: seq<Record>, t: string)
    requires |cs| == |bs|
    requires forall i :: 0 <= i < |cs| && ConfirmedOfType(cs[i], t) ==> ConfirmedOfType(bs[i], t)
    ensures CountConfirmed(cs, t) <= CountConfirmed(bs, t)
  {
    if bs != [] {
      CountConfirmedMonotone(bs[..|bs| - 1], cs[..|cs| - 1], t);
    }
  }

  /** Cancelling never increases any room type's confirmed count. */
  lemma CancelNeverIncreasesCount(bs: seq<Record>, lastName: string, code: string, t: string)
    ensures CountConfirmed(UpdateMatching(bs, lastName, code, CancelFields), t) <= CountConfirmed(bs, t)
  {
    CountConfirmedMonotone(bs, UpdateMatching(bs, lastName, code, CancelFields), t);
  }

  /** A record without a status counts as confirmed; a status in any other
      spelling does not count. */
  lemma StatusDefaultCounts(b: Record, t: string)
    requires ToStr(Get(b, "room_type", Str(""))) == t
    ensures "status" !in b ==> ConfirmedOfType(b, t)
    ensures "status" in b && b["status"] != Str("Confirmed") ==> !ConfirmedOfType(b, t)
  {
  }

  // ---------------------------------------------------------------------
  // get_unavailable_room_numbers

  /** How strptime treats a stored date field. */
  datatype DateField = Parsed(date: Date) | Unparseable | NotText

  function ReadDate(v: Value): DateField {
    match v
    case Str(s) => if ParseDate(s).Some? then Parsed(ParseDate(s).value) else Unparseable
    case _ => NotText
  }

  predicate IsCancelled(b: Record) {
    Get(b, "status", Null) == Str("Cancelled")
  }

  /** What one stored record adds to the occupied set of a requested stay. */
  datatype Contribution = Skip | Blocks(room: string) | Raises

  /** One pass of the loop body: cancelled records and records without a
      truthy room number are skipped, then the stored dates are parsed (an
      unparseable one skips the record, a non-text one makes strptime raise
      TypeError), then the half-open stays are compared for overlap. */
  function ContributionOf(b: Record, reqIn: Date, reqOut: Date): Contribution {
    if IsCancelled(b) then Skip
    else
      var roomNumber := Get(b, "room_number", Null);
      if !Truthy(roomNumber) then Skip
      else match ReadDate(Get(b, "check_in", Str("")))
        case NotText => Raises
        case Unparseable => Skip
        case Parsed(bIn) =>
          match ReadDate(Get(b, "check_out", Str("")))
          case NotText => Raises
          case Unparseable => Skip
          case Parsed(bOut) =>
            if Before(reqIn, bOut) && Before(bIn, reqOut) then Blocks(ToStr(roomNumber)) else Skip
  }

  /** The contribution of every stored record, in file order. */
  function Contributions(bs: seq<Record>, reqIn: Date, reqOut: Date): seq<Contribution> {
    seq(|bs|, i requires 0 <= i < |bs| => ContributionOf(bs[i], reqIn, reqOut))
  }

  /** The room numbers a run of contributions blocks. */
  function BlockedBy(cs: seq<Contribution>): set<string> {
    if cs == [] then {}
    else BlockedBy(cs[..|cs| - 1]) + if cs[|cs| - 1].Blocks? then {cs[|cs| - 1].room} else {}
  }

  function BlockedRooms(bs: seq<Record>, reqIn: Date, reqOut: Date): set<string> {
    BlockedBy(Contributions(bs, reqIn, reqOut))
  }

  lemma {:induction false} BlockedByMembership(cs: seq<Contribution>, n: string)
    ensures n in BlockedBy(cs) <==> exists i :: 0 <= i < |cs| && cs[i] == Blocks(n)
  {
    if cs != [] {
      var init := cs[..|cs| - 1];
      BlockedByMembership(init, n);
      assert forall i :: 0 <= i < |init| ==> init[i] == cs[i];
    }
  }

  predicate SomeRaises(bs: seq<Record>, reqIn: Date, reqOut: Date) {
    exists i :: 0 <= i < |bs| && ContributionOf(bs[i], reqIn, reqOut) == Raises
  }

  /** What get_unavailable_room_numbers(check_in_str, check_out_str) returns. */
  function UnavailableRoomNumbers(bs: seq<Record>, checkIn: string, checkOut: string): Result<set<string>> {
    match (ParseDate(checkIn), ParseDate(checkOut))
    case (Some(reqIn), Some(reqOut)) =>
      if SomeRaises(bs, reqIn, reqOut) then Err(TypeError) else Ok(BlockedRooms(bs, reqIn, reqOut))
    case _ => Ok({})
  }

  lemma BlockedRoomsSnoc(bs: seq<Record>, b: Record, reqIn: Date, reqOut: Date)
    ensures BlockedRooms(bs + [b], reqIn, reqOut) ==
      BlockedRooms(bs, reqIn, reqOut) + if ContributionOf(b, reqIn, reqOut).Blocks? then {ContributionOf(b, reqIn, reqOut).room} else {}
  {
    var cs := Contributions(bs + [b], reqIn, reqOut);
    assert cs[..|bs|] == Contributions(bs, reqIn, reqOut);
  }

  /** A room number is occupied exactly when some stored record blocks it. */
  lemma BlockedRoomsMembership(bs: seq<Record>, reqIn: Date, reqOut: Date, n: string)
    ensures n in BlockedRooms(bs, reqIn, reqOut) <==>
      exists i :: 0 <= i < |bs| && ContributionOf(bs[i], reqIn, reqOut) == Blocks(n)
  {
    var cs := Contributions(bs, reqIn, reqOut);
    BlockedByMembership(cs, n);
    assert forall i :: 0 <= i < |bs| ==> cs[i] == ContributionOf(bs[i], reqIn, reqOut);
  }

  /** The overlap rule: when both requested dates parse and nothing raises,
      room n is unavailable exactly when some live record with room number n
      and parseable dates shares a night with the requested half-open stay. */
  lemma UnavailableIffOverlap(bs: seq<Record>, checkIn: string, checkOut: string, n: string)
    requires ParseDate(checkIn).Some? && ParseDate(checkOut).Some?
    requires UnavailableRoomNumbers(bs, checkIn, checkOut).Ok?
    ensures var reqIn, reqOut := ParseDate(checkIn).value, ParseDate(checkOut).value;
      n in UnavailableRoomNumbers(bs, checkIn, checkOut).value <==>
      exists i :: 0 <= i < |bs| && !IsCancelled(bs[i])
        && Truthy(Get(bs[i], "room_number", Null)) && ToStr(Get(bs[i], "room_number", Null)) == n
        && ReadDate(Get(bs[i], "check_in", Str(""))).Parsed?
        && ReadDate(Get(bs[i], "check_out", Str(""))).Parsed?
        && Before(reqIn, ReadDate(Get(bs[i], "check_out", Str(""))).date)
        && Before(ReadDate(Get(bs[i], "check_in", Str(""))).date, reqOut)
  {
    BlockedRoomsMembership(bs, ParseDate(checkIn).value, ParseDate(checkOut).value, n);
  }

  /** Back-to-back stays never collide: a record whose stay ends on the
      requested check-in, or starts on the requested check-out, blocks nothing. */
  lemma BackToBackNeverBlocks(b: Record, reqIn: Date, reqOut: Date)
    requires ReadDate(Get(b, "check_out", Str(""))) == Parsed(reqIn) ||
             ReadDate(Get(b, "check_in", Str(""))) == Parsed(reqOut)
    ensures !ContributionOf(b, reqIn, reqOut).Blocks?
  {
  }

  /** A live numbered record blocks its room for every requested stay that
      lies inside its own [check_in, check_out). */
  lemma StayInsideBookingBlocks(b: Record, reqIn: Date, reqOut: Date)
    requires !IsCancelled(b) && Truthy(Get(b, "room_number", Null))
    requires ReadDate(Get(b, "check_in", Str(""))).Parsed? && ReadDate(Get(b, "check_out", Str(""))).Parsed?
    requires !Before(reqIn, ReadDate(Get(b, "check_in", Str(""))).date)
    requires !Before(ReadDate(Get(b, "check_out", Str(""))).date, reqOut)
    requires Before(reqIn, reqOut)
    ensures ContributionOf(b, reqIn, reqOut) == Blocks(ToStr(Get(b, "room_number", Null)))
  {
  }

  /** The empty string is never reported as occupied. */
  lemma NoEmptyRoomNumberBlocked(bs: seq<Record>, reqIn: Date, reqOut: Date)
    ensures "" !in BlockedRooms(bs, reqIn, reqOut)
  {
    BlockedRoomsMembership(bs, reqIn, reqOut, "");
    forall i | 0 <= i < |bs| && ContributionOf(bs[i], reqIn, reqOut).Blocks?
      ensures ContributionOf(bs[i], reqIn, reqOut) != Blocks("")
    {
      TruthyToStrNonEmpty(Get(bs[i], "room_number", Null));
    }
  }

  lemma SomeRaisesSnoc(bs: seq<Record>, b: Record, reqIn: Date, reqOut: Date)
    ensures SomeRaises(bs + [b], reqIn, reqOut) <==>
      SomeRaises(bs, reqIn, reqOut) || ContributionOf(b, reqIn, reqOut) == Raises
  {
    if SomeRaises(bs + [b], reqIn, reqOut) && ContributionOf(b, reqIn, reqOut) != Raises {
      var i :| 0 <= i < |bs| + 1 && ContributionOf((bs + [b])[i], reqIn, reqOut) == Raises;
      assert i < |bs| && (bs + [b])[i] == bs[i];
    }
    if SomeRaises(bs, reqIn, reqOut) {
      var i :| 0 <= i < |bs| && ContributionOf(bs[i], reqIn, reqOut) == Raises;
      assert (bs + [b])[i] == bs[i];
    }
    if ContributionOf(b, reqIn, reqOut) == Raises {
      assert (bs + [b])[|bs|] == b;
    }
  }

  lemma UnnumberedContributesNothing(b: Record, reqIn: Date, reqOut: Date)
    requires "room_number" !in b
    ensures ContributionOf(b, reqIn, reqOut) == Skip
  {
  }

  /** A record without a "room_number" key leaves the occupied set, and
      whether the query raises, exactly as they were. */
  lemma UnnumberedRecordBlocksNothing(bs: seq<Record>, b: Record, checkIn: string, checkOut: string)
    requires "room_number" !in b
    ensures UnavailableRoomNumbers(bs + [b], checkIn, checkOut) == UnavailableRoomNumbers(bs, checkIn, checkOut)
  {
    var pin, pout := ParseDate(checkIn), ParseDate(checkOut);
    if pin.Some? && pout.Some? {
      UnnumberedContributesNothing(b, pin.value, pout.value);
      BlockedRoomsSnoc(bs, b, pin.value, pout.value);
      SomeRaisesSnoc(bs, b, pin.value, pout.value);
      assert BlockedRooms(bs + [b], pin.value, pout.value) == BlockedRooms(bs, pin.value, pout.value);
      assert SomeRaises(bs + [b], pin.value, pout.value) == SomeRaises(bs, pin.value, pout.value);
    }
  }

  // ---------------------------------------------------------------------
  // The store

  /** The loop of get_unavailable_room_numbers once both requested dates
      have parsed: it stops at the first record whose dates raise. */
  method ScanBookings(bs: seq<Record>, reqIn: Date, reqOut: Date) returns (r: Result<set<string>>)
    ensures r == if SomeRaises(bs, reqIn, reqOut) then Err(TypeError) else Ok(BlockedRooms(bs, reqIn, reqOut))
  {
    var unavailable: set<string> := {};
    ghost var cs := Contributions(bs, reqIn, reqOut);
    var i := 0;
    while i < |bs|
      invariant 0 <= i <= |bs|
      invariant unavailable == BlockedBy(cs[..i])
      invariant forall j :: 0 <= j < i ==> cs[j] != Raises
    {
      var contribution := ContributionOf(bs[i], reqIn, reqOut);
      assert contribution == cs[i];
      if contribution == Raises {
        assert SomeRaises(bs, reqIn, reqOut);
        return Err(TypeError);
      }
      assert cs[..i + 1][..i] == cs[..i];
      if contribution.Blocks? {
        unavailable := unavailable + {contribution.room};
      }
      i := i + 1;
    }
    assert cs[..i] == cs;
    assert !SomeRaises(bs, reqIn, reqOut) by {
      assert forall j :: 0 <= j < |bs| ==> ContributionOf(bs[j], reqIn, reqOut) == cs[j];
    }
    return Ok(unavailable);
  }

  class BookingStore {
    /** The list load_bookings returns at this moment. */
    var bookings: seq<Record>
    /** Whether save_bookings can open bookings.json for writing. */
    var writable: bool

    constructor (file: StoredFile, writable: bool)
      ensures bookings == LoadBookings(file) && this.writable == writable
    {
      bookings := LoadBookings(file);
      this.writable := writable;
    }

    /** add_booking(booking_data), given the uuid text and today's date. A
        failed write raises before anything reaches the file. */
    method AddBooking(data: Record, uuidText: string, today: Date) returns (r: Result<string>)
      requires Valid(today)
      modifies this
      ensures writable == old(writable)
      ensures r == if writable then Ok(ConfirmationCode(uuidText)) else Err(IoError)
      ensures bookings == if r.Ok? then old(bookings) + [NewRecord(data, r.value, today)] else old(bookings)
    {
      var code := ConfirmationCode(uuidText);
      var record := NewRecord(data, code, today);
      if !writable {
        return Err(IoError);
      }
      bookings := bookings + [record];
      return Ok(code);
    }

    /** find_booking_by_code(last_name, code) */
    method FindBookingByCode(lastName: string, code: string) returns (r: Option<Record>)
      ensures r.Some? <==> AnyMatch(bookings, lastName, code)
      ensures r.Some? ==>
        exists i :: 0 <= i < |bookings| && r.value == bookings[i] &&
          Matches(bookings[i], lastName, code) &&
          (forall j :: 0 <= j < i ==> !Matches(bookings[j], lastName, code))
      ensures r == FindBooking(bookings, lastName, code)
    {
      var i := 0;
      while i < |bookings|
        invariant 0 <= i <= |bookings|
        invariant forall j :: 0 <= j < i ==> !Matches(bookings[j], lastName, code)
      {
        if Matches(bookings[i], lastName, code) {
          FirstMatchUnique(bookings, lastName, code, i);
          return Some(bookings[i]);
        }
        i := i + 1;
      }
      FirstMatchIffAny(bookings, lastName, code);
      return None;
    }

    /** update_booking(last_name, code, new_fields): merges new_fields into
        every matching record and writes the list back only when one matched. */
    method UpdateBooking(lastName: string, code: string, newFields: Record) returns (r: Result<bool>)
      modifies this
      ensures writable == old(writable)
      ensures r == if AnyMatch(old(bookings), lastName, code) && !writable then Err(IoError)
                   else Ok(AnyMatch(old(bookings), lastName, code))
      ensures bookings == if r == Ok(true) then UpdateMatching(old(bookings), lastName, code, newFields)
                          else old(bookings)
    {
      var current := bookings;
      var result: seq<Record> := [];
      var updated := false;
      var i := 0;
      while i < |current|
        invariant 0 <= i <= |current|
        invariant bookings == current && writable == old(writable)
        invariant result == UpdateMatching(current[..i], lastName, code, newFields)
        invariant updated <==> AnyMatch(current[..i], lastName, code)
      {
        var booking := current[i];
        assert current[..i + 1] == current[..i] + [booking];
        UpdateMatchingSnoc(current[..i], booking, lastName, code, newFields);
        if Matches(booking, lastName, code) {
          booking := booking + newFields;
          updated := true;
        }
        result := result + [booking];
        i := i + 1;
      }
      assert current[..i] == current;
      if updated {
        if !writable {
          return Err(IoError);
        }
        bookings := result;
      }
      return Ok(updated);
    }

    /** cancel_booking(last_name, code): update_booking with status "Cancelled". */
    method CancelBooking(lastName: string, code: string) returns (r: Result<bool>)
      modifies this
      ensures writable == old(writable)
      ensures r == if AnyMatch(old(bookings), lastName, code) && !writable then Err(IoError)
                   else Ok(AnyMatch(old(bookings), lastName, code))
      ensures bookings == if r == Ok(true) then UpdateMatching(old(bookings), lastName, code, CancelFields)
                          else old(bookings)
      ensures |bookings| == |old(bookings)|
    {
      r := UpdateBooking(lastName, code, CancelFields);
    }

    /** count_confirmed_by_room_type(room_type) */
    method CountConfirmedByRoomType(roomType: string) returns (count: nat)
      ensures count == CountConfirmed(bookings, roomType)
    {
      count := 0;
      var i := 0;
      while i < |bookings|
        invariant 0 <= i <= |bookings|
        invariant count == CountConfirmed(bookings[..i], roomType)
      {
        assert bookings[..i + 1][..i] == bookings[..i];
        if ConfirmedOfType(bookings[i], roomType) {
          count := count + 1;
        }
        i := i + 1;
      }
      assert bookings[..i] == bookings;
    }

    /** get_unavailable_room_numbers(check_in_str, check_out_str) */
    method GetUnavailableRoomNumbers(checkIn: string, checkOut: string) returns (r: Result<set<string>>)
      ensures r == UnavailableRoomNumbers(bookings, checkIn, checkOut)
    {
      var parsedIn, parsedOut := ParseDate(checkIn), ParseDate(checkOut);
      if parsedIn.None? || parsedOut.None? {
        return Ok({});
      }
      r := ScanBookings(bookings, parsedIn.value, parsedOut.value);
    }
  }
}
