/** The payment and confirmation pages (booking_flow_d.py): the four
    payment-field validators and the order on_pay applies them in, the
    booking record the confirmation page assembles and stores, and the
    clearing of the draft booking on the way home. */
module BookingFlowD {
  import opened Common
  import opened Dates
  import opened BookingStorage
  import opened RoomsData
  import opened Session

  /** The (valid, message) pair each validator returns. */
  datatype Check = Pass | Fail(message: string)

  // ---------------------------------------------------------------------
  // The validators

  /** The card number with its spaces and hyphens removed. */
  function CleanCard(card: string): string {
    RemoveChar(RemoveChar(card, ' '), '-')
  }

  /** validate_card_number: spaces and hyphens removed, then digits only,
      then exactly sixteen of them. */
  function ValidateCardNumber(card: string): Check {
    var clean := CleanCard(card);
    if !IsDigitText(clean) then Fail("Card number must contain only numbers")
    else if |clean| != 16 then Fail("Card number must be exactly 16 digits")
    else Pass
  }

  predicate IsCardChar(ch: char) {
    IsDigit(ch) || ch == ' ' || ch == '-'
  }

  function DigitCount(s: string): nat {
    if s == [] then 0 else (if IsDigit(s[0]) then 1 else 0) + DigitCount(s[1..])
  }

  lemma {:induction false} RemoveCharAppend(a: string, b: string, x: char)
    ensures RemoveChar(a + b, x) == RemoveChar(a, x) + RemoveChar(b, x)
  {
    if a == [] {
      assert a + b == b;
    } else {
      assert (a + b)[0] == a[0];
      assert (a + b)[1..] == a[1..] + b;
      RemoveCharAppend(a[1..], b, x);
    }
  }

  lemma CleanCardAppend(a: string, b: string)
    ensures CleanCard(a + b) == CleanCard(a) + CleanCard(b)
  {
    RemoveCharAppend(a, b, ' ');
    RemoveCharAppend(RemoveChar(a, ' '), RemoveChar(b, ' '), '-');
  }

  lemma CleanCardChar(ch: char)
    ensures CleanCard([ch]) == if ch == ' ' || ch == '-' then [] else [ch]
  {
    assert [ch][1..] == [];
    var once := RemoveChar([ch], ' ');
    assert once == (if ch == ' ' then [] else [ch]) + RemoveChar([], ' ');
    if ch != ' ' {
      assert RemoveChar(once, '-') == (if ch == '-' then [] else [ch]) + RemoveChar([], '-');
    }
  }

  /** Removing spaces and hyphens leaves only digits exactly when every
      character is a digit, a space or a hyphen, and then leaves each digit. */
  lemma {:induction false} CleanCardDigits(s: string)
    ensures AllDigits(CleanCard(s)) <==> CardChars(s)
    ensures CardChars(s) ==> |CleanCard(s)| == DigitCount(s)
  {
    if s != [] {
      CleanCardDigits(s[1..]);
      assert s == [s[0]] + s[1..];
      CleanCardAppend([s[0]], s[1..]);
      CleanCardChar(s[0]);
      AllDigitsAppend(CleanCard([s[0]]), CleanCard(s[1..]));
      CardCharsCons(s);
    }
  }

  /** Every character is a digit, a space or a hyphen. */
  predicate CardChars(s: string) {
    forall i :: 0 <= i < |s| ==> IsCardChar(s[i])
  }

  lemma CardCharsCons(s: string)
    requires s != []
    ensures CardChars(s) <==> IsCardChar(s[0]) && CardChars(s[1..])
  {
    if IsCardChar(s[0]) && CardChars(s[1..]) {
      forall i | 0 <= i < |s|
        ensures IsCardChar(s[i])
      {
        if i > 0 {
          assert s[i] == s[1..][i - 1];
        }
      }
    }
    if CardChars(s) {
      forall i | 0 <= i < |s| - 1
        ensures IsCardChar(s[1..][i])
      {
        assert s[1..][i] == s[i + 1];
      }
    }
  }

  lemma AllDigitsAppend(a: string, b: string)
    ensures AllDigits(a + b) <==> AllDigits(a) && AllDigits(b)
  {
    if AllDigits(a + b) {
      forall i | 0 <= i < |a|
        ensures IsDigit(a[i])
      {
        assert (a + b)[i] == a[i];
      }
      forall i | 0 <= i < |b|
        ensures IsDigit(b[i])
      {
        assert (a + b)[|a| + i] == b[i];
      }
    }
    if AllDigits(a) && AllDigits(b) {
      forall i | 0 <= i < |a + b|
        ensures IsDigit((a + b)[i])
      {
        if i >= |a| {
          assert (a + b)[i] == b[i - |a|];
        }
      }
    }
  }

  /** A card number passes exactly when it is made of digits, spaces and
      hyphens only and holds sixteen digits. */
  lemma CardNumberValidIff(card: string)
    ensures ValidateCardNumber(card) == Pass <==> CardChars(card) && DigitCount(card) == 16
  {
    CleanCardDigits(card);
  }

  /** validate_cvv: digits only, then exactly three of them. */
  function ValidateCvv(cvv: string): Check {
    if !IsDigitText(cvv) then Fail("CVV must contain only numbers")
    else if |cvv| != 3 then Fail("CVV must be exactly 3 digits")
    else Pass
  }

  lemma CvvValidIff(cvv: string)
    ensures ValidateCvv(cvv) == Pass <==> |cvv| == 3 && AllDigits(cvv)
  {
  }

  /** The pattern ^(0[1-9]|1[0-2])/([0-9]{2})$ under re.match, where $ also
      matches just before one final newline. */
  predicate ExpiryShape(s: string) {
    (|s| == 5 || (|s| == 6 && s[5] == '\n')) &&
    ((s[0] == '0' && '1' <= s[1] <= '9') || (s[0] == '1' && '0' <= s[1] <= '2')) &&
    s[2] == '/' && IsDigit(s[3]) && IsDigit(s[4])
  }

  function ExpiryMonth(s: string): int
    requires ExpiryShape(s)
  {
    DigitValue(s[0]) * 10 + DigitValue(s[1])
  }

  function ExpiryYear(s: string): int
    requires ExpiryShape(s)
  {
    DigitValue(s[3]) * 10 + DigitValue(s[4]) + 2000
  }

  /** validate_expiry, against today's date: the MM/YY shape, then not before
      the current month. */
  function ValidateExpiry(expiry: string, today: Date): (r: Check)
    ensures r == Pass ==> ExpiryShape(expiry) && 1 <= ExpiryMonth(expiry) <= 12
  {
    if !ExpiryShape(expiry) then Fail("Expiry date must be in MM/YY format (e.g., 12/25)")
    else
      var month, year := ExpiryMonth(expiry), ExpiryYear(expiry);
      if year < today.year || (year == today.year && month < today.month) then Fail("Card has expired")
      else Pass
  }

  /** A well-formed expiry passes exactly when its month is the current one or later. */
  lemma ExpiryValidIff(expiry: string, today: Date)
    requires ExpiryShape(expiry)
    ensures ValidateExpiry(expiry, today) == Pass <==>
      (ExpiryYear(expiry), ExpiryMonth(expiry)) == (today.year, today.month) ||
      ExpiryYear(expiry) > today.year ||
      (ExpiryYear(expiry) == today.year && ExpiryMonth(expiry) > today.month)
  {
  }

  /** A card expiring this month is still accepted; one that expired last
      month is not. */
  lemma ExpiryCurrentMonthAccepted()
    ensures ValidateExpiry("10/26", Date(2026, 10, 14)) == Pass
    ensures ValidateExpiry("09/26", Date(2026, 10, 14)) == Fail("Card has expired")
    ensures ValidateExpiry("13/26", Date(2026, 10, 14)) == Fail("Expiry date must be in MM/YY format (e.g., 12/25)")
  {
  }

  /** validate_cardholder: not empty and not only whitespace. */
  function ValidateCardholder(name: string): Check {
    if name == "" || Strip(name) == "" then Fail("Cardholder name cannot be empty") else Pass
  }

  lemma CardholderValidIff(name: string)
    ensures ValidateCardholder(name) == Pass <==> exists i :: 0 <= i < |name| && !IsSpace(name[i])
  {
    StripEmptyIffBlank(name);
  }

  // ---------------------------------------------------------------------
  // PaymentPage.on_pay

  /** The checks on_pay runs on the stripped fields, stopping at the first failure. */
  function PaymentCheck(card: string, cvv: string, expiry: string, cardholder: string, today: Date): Check {
    var c, v, e, h := Strip(card), Strip(cvv), Strip(expiry), Strip(cardholder);
    if ValidateCardNumber(c) != Pass then ValidateCardNumber(c)
    else if ValidateCvv(v) != Pass then ValidateCvv(v)
    else if ValidateExpiry(e, today) != Pass then ValidateExpiry(e, today)
    else ValidateCardholder(h)
  }

  /** Payment goes through exactly when all four fields pass, and a failure
      reports the first failing field in the order card, CVV, expiry, name. */
  lemma PaymentCheckIff(card: string, cvv: string, expiry: string, cardholder: string, today: Date)
    ensures PaymentCheck(card, cvv, expiry, cardholder, today) == Pass <==>
      ValidateCardNumber(Strip(card)) == Pass && ValidateCvv(Strip(cvv)) == Pass &&
      ValidateExpiry(Strip(expiry), today) == Pass && ValidateCardholder(Strip(cardholder)) == Pass
    ensures ValidateCardNumber(Strip(card)).Fail? ==>
      PaymentCheck(card, cvv, expiry, cardholder, today) == ValidateCardNumber(Strip(card))
  {
  }

  /** card[-4:]: the last four characters, or the whole text when shorter. */
  function Last4(card: string): (r: string)
    ensures |card| >= 4 ==> |r| == 4 && card == card[..|card| - 4] + r
    ensures |card| < 4 ==> r == card
  {
    if |card| >= 4 then card[|card| - 4..] else card
  }

  lemma AllDigitsCleanCard(s: string)
    requires AllDigits(s)
    ensures CleanCard(s) == s
  {
    if s != [] {
      assert s == [s[0]] + s[1..];
      CleanCardAppend([s[0]], s[1..]);
      CleanCardChar(s[0]);
      AllDigitsCleanCard(s[1..]);
    }
  }

  /** The stored "last four digits" are the last four characters typed, so a
      hyphen can end up among them: fifteen digits, a hyphen and a digit pass
      the card check and are stored as two digits, the hyphen and the digit. */
  lemma Last4MayHoldSeparator(digits: string, last: char)
    requires |digits| == 15 && AllDigits(digits) && IsDigit(last)
    ensures ValidateCardNumber(digits + "-" + [last]) == Pass
    ensures Last4(digits + "-" + [last]) == digits[13..] + "-" + [last]
  {
    var card := digits + "-" + [last];
    CleanCardAppend(digits + "-", [last]);
    CleanCardAppend(digits, "-");
    CleanCardChar('-');
    CleanCardChar(last);
    AllDigitsCleanCard(digits);
    assert CleanCard(card) == digits + [last];
    assert card[|card| - 4..] == digits[13..] + "-" + [last];
  }

  /** on_pay(): payment_info is written, and the confirmation page
      requested, only when every check passes. */
  method OnPay(c: Controller, card: string, cvv: string, expiry: string, cardholder: string, today: Date)
    returns (r: Check)
    modifies c`paymentInfo, c`page
    ensures r == PaymentCheck(card, cvv, expiry, cardholder, today)
    ensures c.paymentInfo == if r == Pass then Some(PaymentInfo(Last4(Strip(card)), Strip(cardholder), Strip(expiry)))
                             else old(c.paymentInfo)
    ensures c.page == if r == Pass then "ConfirmationPage" else old(c.page)
  {
    var cardText, cvvText, expiryText, holderText := Strip(card), Strip(cvv), Strip(expiry), Strip(cardholder);
    r := ValidateCardNumber(cardText);
    if r != Pass {
      return;
    }
    r := ValidateCvv(cvvText);
    if r != Pass {
      return;
    }
    r := ValidateExpiry(expiryText, today);
    if r != Pass {
      return;
    }
    r := ValidateCardholder(holderText);
    if r != Pass {
      return;
    }
    c.paymentInfo := Some(PaymentInfo(Last4(cardText), holderText, expiryText));
    c.page := "ConfirmationPage";
  }

  // ---------------------------------------------------------------------
  // ConfirmationPage.generate_confirmation and return_home

  /** The guest part of booking_data: empty names and contacts, one adult
      and no children when guest_info is unset. */
  function GuestFields(guest: Option<GuestInfo>): (r: Record)
    ensures r.Keys == {"first_name", "last_name", "email", "phone", "adults", "children"}
    ensures guest.None? ==>
      && r["first_name"] == Str("") && r["last_name"] == Str("")
      && r["email"] == Str("") && r["phone"] == Str("")
      && r["adults"] == Int(1) && r["children"] == Int(0)
    ensures guest.Some? ==>
      && r["first_name"] == Str(guest.value.firstName) && r["last_name"] == Str(guest.value.lastName)
      && r["email"] == Str(guest.value.email) && r["phone"] == Str(guest.value.phone)
      && r["adults"] == Int(guest.value.adults) && r["children"] == Int(guest.value.children)
  {
    map[
      "first_name" := Str(if guest.Some? then guest.value.firstName else ""),
      "last_name" := Str(if guest.Some? then guest.value.lastName else ""),
      "email" := Str(if guest.Some? then guest.value.email else ""),
      "phone" := Str(if guest.Some? then guest.value.phone else ""),
      "adults" := Int(if guest.Some? then guest.value.adults else 1),
      "children" := Int(if guest.Some? then guest.value.children else 0)
    ]
  }

  /** The room part: the type and name only, never the room number. */
  function RoomFields(room: Option<Room>): (r: Record)
    ensures r.Keys == {"room_type", "room_name"}
    ensures room.None? ==> r["room_type"] == Str("Unknown") && r["room_name"] == Str("Unknown Room")
    ensures room.Some? ==> r["room_type"] == Str(room.value.shortType) && r["room_name"] == Str(room.value.name)
  {
    map[
      "room_type" := Str(if room.Some? then room.value.shortType else "Unknown"),
      "room_name" := Str(if room.Some? then room.value.name else "Unknown Room")
    ]
  }

  /** The stay part: empty dates and one night when current_stay is unset. */
  function StayFields(stay: Option<Stay>): (r: Record)
    ensures r.Keys == {"check_in", "check_out", "nights"}
    ensures stay.None? ==> r["nights"] == Int(1) && r["check_in"] == Str("") && r["check_out"] == Str("")
    ensures stay.Some? ==> r["nights"] == Int(stay.value.nights) && r["check_in"] == Str(stay.value.checkIn) &&
                           r["check_out"] == Str(stay.value.checkOut)
  {
    map[
      "check_in" := Str(if stay.Some? then stay.value.checkIn else ""),
      "check_out" := Str(if stay.Some? then stay.value.checkOut else ""),
      "nights" := Int(if stay.Some? then stay.value.nights else 1)
    ]
  }

  /** The add-ons, the price, the card and the status. */
  function ExtraFields(payment: Option<PaymentInfo>, filters: Option<Filters>, total: Option<real>): (r: Record)
    ensures r.Keys == {"breakfast", "shuttle", "total_price", "payment_last4", "status"}
    ensures r["status"] == Str("Confirmed")
    ensures r["total_price"] == Num(total.GetOr(0.0))
    ensures r["payment_last4"] == Str(if payment.Some? then payment.value.cardLast4 else "****")
  {
    map[
      "breakfast" := Bool(filters.Some? && filters.value.breakfast),
      "shuttle" := Bool(filters.Some? && filters.value.shuttle),
      "total_price" := Num(total.GetOr(0.0)),
      "payment_last4" := Str(if payment.Some? then payment.value.cardLast4 else "****"),
      "status" := Str("Confirmed")
    ]
  }

  /** The booking_data dict generate_confirmation hands to add_booking, read
      from the controller with the defaults it uses for missing attributes. */
  function BookingData(stay: Option<Stay>, room: Option<Room>, guest: Option<GuestInfo>,
                       payment: Option<PaymentInfo>, filters: Option<Filters>, total: Option<real>): (r: Record)
    ensures r.Keys == GuestFields(guest).Keys + RoomFields(room).Keys + StayFields(stay).Keys +
                      ExtraFields(payment, filters, total).Keys
    ensures r["status"] == Str("Confirmed")
    ensures r["total_price"] == Num(total.GetOr(0.0))
    ensures r["payment_last4"] == Str(if payment.Some? then payment.value.cardLast4 else "****")
  {
    GuestFields(guest) + RoomFields(room) + StayFields(stay) + ExtraFields(payment, filters, total)
  }

  /** booking_data carries no room number, so the room's number is lost on
      the way to storage, and no code or creation date, so add_booking
      writes both. */
  lemma BookingDataMissingKeys(stay: Option<Stay>, room: Option<Room>, guest: Option<GuestInfo>,
                               payment: Option<PaymentInfo>, filters: Option<Filters>, total: Option<real>)
    ensures var data := BookingData(stay, room, guest, payment, filters, total);
      "room_number" !in data && "confirmation_code" !in data && "created_at" !in data
  {
    KeysOutside(GuestFields(guest).Keys);
    KeysOutside(RoomFields(room).Keys);
    KeysOutside(StayFields(stay).Keys);
    KeysOutside(ExtraFields(payment, filters, total).Keys);
  }

  lemma KeysOutside(keys: set<string>)
    requires keys <= {"first_name", "last_name", "email", "phone", "adults", "children", "room_type",
                      "room_name", "check_in", "check_out", "nights", "breakfast", "shuttle",
                      "total_price", "payment_last4", "status"}
    ensures "room_number" !in keys && "confirmation_code" !in keys && "created_at" !in keys
  {
  }

  /** generate_confirmation(), given the uuid text add_booking draws and
      today's date: the code label and controller.last_confirmation_code on
      success, the label "ERROR" and nothing stored when add_booking raises. */
  method GenerateConfirmation(c: Controller, store: BookingStore, uuidText: string, today: Date)
    returns (shown: string)
    requires Valid(today)
    modifies c`lastConfirmationCode, store
    ensures store.writable == old(store.writable)
    ensures var data := old(BookingData(c.currentStay, c.selectedRoom, c.guestInfo, c.paymentInfo, c.currentFilter, c.bookingTotal));
      if old(store.writable) then
        && shown == ConfirmationCode(uuidText)
        && c.lastConfirmationCode == Some(shown)
        && store.bookings == old(store.bookings) + [NewRecord(data, shown, today)]
      else
        && shown == "ERROR"
        && c.lastConfirmationCode == old(c.lastConfirmationCode)
        && store.bookings == old(store.bookings)
  {
    var data := BookingData(c.currentStay, c.selectedRoom, c.guestInfo, c.paymentInfo, c.currentFilter, c.bookingTotal);
    var added := store.AddBooking(data, uuidText, today);
    if added.Err? {
      return "ERROR";
    }
    shown := added.value;
    c.lastConfirmationCode := Some(shown);
  }

  /** Bookings made through the confirmation page carry no room number, so
      they never make any room unavailable. */
  lemma ConfirmedBookingBlocksNothing(bs: seq<Record>, stay: Option<Stay>, room: Option<Room>, guest: Option<GuestInfo>,
                                      payment: Option<PaymentInfo>, filters: Option<Filters>, total: Option<real>,
                                      code: string, today: Date, checkIn: string, checkOut: string)
    requires Valid(today)
    ensures var stored := NewRecord(BookingData(stay, room, guest, payment, filters, total), code, today);
      UnavailableRoomNumbers(bs + [stored], checkIn, checkOut) == UnavailableRoomNumbers(bs, checkIn, checkOut)
  {
    BookingDataMissingKeys(stay, room, guest, payment, filters, total);
    var stored := NewRecord(BookingData(stay, room, guest, payment, filters, total), code, today);
    StoredBookingUnnumbered(BookingData(stay, room, guest, payment, filters, total), code, today);
    UnnumberedRecordBlocksNothing(bs, stored, checkIn, checkOut);
  }

  lemma StoredBookingUnnumbered(data: Record, code: string, today: Date)
    requires Valid(today) && "room_number" !in data
    ensures "room_number" !in NewRecord(data, code, today)
  {
  }

  /** With controller.booking_total unset, the stored total is 0.0 whatever
      the summary page computed; the stored status is "Confirmed" and the
      creation date today. */
  lemma StoredTotalWithoutBookingTotal(stay: Option<Stay>, room: Option<Room>, guest: Option<GuestInfo>,
                                       payment: Option<PaymentInfo>, filters: Option<Filters>,
                                       code: string, today: Date)
    requires Valid(today)
    ensures var stored := NewRecord(BookingData(stay, room, guest, payment, filters, None), code, today);
      && stored["total_price"] == Num(0.0)
      && stored["status"] == Str("Confirmed")
      && stored["created_at"] == Str(IsoFormat(today))
      && stored["confirmation_code"] == Str(code)
  {
    BookingDataMissingKeys(stay, room, guest, payment, filters, None);
    var data := BookingData(stay, room, guest, payment, filters, None);
    assert "total_price" != "confirmation_code";
  }

  /** return_home(): the seven draft attributes are removed and the welcome
      page requested; search results, total_price, the last confirmation
      code and the current booking are left as they are. */
  method ReturnHome(c: Controller)
    modifies c`currentStay, c`selectedRoom, c`guestSelection, c`guestInfo, c`paymentInfo,
             c`currentFilter, c`bookingTotal, c`page
    ensures c.currentStay.None? && c.selectedRoom.None? && c.guestSelection.None? && c.guestInfo.None?
    ensures c.paymentInfo.None? && c.currentFilter.None? && c.bookingTotal.None?
    ensures c.page == "WelcomePage"
  {
    c.currentStay := None;
    c.selectedRoom := None;
    c.guestSelection := None;
    c.guestInfo := None;
    c.paymentInfo := None;
    c.currentFilter := None;
    c.bookingTotal := None;
    c.page := "WelcomePage";
  }
}
