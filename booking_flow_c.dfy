/** The guest-information and summary pages (booking_flow_c.py): the
    adults/children clamp on the spinboxes, the guest-field checks, and the
    price the summary shows and hands on to payment. */
module BookingFlowC {
  import opened Common
  import opened RoomsData
  import opened Session

  // ---------------------------------------------------------------------
  // GuestInfoPage.check_children

  /** The children spinbox text check_children leaves behind. */
  function ClampChildren(adultsText: string, childrenText: string): string {
    var a, c := ParseInt(adultsText), ParseInt(childrenText);
    if a.None? || c.None? then "0"
    else if c.value >= a.value then IntToStr(Max(a.value - 1, 0))
    else if a.value + c.value > 6 then IntToStr(Max(6 - a.value, 0))
    else childrenText
  }

  function Max(x: int, y: int): int {
    if x >= y then x else y
  }

  /** What the clamp guarantees: the children value becomes a number below
      the adults (when there is at least one adult), a value that passed the
      first rule is cut to fit six guests (when adults are at most six), and a
      value that already fits is left as typed. */
  lemma ClampChildrenEffect(adultsText: string, childrenText: string)
    requires ParseInt(adultsText).Some? && ParseInt(childrenText).Some?
    ensures var a, c := ParseInt(adultsText).value, ParseInt(childrenText).value;
      var c2 := ParseInt(ClampChildren(adultsText, childrenText));
      && c2.Some?
      && (c2.value >= 0 || c2.value == c)
      && (a >= 1 ==> c2.value < a)
      && (c < a && a <= 6 ==> a + c2.value <= 6)
      && (c < a && a + c <= 6 ==> ClampChildren(adultsText, childrenText) == childrenText)
  {
    var a, c := ParseInt(adultsText).value, ParseInt(childrenText).value;
    ParseIntOfIntToStr(Max(a - 1, 0));
    ParseIntOfIntToStr(Max(6 - a, 0));
  }

  /** Rule 1 returns before rule 2 is looked at, so the six-guest cap can be
      missed: six adults and six children become six adults and five children. */
  lemma ClampCanExceedSixGuests()
    ensures ClampChildren("6", "6") == "5"
  {
    assert Strip("6") == "6";
    assert DigitsValue("6") == 6 by {
      assert ("6")[..0] == [];
    }
    assert NatToStr(5) == "5";
  }

  /** A non-numeric entry in either spinbox resets children to "0". */
  lemma ClampResetsOnBadInput(adultsText: string, childrenText: string)
    requires ParseInt(adultsText).None? || ParseInt(childrenText).None?
    ensures ClampChildren(adultsText, childrenText) == "0"
  {
  }

  /** The two spinboxes of the guest page, as text. */
  class GuestForm {
    var adultsText: string
    var childrenText: string

    constructor (adultsText: string, childrenText: string)
      ensures this.adultsText == adultsText && this.childrenText == childrenText
    {
      this.adultsText := adultsText;
      this.childrenText := childrenText;
    }

    /** check_children(): rewrites the children spinbox only. */
    method CheckChildren()
      modifies this`childrenText
      ensures childrenText == ClampChildren(adultsText, old(childrenText))
    {
      var adults := ParseInt(adultsText);
      var children := ParseInt(childrenText);
      if adults.None? || children.None? {
        childrenText := "0";
        return;
      }
      if children.value >= adults.value {
        var newValue := if adults.value - 1 >= 0 then adults.value - 1 else 0;
        childrenText := IntToStr(newValue);
        return;
      }
      if adults.value + children.value > 6 {
        var newValue := if 6 - adults.value >= 0 then 6 - adults.value else 0;
        childrenText := IntToStr(newValue);
      }
    }
  }

  // ---------------------------------------------------------------------
  // GuestInfoPage.validate_and_proceed

  datatype GuestCheck = BadFirstName | BadLastName | BadEmail | BadPhone | GuestOk

  predicate HasDigit(s: string) {
    exists i :: 0 <= i < |s| && IsDigit(s[i])
  }

  /** The field checks, in order, on the stripped entries. */
  function CheckGuest(firstName: string, lastName: string, email: string, phone: string): GuestCheck {
    var f, l, e, p := Strip(firstName), Strip(lastName), Strip(email), Strip(phone);
    if f == "" || HasDigit(f) then BadFirstName
    else if l == "" || HasDigit(l) then BadLastName
    else if '@' !in e || '.' !in e then BadEmail
    else if !IsDigitText(p) || |p| < 8 then BadPhone
    else GuestOk
  }

  /** The message each failed check shows. */
  function GuestMessage(g: GuestCheck): string {
    match g
    case BadFirstName => "Please enter a valid first name (no numbers)."
    case BadLastName => "Please enter a valid last name (no numbers)."
    case BadEmail => "Please enter a valid email address."
    case BadPhone => "Please enter a valid phone number (digits only)."
    case GuestOk => ""
  }

  /** Guest fields pass exactly when both names are present without digits,
      the email holds "@" and ".", and the phone is at least eight digits. */
  lemma CheckGuestIff(firstName: string, lastName: string, email: string, phone: string)
    ensures CheckGuest(firstName, lastName, email, phone) == GuestOk <==>
      && Strip(firstName) != "" && (forall i :: 0 <= i < |Strip(firstName)| ==> !IsDigit(Strip(firstName)[i]))
      && Strip(lastName) != "" && (forall i :: 0 <= i < |Strip(lastName)| ==> !IsDigit(Strip(lastName)[i]))
      && '@' in Strip(email) && '.' in Strip(email)
      && |Strip(phone)| >= 8 && (forall i :: 0 <= i < |Strip(phone)| ==> IsDigit(Strip(phone)[i]))
  {
  }

  /** validate_and_proceed(): guest_info is written, and the summary page
      requested, only after every check passes and both spinboxes hold
      integers; otherwise int() raises ValueError and nothing is written. */
  method ValidateAndProceed(c: Controller, firstName: string, lastName: string, email: string, phone: string,
                            form: GuestForm)
    returns (r: Result<GuestCheck>)
    modifies c`guestInfo, c`page
    ensures var check := CheckGuest(firstName, lastName, email, phone);
      var a, ch := ParseInt(form.adultsText), ParseInt(form.childrenText);
      if check != GuestOk then r == Ok(check) && c.guestInfo == old(c.guestInfo) && c.page == old(c.page)
      else if a.None? || ch.None? then r == Err(ValueError) && c.guestInfo == old(c.guestInfo) && c.page == old(c.page)
      else
        && r == Ok(GuestOk)
        && c.guestInfo == Some(GuestInfo(Strip(firstName), Strip(lastName), Strip(email), Strip(phone), a.value, ch.value))
        && c.page == "SummaryPage"
  {
    var check := CheckGuest(firstName, lastName, email, phone);
    if check != GuestOk {
      return Ok(check);
    }
    var adults := ParseInt(form.adultsText);
    if adults.None? {
      return Err(ValueError);
    }
    var children := ParseInt(form.childrenText);
    if children.None? {
      return Err(ValueError);
    }
    c.guestInfo := Some(GuestInfo(Strip(firstName), Strip(lastName), Strip(email), Strip(phone),
                                  adults.value, children.value));
    c.page := "SummaryPage";
    return Ok(GuestOk);
  }

  // ---------------------------------------------------------------------
  // SummaryPage.refresh_data and process_payment

  const BreakfastFee: real := 40.0
  const ShuttleFee: real := 25.0
  const TaxRate: real := 0.10

  /** The total the summary shows: the room charge plus flat add-on fees,
      plus 10% tax on that subtotal. */
  function SummaryTotal(price: real, nights: int, breakfast: bool, shuttle: bool): real {
    var subtotal := price * nights as real + (if breakfast then BreakfastFee else 0.0) + (if shuttle then ShuttleFee else 0.0);
    subtotal + subtotal * TaxRate
  }

  lemma SummaryTotalExamples()
    ensures SummaryTotal(100.0, 3, false, false) == 330.0
    ensures SummaryTotal(220.0, 2, true, true) == 555.5
  {
  }

  /** The summary total and the nightly-price-times-nights total that a
      booking change writes agree only when there is nothing to charge at
      all: any room charge, add-on or tax makes the summary larger. */
  lemma SummaryExceedsRoomCharge(price: real, nights: int, breakfast: bool, shuttle: bool)
    requires price >= 0.0 && nights >= 0
    ensures SummaryTotal(price, nights, breakfast, shuttle) >= price * nights as real
    ensures SummaryTotal(price, nights, breakfast, shuttle) == price * nights as real <==>
      price * nights as real == 0.0 && !breakfast && !shuttle
  {
    assert price * nights as real >= 0.0;
  }

  class SummaryPage {
    /** self.final_total: unset until a refresh finds a stay and a room. */
    var finalTotal: Option<real>

    constructor ()
      ensures finalTotal.None?
    {
      finalTotal := None;
    }

    /** refresh_data(): with a stay and a selected room, the total for the
        stay with the add-ons the filter asked for; without them, nothing is
        computed and an earlier total stays. */
    method RefreshData(c: Controller)
      modifies this`finalTotal
      ensures finalTotal == if c.currentStay.None? || c.selectedRoom.None? then old(finalTotal)
        else Some(SummaryTotal(c.selectedRoom.value.price, c.currentStay.value.nights,
                               c.currentFilter.Some? && c.currentFilter.value.breakfast,
                               c.currentFilter.Some? && c.currentFilter.value.shuttle))
    {
      if c.currentStay.None? || c.selectedRoom.None? {
        return;
      }
      var nights := c.currentStay.value.nights;
      var pricePerNight := c.selectedRoom.value.price;
      var roomTotal := pricePerNight * nights as real;
      var breakfastFee := 0.0;
      var shuttleFee := 0.0;
      if c.currentFilter.Some? && c.currentFilter.value.breakfast {
        breakfastFee := BreakfastFee;
      }
      if c.currentFilter.Some? && c.currentFilter.value.shuttle {
        shuttleFee := ShuttleFee;
      }
      var subtotal := roomTotal + breakfastFee + shuttleFee;
      var tax := subtotal * TaxRate;
      assert subtotal + tax == SummaryTotal(pricePerNight, nights,
        c.currentFilter.Some? && c.currentFilter.value.breakfast,
        c.currentFilter.Some? && c.currentFilter.value.shuttle);
      finalTotal := Some(subtotal + tax);
    }

    /** process_payment(): copies the total into controller.total_price and
        requests the payment page; with no total computed yet, reading
        self.final_total raises AttributeError first. */
    method ProcessPayment(c: Controller) returns (r: Result<real>)
      modifies c`totalPrice, c`page
      ensures finalTotal.None? ==> r == Err(AttributeError) && c.totalPrice == old(c.totalPrice) && c.page == old(c.page)
      ensures finalTotal.Some? ==> r == Ok(finalTotal.value) && c.totalPrice == finalTotal && c.page == "PaymentPage"
      ensures c.bookingTotal == old(c.bookingTotal)
    {
      if finalTotal.None? {
        return Err(AttributeError);
      }
      c.totalPrice := finalTotal;
      c.page := "PaymentPage";
      return Ok(finalTotal.value);
    }
  }
}
