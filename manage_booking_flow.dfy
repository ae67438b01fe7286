/** The modify and cancel pages of "manage my booking"
    (manage_booking_flow.py): what on_save submits and when, how the
    in-memory booking follows a successful save, and what a confirmed
    cancellation leaves behind. */
module ManageBookingFlow {
  import opened Common
  import opened BookingStorage
  import opened Session

  /** The modify form as on_save reads it: two entries and four variables. */
  datatype ModifyForm = ModifyForm(email: string, phone: string, adults: int, children: int,
                                   breakfast: bool, shuttle: bool)

  /** The new_fields dict on_save submits: contact, guest counts and
      add-ons, with the entries stripped. */
  function SubmittedFields(form: ModifyForm): (r: Record)
    ensures r.Keys == {"email", "phone", "adults", "children", "breakfast", "shuttle"}
    ensures r["email"] == Str(Strip(form.email)) && r["phone"] == Str(Strip(form.phone))
    ensures r["adults"] == Int(form.adults) && r["children"] == Int(form.children)
    ensures r["breakfast"] == Bool(form.breakfast) && r["shuttle"] == Bool(form.shuttle)
  {
    map[
      "email" := Str(Strip(form.email)),
      "phone" := Str(Strip(form.phone)),
      "adults" := Int(form.adults),
      "children" := Int(form.children),
      "breakfast" := Bool(form.breakfast),
      "shuttle" := Bool(form.shuttle)
    ]
  }

  /** A save never sends the booking's identity, room, dates, price or status. */
  lemma SubmittedFieldsLeaveBookingCore(form: ModifyForm)
    ensures var f := SubmittedFields(form);
      && "last_name" !in f && "confirmation_code" !in f && "room_type" !in f && "room_name" !in f
      && "check_in" !in f && "check_out" !in f && "nights" !in f && "total_price" !in f && "status" !in f
  {
  }

  /** The last name and code a manage page hands to storage: the booking's
      own, read with "" as default. */
  function StoredLastName(booking: Record): string {
    ToStr(Get(booking, "last_name", Str("")))
  }

  function StoredCode(booking: Record): string {
    ToStr(Get(booking, "confirmation_code", Str("")))
  }

  /** After a save, the booking is still found under its own last name and
      code, now carrying exactly the submitted values, and so agrees with the
      in-memory copy on_save keeps. */
  lemma SavedBookingAgreesWithStore(bs: seq<Record>, booking: Record, form: ModifyForm)
    requires FindBooking(bs, StoredLastName(booking), StoredCode(booking)) == Some(booking)
    ensures var ln, code, fields := StoredLastName(booking), StoredCode(booking), SubmittedFields(form);
      FindBooking(UpdateMatching(bs, ln, code, fields), ln, code) == Some(booking + fields)
  {
    SubmittedFieldsLeaveBookingCore(form);
    FindAfterUpdate(bs, StoredLastName(booking), StoredCode(booking), SubmittedFields(form));
  }

  /** Every field a save does not submit reads the same afterwards in every
      stored record. */
  lemma SaveKeepsUnsubmittedFields(bs: seq<Record>, booking: Record, form: ModifyForm, i: int, k: string)
    requires 0 <= i < |bs| && k !in SubmittedFields(form)
    ensures var after := UpdateMatching(bs, StoredLastName(booking), StoredCode(booking), SubmittedFields(form));
      |after| == |bs| && Get(after[i], k, Null) == Get(bs[i], k, Null)
  {
    UpdateChangesOnlyGivenFields(bs, StoredLastName(booking), StoredCode(booking), SubmittedFields(form));
  }

  datatype SaveOutcome = NoBooking | MissingContact | Saved | NotSaved

  /** Python truthiness of controller.current_booking: set and non-empty. */
  predicate HasBooking(current: Option<Record>) {
    current.Some? && current.value != map[]
  }

  /** on_save(): with no booking, or with an empty email or phone, nothing
      is sent; otherwise update_booking runs, and only its success updates the
      in-memory booking and requests the booking view. A failed save of the
      file propagates. */
  method OnSave(c: Controller, store: BookingStore, form: ModifyForm) returns (r: Result<SaveOutcome>)
    modifies c`currentBooking, c`page, store
    ensures store.writable == old(store.writable)
    ensures !HasBooking(old(c.currentBooking)) ==>
      r == Ok(NoBooking) && store.bookings == old(store.bookings) &&
      c.currentBooking == old(c.currentBooking) && c.page == old(c.page)
    ensures HasBooking(old(c.currentBooking)) && (Strip(form.email) == "" || Strip(form.phone) == "") ==>
      r == Ok(MissingContact) && store.bookings == old(store.bookings) &&
      c.currentBooking == old(c.currentBooking) && c.page == old(c.page)
    ensures HasBooking(old(c.currentBooking)) && Strip(form.email) != "" && Strip(form.phone) != "" ==>
      var booking := old(c.currentBooking).value;
      var ln, code, fields := StoredLastName(booking), StoredCode(booking), SubmittedFields(form);
      var any := AnyMatch(old(store.bookings), ln, code);
      if any && !old(store.writable) then
        r == Err(IoError) && store.bookings == old(store.bookings) &&
        c.currentBooking == old(c.currentBooking) && c.page == old(c.page)
      else if any then
        && r == Ok(Saved)
        && store.bookings == UpdateMatching(old(store.bookings), ln, code, fields)
        && c.currentBooking == Some(booking + fields)
        && c.page == "ViewBookingPage"
      else
        r == Ok(NotSaved) && store.bookings == old(store.bookings) &&
        c.currentBooking == old(c.currentBooking) && c.page == old(c.page)
  {
    var current := c.currentBooking;
    if current.None? || current.value == map[] {
      return Ok(NoBooking);
    }
    var booking := current.value;
    var lastName := StoredLastName(booking);
    var code := StoredCode(booking);
    var fields := SubmittedFields(form);
    if fields["email"] == Str("") || fields["phone"] == Str("") {
      return Ok(MissingContact);
    }
    var success := store.UpdateBooking(lastName, code, fields);
    if success.Err? {
      return Err(success.error);
    }
    if !success.value {
      return Ok(NotSaved);
    }
    c.currentBooking := Some(booking + fields);
    c.page := "ViewBookingPage";
    return Ok(Saved);
  }

  datatype CancelOutcome = NoBookingToCancel | Cancelled | NotCancelled

  /** on_confirm_cancel(): the booking's own last name and code are passed
      to the soft cancel; on success the current booking is removed and the
      welcome page requested, otherwise the page stays as it was. */
  method OnConfirmCancel(c: Controller, store: BookingStore) returns (r: Result<CancelOutcome>)
    modifies c`currentBooking, c`page, store
    ensures store.writable == old(store.writable)
    ensures |store.bookings| == |old(store.bookings)|
    ensures !HasBooking(old(c.currentBooking)) ==>
      r == Ok(NoBookingToCancel) && store.bookings == old(store.bookings) &&
      c.currentBooking == old(c.currentBooking) && c.page == old(c.page)
    ensures HasBooking(old(c.currentBooking)) ==>
      var booking := old(c.currentBooking).value;
      var ln, code := StoredLastName(booking), StoredCode(booking);
      var any := AnyMatch(old(store.bookings), ln, code);
      if any && !old(store.writable) then
        r == Err(IoError) && store.bookings == old(store.bookings) &&
        c.currentBooking == old(c.currentBooking) && c.page == old(c.page)
      else if any then
        && r == Ok(Cancelled)
        && store.bookings == UpdateMatching(old(store.bookings), ln, code, CancelFields)
        && c.currentBooking.None?
        && c.page == "WelcomePage"
      else
        r == Ok(NotCancelled) && store.bookings == old(store.bookings) &&
        c.currentBooking == old(c.currentBooking) && c.page == old(c.page)
  {
    var current := c.currentBooking;
    if current.None? || current.value == map[] {
      return Ok(NoBookingToCancel);
    }
    var booking := current.value;
    var success := store.CancelBooking(StoredLastName(booking), StoredCode(booking));
    if success.Err? {
      return Err(success.error);
    }
    if !success.value {
      return Ok(NotCancelled);
    }
    c.currentBooking := None;
    c.page := "WelcomePage";
    return Ok(Cancelled);
  }
}
