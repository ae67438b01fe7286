# Hotel room booking: data layer and page rules

A model of the core of a Tkinter hotel-booking application (Group 18). Guests
use it in two ways:

- **Book a stay.** Pick dates, filter the room catalog, enter guest details,
  see a price summary, pay, and receive a confirmation code.
- **Manage an existing booking.** Look it up by last name and code, then
  modify its contact details, guest counts and add-ons, change its dates, or
  cancel it.

The model covers four parts. Every Tkinter window around them is left out.

- **Booking store** (`booking_storage.py`). The list of booking records in
  `bookings.json`, and the operations on it:
  - append with a fresh code;
  - case-insensitive lookup;
  - merge-update of every match;
  - soft cancel;
  - the confirmed count per room type;
  - the query for occupied room numbers, which uses half-open date overlap.
- **Room catalog** (`rooms_data.py`).
  - The capacity count per short type.
  - The built-in fallback catalog.
  - `filter_rooms`.
- **Booking-change helpers** (`manage_booking_logic.py`). Lookup, the nightly
  price of a room type, the recomputed total, and `apply_changes`.
- **Rules and state changes inside the pages** (`booking_flow_b.py`,
  `booking_flow_c.py`, `booking_flow_d.py`, `manage_booking_flow.py`):
  - date checking and the nights count;
  - the search-result guards and rows;
  - the children clamp;
  - guest-field checks;
  - the summary price;
  - the four payment validators and the order they run in;
  - the booking record the confirmation page stores;
  - the clearing of the draft booking;
  - the modify and cancel submissions.

## Layout

| file | module | what it holds |
|---|---|---|
| `common.dfy` | `Common` | `Option`/`Result`, the exceptions that escape (`Failure`), the JSON scalar `Value`, `Record = map<string, Value>`, and the Python built-ins the code relies on: `dict.get`, truthiness, `str()`, `int()`, `float()`, `strip`, `lower`/`upper`, `replace`, `isdigit` |
| `dates.dfy` | `Dates` | `strptime(s, "%Y-%m-%d")`, `isoformat`, date comparison, and day numbers (`toordinal`) with their lemmas |
| `booking_storage.dfy` | `BookingStorage` | the class `BookingStore` (the list that is loaded, plus whether the file can be written), and the functions its methods are proved against |
| `rooms_data.dfy` | `RoomsData` | `Room`, `Filters`, `Stay`, the class `RoomCatalog` (`ROOMS`, `ROOM_CAPACITY`), `_build_capacity` and `filter_rooms` |
| `manage_booking_logic.dfy` | `ManageBookingLogic` | `get_booking`, `_get_price_for_room`, `_calculate_total`, `apply_changes`, `cancel_booking` |
| `session.dfy` | `Session` | the class `Controller`: each attribute the pages hang on the app object is an `Option` field, and `page` is the name last passed to `show_frame` |
| `booking_flow_b.dfy` | `BookingFlowB` | `on_continue`, `on_show`, `on_choose` |
| `booking_flow_c.dfy` | `BookingFlowC` | `check_children`, `validate_and_proceed`, `refresh_data`, `process_payment` |
| `booking_flow_d.dfy` | `BookingFlowD` | the four validators, `on_pay`, `generate_confirmation`, `return_home` |
| `manage_booking_flow.dfy` | `ManageBookingFlow` | `on_save`, `on_confirm_cancel` |

### Modelling choices

- **Failures.** Code that mutates state is imperative Dafny: classes with
  `modifies` frames, and loops with invariants. An exception the source lets
  escape comes back as `Err(...)`:
  - `save_bookings` failing to open the file is `IoError`. The store then
    keeps its old list, because the whole file is rewritten only after the
    new list is built.
  - `strptime` applied to a non-text stored date is `TypeError`.
  - `int()` on a spinbox value is `ValueError`.
  - reading a `final_total` that was never set is `AttributeError`.
- **Inputs.** Randomness and the clock are parameters:
  - the uuid text that `create_confirmation_code` draws;
  - today's date for `created_at`;
  - today's date for the expiry check.
- **Prices.** Prices are exact `real`s.

## Model

| member | source | states |
|---|---|---|
| BookingStorage.BookingStore.constructor | booking_storage.py:14-29 | the store starts with the stored JSON array, or with an empty list when the file is missing, unreadable, or not an array |
| BookingStorage.UuidCodeShape | booking_storage.py:38-42 | a code drawn from a uuid4 text is its first eight hex digits, upper-cased, and contains no hyphen |
| BookingStorage.NewRecord | booking_storage.py:53-58 | the stored record has the given fields, plus `confirmation_code` set to the code; `status` and `created_at` are filled in only when absent, so a status the caller supplied is kept |
| BookingStorage.BookingStore.AddBooking | booking_storage.py:45-61 | on success it appends exactly one record (the new record) after the unchanged old list and returns its code; if the write fails it raises and the list is unchanged |
| BookingStorage.DuplicateCodeShadowed | booking_storage.py:53-61 | the new code is never checked against stored codes: when an older record already answers to the same name and code, lookups keep returning the older record |
| BookingStorage.NewRecordFound | booking_storage.py:53-61 | a freshly added record is found by its own last name and the returned code, unless an older record answers to them first |
| BookingStorage.FirstMatch | booking_storage.py:64-72 | the position returned matches, no earlier record matches, and None means that no record matches |
| BookingStorage.FirstMatchIffAny | booking_storage.py:64-72 | a first match exists exactly when some record matches the last name (lower-cased) and the code (upper-cased) |
| BookingStorage.FirstMatchUnique | booking_storage.py:67-71 | a matching position with no match before it is the one the scan returns |
| BookingStorage.FirstMatchAppend | booking_storage.py:67-72 | appending a record never changes which older record is found first; the new record is found only when nothing older matches |
| BookingStorage.BookingStore.FindBookingByCode | booking_storage.py:64-72 | it returns a record exactly when one matches, and then the first matching record in file order |
| BookingStorage.UpdateMatchingSnoc | booking_storage.py:84-90 | each loop step adds one record, merged when it matches, and the `updated` flag becomes "some record so far matches" |
| BookingStorage.AnyMatchSnoc | booking_storage.py:84-90 | a longer list has a match exactly when the shorter list has one or the added record matches |
| BookingStorage.BookingStore.UpdateBooking | booking_storage.py:75-94 | it returns whether any record matched; it writes the merged list only in that case, and raises when that write fails; otherwise the list is unchanged |
| BookingStorage.MergeKeepsIdentity | booking_storage.py:84-89 | merging fields other than `last_name` and `confirmation_code` leaves the identity test unchanged |
| BookingStorage.UpdateChangesOnlyGivenFields | booking_storage.py:75-94 | an update keeps the list length, keeps every non-matching record as it was, keeps every key it was not given, and writes every given key into every match |
| BookingStorage.FindAfterUpdate | booking_storage.py:75-94 | after an update that avoids the identity keys, the same lookup finds the same position, now holding the old record merged with the new fields |
| BookingStorage.BookingStore.CancelBooking | booking_storage.py:97-104 | a soft cancel is an update with status "Cancelled" and has the same outcomes; no record is removed and the length is preserved |
| BookingStorage.CancelThenFind | booking_storage.py:97-104 | after a cancel, the found record is the old one with status "Cancelled" and every other field unchanged |
| BookingStorage.StatusDefaultCounts | booking_storage.py:116-118 | a record without a status counts as confirmed; any other stored status is not counted |
| BookingStorage.CountConfirmedZero | booking_storage.py:107-120 | the count is zero exactly when no record has the room type and is confirmed, and it never exceeds the number of records |
| BookingStorage.CountConfirmedMonotone | booking_storage.py:114-119 | when no record turns confirmed, the count cannot grow |
| BookingStorage.CancelNeverIncreasesCount | booking_storage.py:104-119 | cancelling never increases any room type's confirmed count |
| BookingStorage.BookingStore.CountConfirmedByRoomType | booking_storage.py:107-120 | the loop's count equals the number of records whose room type is exactly the argument and whose status, defaulting to "Confirmed", is exactly "Confirmed" |
| BookingStorage.BlockedByMembership | booking_storage.py:138-160 | a room number is in the accumulated set exactly when some record's step added it |
| BookingStorage.BlockedRoomsSnoc | booking_storage.py:138-160 | one more record adds its own room number, if it blocks, and nothing else |
| BookingStorage.BlockedRoomsMembership | booking_storage.py:138-162 | room n is occupied exactly when some stored record blocks n |
| BookingStorage.UnavailableIffOverlap | booking_storage.py:157-160 | when both dates parse and nothing raises, room n is occupied exactly when some record has all of the following: it is not cancelled; its room number is truthy with `str()` equal to n; both its dates parse; and `req_in < b_out` and `b_in < req_out` |
| BookingStorage.BackToBackNeverBlocks | booking_storage.py:157-160 | a stay that ends on the requested check-in, or starts on the requested check-out, never blocks, because the overlap is half-open |
| BookingStorage.StayInsideBookingBlocks | booking_storage.py:157-160 | a live numbered booking blocks its room for every requested stay inside its own dates |
| BookingStorage.NoEmptyRoomNumberBlocked | booking_storage.py:143-146 | records with a falsy `room_number` are skipped, so "" is never reported as occupied |
| BookingStorage.SomeRaisesSnoc | booking_storage.py:150-155 | one more record makes the query raise only if its own dates are not text |
| BookingStorage.UnnumberedContributesNothing | booking_storage.py:143-146 | a record without a `room_number` key is skipped |
| BookingStorage.UnnumberedRecordBlocksNothing | booking_storage.py:143-146 | appending a record without a `room_number` key changes neither the occupied set nor whether the query raises |
| BookingStorage.ScanBookings | booking_storage.py:138-162 | the loop returns the set of blocked room numbers, or raises TypeError at the first record that has a live room number and a stored date that is not text |
| BookingStorage.BookingStore.GetUnavailableRoomNumbers | booking_storage.py:123-162 | the empty set when either requested date does not parse; otherwise the scan above |
| RoomsData.DictItemsMembership | rooms_data.py:33-37 | a room is loaded exactly when it is a dict item of the array, and no more rooms are loaded than there are items |
| RoomsData.LoadRoomsDb | rooms_data.py:17-39 | the loop keeps the dict items of the array in order, and gives [] for a missing, unreadable or non-array file |
| RoomsData.CapacityCounts | rooms_data.py:42-62 | every non-empty short type is a key exactly when some room has it, and maps to the number of rooms with that type; "" is never a key |
| RoomsData.BuildCapacity | rooms_data.py:42-62 | the loop's map is the capacity defined above |
| RoomsData.RoomCatalog.constructor | rooms_data.py:65-129 | with no room loaded, the catalog is the four built-in rooms with the fixed capacities Twin 5, Double 4 and Suite 3; otherwise it is the loaded rooms and their counted capacities |
| RoomsData.DefaultCapacityIsNotRoomCount | rooms_data.py:74-129 | the built-in catalog holds two Twin rooms, one Double and one Suite, which differs from the fixed capacities set beside it |
| RoomsData.RoomMatches | rooms_data.py:190-222 | the match flag survives the eight criteria exactly when the room satisfies them all (they are ANDed) |
| RoomsData.Display | rooms_data.py:226-232 | the copy differs from the room only in its name, which becomes `"<name> (<room_number>)"`, with "N/A" when the room has no number |
| RoomsData.Selected | rooms_data.py:184-232 | the result is never longer than the catalog |
| RoomsData.SelectedAppend | rooms_data.py:184-232 | filtering keeps catalog order and never merges rooms: filtering a concatenation is the concatenation of the parts filtered |
| RoomsData.SelectedMembership | rooms_data.py:184-232 | an entry is in the result exactly when it is the display copy of a catalog room that is not blocked and meets every criterion |
| RoomsData.RoomCatalog.FilterRooms | rooms_data.py:132-234 | the loop returns the display copies of the unblocked, admitted rooms in order; the occupied query runs only when there is a stay, and its exception escapes |
| RoomsData.NoStayNeverRaises | rooms_data.py:161-167 | without a stay nothing is blocked and nothing raises |
| RoomsData.NoCriteriaListsEveryRoom | rooms_data.py:162-226 | with no criteria and no stay, every catalog room is returned, renamed, in order |
| RoomsData.PriceBoundsInclusive | rooms_data.py:218-222 | a room priced exactly at both bounds passes |
| RoomsData.UnparseableBoundIgnored | rooms_data.py:169-182 | a bound that is not a number is no bound |
| RoomsData.EachCriterionExcludes | rooms_data.py:192-222 | failing any single criterion (type list, floor, pet, smoking, shuttle, breakfast, minimum or maximum price) excludes the room |
| RoomsData.FilteredRoomsAreFree | rooms_data.py:184-188 | no double booking: a room offered for a stay has no stored booking of its number that blocks that stay |
| RoomsData.UnnumberedRoomAlwaysOffered | rooms_data.py:186-188 | a room without a number is never hidden by bookings |
| ManageBookingLogic.GetBooking | manage_booking_logic.py:9-15 | there is no lookup when the last name or code is empty; otherwise a record comes back exactly when one matches, and it is a matching stored record |
| ManageBookingLogic.PriceOfFirstOfType | manage_booking_logic.py:18-29 | the price reported is that of the first room whose short type matches case-insensitively, or 0.0 when none does |
| ManageBookingLogic.GetPriceForRoom | manage_booking_logic.py:18-29 | the loop with `break` returns that price |
| ManageBookingLogic.TotalForNights | manage_booking_logic.py:32-40 | the total written is the nightly price times the nights submitted |
| ManageBookingLogic.ChangesFor | manage_booking_logic.py:53-71 | the submitted keys are exactly `nights`, `total_price` and, when a new check-in was typed, `check_in` (stripped); `nights` is the typed integer, else the stored value (1 when absent); `total_price` is recomputed from them |
| ManageBookingLogic.ChangedTotalIsRoomCharge | manage_booking_logic.py:69-71 | with new nights typed, the total is the nightly price times those nights, with no add-ons or tax |
| ManageBookingLogic.ChangesIgnoreAddOns | manage_booking_logic.py:69-71 | the changes are the same whatever the booking's breakfast and shuttle fields say |
| ManageBookingLogic.ChangeKeepsCheckOutAndRoom | manage_booking_logic.py:53-73 | a change sets nights and maybe check-in, but never check-out or room type, so the stored nights can stop matching the stored dates |
| ManageBookingLogic.BuildChanges | manage_booking_logic.py:53-71 | the step-by-step dict is the changes dict above |
| ManageBookingLogic.ApplyChanges | manage_booking_logic.py:43-79 | gives (False, None) for a missing or empty booking and when no record is updated; raises on a failed write; otherwise every match gets the changes and the result is the first match merged with them |
| ManageBookingLogic.CancelBooking | manage_booking_logic.py:82-84 | delegates to the soft cancel, with the same outcomes |
| BookingFlowB.CheckDatesSound | booking_flow_b.py:102-130 | unparseable dates and a check-out not after check-in are rejected, each with its own outcome; an accepted stay stores ISO dates that read back as the typed ones, with nights equal to the day difference, which is at least 1 |
| BookingFlowB.OnContinue | booking_flow_b.py:102-137 | `current_stay` and the page change only for an accepted stay |
| BookingFlowB.BuildRows | booking_flow_b.py:240-253 | there is one row per room, in order, and each row's total is price times nights |
| BookingFlowB.OnShow | booking_flow_b.py:204-253 | no search without filters or without a stay; otherwise the results are stored, an empty result is reported as no matches, and a non-empty one is listed with one row per room in order, giving its name, short type, floor, nightly price and the price times the nights |
| BookingFlowB.OnChoose | booking_flow_b.py:255-276 | an empty selection or an index outside the stored results is rejected; otherwise the room at that index is selected |
| BookingFlowC.GuestForm.constructor | booking_flow_c.py:283-287 | the two spinboxes hold the given texts |
| BookingFlowC.GuestForm.CheckChildren | booking_flow_c.py:283-309 | only the children spinbox changes, and it is rewritten to the clamp below |
| BookingFlowC.ClampResetsOnBadInput | booking_flow_c.py:285-291 | children is reset to 0 when either spinbox is not an integer |
| BookingFlowC.ClampChildrenEffect | booking_flow_c.py:295-309 | children becomes less than adults when there is an adult; a value that passed rule 1 is cut to fit six guests; a value that fits is left as typed |
| BookingFlowC.ClampCanExceedSixGuests | booking_flow_c.py:295-301 | rule 1 returns before rule 2, so six adults and six children become six adults and five children |
| BookingFlowC.CheckGuestIff | booking_flow_c.py:314-334 | the guest fields pass exactly when both names are non-empty without digits, the email holds "@" and ".", and the phone has at least eight characters, all digits |
| BookingFlowC.ValidateAndProceed | booking_flow_c.py:311-348 | `guest_info` is written, with exactly the six fields, and the summary page requested only when every check passes and both spinboxes hold integers |
| BookingFlowC.SummaryTotalExamples | booking_flow_c.py:480-493 | 100 a night for 3 nights is 330.0 after tax; 220 for 2 nights with both add-ons is 555.5 |
| BookingFlowC.SummaryExceedsRoomCharge | booking_flow_c.py:480-493 | the summary total is at least the nightly price times nights, and equals it only when there is nothing to charge |
| BookingFlowC.SummaryPage.constructor | booking_flow_c.py:493 | no total exists before the first refresh |
| BookingFlowC.SummaryPage.RefreshData | booking_flow_c.py:457-493 | with a stay and a room, the total is the room charge plus flat fees of 40 and 25 plus 10% tax; without them, nothing is computed |
| BookingFlowC.SummaryPage.ProcessPayment | booking_flow_c.py:522-528 | the total goes to `total_price`, never to `booking_total`; without a total, AttributeError is raised |
| BookingFlowD.CleanCardDigits | booking_flow_d.py:130-131 | removing spaces and hyphens leaves only digits exactly when the entry has no other characters, and then leaves each digit |
| BookingFlowD.CardNumberValidIff | booking_flow_d.py:129-136 | a card number passes exactly when it is made of digits, spaces and hyphens and holds sixteen digits |
| BookingFlowD.CvvValidIff | booking_flow_d.py:138-144 | a CVV passes exactly when it is three digits |
| BookingFlowD.ValidateExpiry | booking_flow_d.py:146-163 | an expiry that passes has the shape MM/YY with the month between 01 and 12 |
| BookingFlowD.ExpiryValidIff | booking_flow_d.py:146-163 | a well-formed expiry passes exactly when 2000+YY and MM are not before the current year and month |
| BookingFlowD.ExpiryCurrentMonthAccepted | booking_flow_d.py:158-161 | the current month passes, the month before has expired, and month 13 is badly formed |
| BookingFlowD.CardholderValidIff | booking_flow_d.py:165-169 | a name passes exactly when it has a character that is not whitespace |
| BookingFlowD.PaymentCheckIff | booking_flow_d.py:171-201 | payment passes exactly when all four stripped fields pass, and a card failure is the one reported |
| BookingFlowD.Last4 | booking_flow_d.py:204 | the stored text is the last four characters typed, or the whole entry when it is shorter |
| BookingFlowD.Last4MayHoldSeparator | booking_flow_d.py:203-207 | fifteen digits, a hyphen and a digit pass the card check, and the stored "last four" then holds the hyphen |
| BookingFlowD.OnPay | booking_flow_d.py:171-216 | checks run card, CVV, expiry, cardholder and stop at the first failure; `payment_info` and the page change only when all pass |
| BookingFlowD.GuestFields | booking_flow_d.py:319-324 | the six guest keys: with guest_info set, its first and last name, email, phone, adults and children; unset, "" for each text field, 1 adult and 0 children |
| BookingFlowD.RoomFields | booking_flow_d.py:325-326 | only the room type and name are taken (the selected room's short type and name), with defaults "Unknown" and "Unknown Room" |
| BookingFlowD.StayFields | booking_flow_d.py:327-329 | the stay's check-in, check-out and nights, with defaults "", "" and 1 when no stay is set |
| BookingFlowD.ExtraFields | booking_flow_d.py:330-334 | status "Confirmed", the total from `booking_total` or 0.0, and last4 "****" when there is no payment |
| BookingFlowD.BookingData | booking_flow_d.py:318-335 | the record's keys are the sixteen above, with status "Confirmed", `total_price` from `booking_total` or 0.0, and `payment_last4` from the payment or "****" |
| BookingFlowD.BookingDataMissingKeys | booking_flow_d.py:318-335 | the record has no `room_number`, `confirmation_code` or `created_at` key |
| BookingFlowD.GenerateConfirmation | booking_flow_d.py:306-355 | on success the code is shown and stored on the controller, and the record is appended; when `add_booking` raises, "ERROR" is shown and nothing is stored |
| BookingFlowD.ConfirmedBookingBlocksNothing | booking_storage.py:143-146 | a booking stored by the confirmation page never changes the occupied set of any stay |
| BookingFlowD.StoredTotalWithoutBookingTotal | booking_flow_d.py:315 | with `booking_total` unset, which nothing in the program sets, the stored total is 0.0 whatever the summary showed |
| BookingFlowD.ReturnHome | booking_flow_d.py:357-376 | the seven draft attributes are cleared and the welcome page requested |
| ManageBookingFlow.SubmittedFields | manage_booking_flow.py:301-308 | the new fields are exactly email and phone (stripped), adults, children, breakfast and shuttle |
| ManageBookingFlow.SubmittedFieldsLeaveBookingCore | manage_booking_flow.py:301-308 | a save never sends the name, code, room, dates, nights, price or status |
| ManageBookingFlow.SavedBookingAgreesWithStore | manage_booking_flow.py:316-321 | after a save, the stored booking found by the booking's own name and code equals the in-memory copy `on_save` keeps |
| ManageBookingFlow.SaveKeepsUnsubmittedFields | manage_booking_flow.py:316 | every field a save does not submit reads the same afterwards in every stored record |
| ManageBookingFlow.OnSave | manage_booking_flow.py:290-332 | no storage call without a booking or with an empty email or phone; on success the store and the in-memory booking both get exactly the new fields and the view page is requested; on failure both are unchanged |
| ManageBookingFlow.OnConfirmCancel | manage_booking_flow.py:439-466 | the booking's own name and code are cancelled; on success the current booking is removed and the welcome page requested; otherwise both are kept |
| Session.Controller.constructor | hotel_booking_app.py:446-474 | a fresh app object has none of the booking attributes, and the welcome page is shown |
| Dates.ParseDate | booking_flow_b.py:106-108 | every date strptime accepts is a valid calendar date |
| Dates.ParseIsoFormat | booking_flow_b.py:123-129 | strptime reads back each stored isoformat date as the same date |
| Dates.BeforeIffOrdinalLess | booking_flow_b.py:116-123 | check-out after check-in means a positive day difference |
| Common.TruthyToStrNonEmpty | booking_storage.py:144-146 | a truthy room number never prints as "" |
| Common.StripEmptyIffBlank | booking_flow_d.py:165-169 | `strip()` leaves nothing exactly when the text is all whitespace |
| Common.ParseIntOfIntToStr | booking_flow_c.py:295-309 | `int()` reads back the number `str()` wrote into the spinbox |
| Common.IndexOf | booking_storage.py:41 | the first position holding the separator, and none when it is absent |

## Left out

- File I/O is not modelled: `bookings.json`, `rooms_db.json`, `json.load`/`json.dump` are replaced by a `StoredFile`/`RoomsFile` value and a `writable` flag. The store does not reload the file between calls.
- Randomness and the clock are not modelled: `uuid.uuid4()` and `date.today()` are parameters (the uuid text, and `today`).
- Concurrent access to the files is not modelled; the application is single-process.
- Tkinter is not modelled: windows, canvases, tooltips, message boxes, `:.2f` formatting and the `<<ShowPage>>` events. `show_frame` is recorded only as the page name requested, whether or not the app shell registered that page.
- Unicode is not handled: `lower`, `upper`, `isdigit` and `isspace` cover ASCII only, so non-ASCII digits and letters behave differently in Python.
- Floating point is modelled as exact `real` arithmetic. Rounding is not modelled, and neither is `str()` of a non-integral float; ToStr spells such a value as a placeholder.
- `int()` and `float()` corner cases are not modelled: underscores in numerals, `inf`/`nan`, and exponents.
- Rooms are assumed well formed. They are a datatype whose fields are the values `room.get` returns; `float(room["price"])` raising on a bad price, and a missing `short_type` or `name` raising KeyError, are not modelled.
- ManageBookingFlow.StoredLastName: `on_save` and `on_confirm_cancel` pass the stored `last_name` and `confirmation_code` to storage as they are, while the model passes their `str()`; a non-text value, on which the source's `.lower()`/`.upper()` raises AttributeError, is therefore not captured.
- ManageBookingFlow.OnSave: the IntVar/BooleanVar values are taken as integers and booleans; a `TclError` from a non-numeric spinbox is not modelled.
- `refresh_details`, `load_current_data` and `load_booking_info` only fill widgets, so they are not modelled.
- `PaymentPage.refresh_amount` only fills a widget, so it is not modelled.
- `hotel_booking_app.py` is not part of this model. Its `check_booking` is a separate lookup that compares the code case-sensitively.
- `2.py` and `3.py` are not part of this model; they are non-working fragments.
- `test_calendar.py` is not part of this model; it is a widget smoke test.
- `rooms_data (2).py` is not part of this model.
- Several controller attributes are never assigned anywhere in the program: `current_filter`, `current_booking`, `booking_total` and `guest_selection`. The model keeps them as inputs (Option fields) rather than tracing a writer that does not exist.
- Showing the confirmation page twice in the real app stores a second booking. The model covers one call of `generate_confirmation`.
- BookingFlowD.ValidateExpiry reproduces the `$` of the pattern, which also accepts one trailing newline. The expiry `on_pay` passes is stripped, so that case never arises there.
