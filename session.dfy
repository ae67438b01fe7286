/** The application controller the booking pages share (the
    tk.Tk object of the app). Pages hang plain attributes on it with
    `controller.x = ...`, read them with getattr(controller, "x", default)
    and remove them with delattr; each attribute is an Option field here,
    None standing for an attribute that was never set or was deleted. */
module Session {
  import opened Common
  import opened RoomsData

  /** controller.guest_info as the guest page writes it. */
  datatype GuestInfo = GuestInfo(firstName: string, lastName: string, email: string, phone: string,
                                 adults: int, children: int)

  /** controller.payment_info as the payment page writes it. */
  datatype PaymentInfo = PaymentInfo(cardLast4: string, cardholder: string, expiry: string)

  class Controller {
    var currentStay: Option<Stay>
    var currentFilter: Option<Filters>
    var searchResults: Option<seq<Room>>
    var selectedRoom: Option<Room>
    var guestSelection: Option<Record>
    var guestInfo: Option<GuestInfo>
    var totalPrice: Option<real>
    var bookingTotal: Option<real>
    var paymentInfo: Option<PaymentInfo>
    var lastConfirmationCode: Option<string>
    var currentBooking: Option<Record>
    /** The name of the page last passed to show_frame. */
    var page: string

    /** A fresh controller: no attribute set, the welcome page shown. */
    constructor ()
      ensures currentStay.None? && currentFilter.None? && searchResults.None? && selectedRoom.None?
      ensures guestSelection.None? && guestInfo.None? && totalPrice.None? && bookingTotal.None?
      ensures paymentInfo.None? && lastConfirmationCode.None? && currentBooking.None?
      ensures page == "WelcomePage"
    {
      currentStay := None;
      currentFilter := None;
      searchResults := None;
      selectedRoom := None;
      guestSelection := None;
      guestInfo := None;
      totalPrice := None;
      bookingTotal := None;
      paymentInfo := None;
      lastConfirmationCode := None;
      currentBooking := None;
      page := "WelcomePage";
    }
  }
}
