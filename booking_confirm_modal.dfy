/** The booking confirmation dialog: the booking it creates, the nights shown, and its UI state. */
module BookingConfirmModal {
  import opened Wrappers
  import opened Numbers
  import opened Types
  import BookingContext

  datatype PaymentMethod = Cash | VnPay

  function PaymentMethodName(m: PaymentMethod): string
  {
    match m
    case Cash => "cash"
    case VnPay => "vnpay"
  }

  /** Cash is paid at the hotel, so it stays pending; the online method counts as paid. */
  function PaymentStatusFor(m: PaymentMethod): (p: PaymentStatus)
    ensures p == PaymentPending <==> m == Cash
    ensures p == Paid <==> m != Cash
  {
    if m == Cash then PaymentPending else Paid
  }

  const MsPerDay: int := 1000 * 60 * 60 * 24

  /** `nights`: the stay rounded up to whole days; zero or negative stays are not rejected. */
  function Nights(checkInMs: int, checkOutMs: int): (n: int)
    ensures MsPerDay * (n - 1) < checkOutMs - checkInMs <= MsPerDay * n
    ensures checkOutMs <= checkInMs ==> n <= 0
  {
    CeilDiv(checkOutMs - checkInMs, MsPerDay)
  }

  /** What the dialog is opened with. */
  datatype BookingData = BookingData(
    hotel: Hotel,
    roomType: RoomType,
    checkIn: string,
    checkOut: string,
    adults: int,
    children: int,
    totalPrice: int)

  /** The object handed to `createBooking`; `_id` and `createdAt` are filled in by the store. */
  function BookingRequest(d: BookingData, m: PaymentMethod): (b: Booking)
    ensures b.customerId == "customer_anon" && b.roomIds == [] && b.status == BookingPending
    ensures b.hotelId == d.hotel.id && b.roomTypeId == d.roomType.id
    ensures b.totalPrice == d.totalPrice && b.adults == d.adults && b.children == d.children
    ensures b.checkIn == d.checkIn && b.checkOut == d.checkOut
    ensures b.paymentStatus == PaymentStatusFor(m) && b.paymentMethod == Some(PaymentMethodName(m))
    ensures b.specialRequests.None?
  {
    Booking("", "customer_anon", d.hotel.id, [], d.roomType.id, d.checkIn, d.checkOut, d.adults, d.children,
            d.totalPrice, BookingPending, PaymentStatusFor(m), Some(PaymentMethodName(m)), None, "")
  }

  datatype UiStatus = Idle | Success | Error

  /** How the POST to `/api/bookings` went: ok, not ok, or a thrown error with its message. */
  datatype SaveReply = Saved | NotSaved | Threw(message: string)

  /** The confirm button is disabled while loading and after a success. */
  predicate ConfirmDisabled(loading: bool, status: UiStatus)
  {
    loading || status == Success
  }

  class ConfirmDialog {
    var paymentMethod: PaymentMethod
    var loading: bool
    var status: UiStatus
    var errorMessage: string

    constructor ()
      ensures paymentMethod == Cash && !loading && status == Idle && errorMessage == ""
    {
      paymentMethod := Cash;
      loading := false;
      status := Idle;
      errorMessage := "";
    }

    method SetPaymentMethod(m: PaymentMethod)
      modifies this
      ensures paymentMethod == m && loading == old(loading) && status == old(status) && errorMessage == old(errorMessage)
    {
      paymentMethod := m;
    }

    /**
     * `handleConfirmBooking`. The booking enters the local store before the
     * POST, so it stays there even when saving fails. Afterwards `loading`
     * is false; the status is success on an ok reply and error otherwise.
     */
    method HandleConfirmBooking(store: BookingContext.BookingProvider, d: BookingData, reply: SaveReply,
                                nowMs: nat, isoNow: string)
      returns (created: Booking)
      modifies this, store
      ensures created.status == BookingPending && created.customerId == "customer_anon"
      ensures created == BookingRequest(d, paymentMethod).(id := created.id, createdAt := isoNow)
      ensures store.state == BookingContext.Reduce(old(store.state), BookingContext.AddBooking(created))
      ensures !loading && paymentMethod == old(paymentMethod)
      ensures reply.Saved? ==> status == Success && errorMessage == ""
      ensures reply.NotSaved? ==> status == Error && errorMessage == "Failed to save booking"
      ensures reply.Threw? ==> status == Error && errorMessage == reply.message
      ensures ConfirmDisabled(loading, status) <==> reply.Saved?
    {
      loading := true;
      status := Idle;
      errorMessage := "";
      created := store.CreateBooking(BookingRequest(d, paymentMethod), nowMs, isoNow);
      match reply {
        case Saved =>
          status := Success;
        case NotSaved =>
          status := Error;
          errorMessage := "Failed to save booking";
        case Threw(message) =>
          status := Error;
          errorMessage := message;
      }
      loading := false;
    }
  }
}
