/**
 * The dialog that shows a hotel's bookings (`components/modals/BookedHotelDetailModal.tsx`):
 * the three summary figures, the customer name look-up and the status labels.
 */
module BookedHotelDetailModal {
  import opened Wrappers
  import opened Seqs
  import opened Types

  /** `getCustomerName`: the first user with the id, by full name; a missing user or an empty name reads "N/A". */
  function CustomerName(users: seq<User>, customerId: string): (name: string)
    ensures name != ""
    ensures forall i ::
      0 <= i < |users| && users[i].id == customerId && (forall j :: 0 <= j < i ==> users[j].id != customerId) ==>
        name == if users[i].fullName != "" then users[i].fullName else "N/A"
    ensures (forall u :: u in users ==> u.id != customerId) ==> name == "N/A"
  {
    var found := Find(users, (u: User) => u.id == customerId);
    if found.Some? && found.value.fullName != "" then found.value.fullName else "N/A"
  }

  datatype Summary = Summary(totalBookings: nat, confirmedBookings: nat, totalRevenue: int)

  /** The price of one booking, whatever its status. */
  function Price(b: Booking): int
  {
    b.totalPrice
  }

  /** `totalBookings`, `confirmedBookings` and `totalRevenue`; a cancelled booking still counts towards revenue. */
  function Totals(bookings: seq<Booking>): (s: Summary)
    ensures s.totalBookings == |bookings|
    ensures s.confirmedBookings <= s.totalBookings
    ensures s.confirmedBookings == |bookings| <==> forall b :: b in bookings ==> b.status == Confirmed
    ensures bookings == [] ==> s.totalRevenue == 0
  {
    var confirmed := Filter(bookings, (b: Booking) => b.status == Confirmed);
    FilterLengthIffAll(bookings, (b: Booking) => b.status == Confirmed);
    Summary(|bookings|, |confirmed|, SumBy(bookings, Price))
  }

  /** A filter keeps every element exactly when every element passes. */
  lemma {:induction false} FilterLengthIffAll<T(!new)>(s: seq<T>, p: T -> bool)
    ensures |Filter(s, p)| == |s| <==> forall x :: x in s ==> p(x)
  {
    if s != [] {
      FilterLengthIffAll(s[1..], p);
      assert forall x :: x in s <==> x == s[0] || x in s[1..];
    }
  }

  /** A further booking adds its price to the revenue, cancelled or not. */
  lemma RevenueCountsEveryBooking(bookings: seq<Booking>, b: Booking)
    ensures Totals(bookings + [b]).totalRevenue == Totals(bookings).totalRevenue + b.totalPrice
    ensures Totals(bookings + [b]).confirmedBookings == Totals(bookings).confirmedBookings + (if b.status == Confirmed then 1 else 0)
  {
    SumByAppend(bookings, [b], Price);
    FilterAppend(bookings, [b], (x: Booking) => x.status == Confirmed);
  }

  /** With prices that are not negative the revenue is not negative either. */
  lemma RevenueNonNegative(bookings: seq<Booking>)
    requires forall b :: b in bookings ==> b.totalPrice >= 0
    ensures Totals(bookings).totalRevenue >= 0
  {
    SumByNonNegative(bookings, Price);
  }

  /** `getBookingStatusLabel`: the four known statuses have a label; any other status is shown as it is. */
  function BookingStatusLabel(status: string): (text: string)
    ensures status !in {"pending", "confirmed", "completed", "cancelled"} ==> text == status
  {
    if status == "pending" then "Chờ xác nhận"
    else if status == "confirmed" then "Đã xác nhận"
    else if status == "completed" then "Hoàn thành"
    else if status == "cancelled" then "Đã hủy"
    else status
  }

  /** `getPaymentStatusLabel`, likewise. */
  function PaymentStatusLabel(status: string): (text: string)
    ensures status !in {"pending", "paid", "refunded", "failed"} ==> text == status
  {
    if status == "pending" then "Chờ thanh toán"
    else if status == "paid" then "Đã thanh toán"
    else if status == "refunded" then "Đã hoàn tiền"
    else if status == "failed" then "Thanh toán thất bại"
    else status
  }

  /** The only stored booking status without a label of its own, `no-show`, appears as written. */
  lemma NoShowShownRaw()
    ensures BookingStatusLabel(BookingStatusName(NoShow)) == "no-show"
  {
  }

  /** Every payment status has its own label, none of them the raw name. */
  lemma PaymentStatusesLabelled(p: PaymentStatus)
    ensures PaymentStatusLabel(PaymentStatusName(p)) != PaymentStatusName(p)
  {
  }

  /** `getBookingStatusBadge`: the colour classes; any other status gets the muted style. */
  function BookingStatusBadge(status: string): (classes: string)
    ensures status !in {"pending", "confirmed", "completed", "cancelled"} ==> classes == "bg-muted text-muted-foreground"
  {
    if status == "pending" then "bg-yellow-100 text-yellow-700"
    else if status == "confirmed" then "bg-blue-100 text-blue-700"
    else if status == "completed" then "bg-green-100 text-green-700"
    else if status == "cancelled" then "bg-red-100 text-red-700"
    else "bg-muted text-muted-foreground"
  }

  /** `getPaymentStatusBadge`, likewise. */
  function PaymentStatusBadge(status: string): (classes: string)
    ensures status !in {"pending", "paid", "refunded", "failed"} ==> classes == "bg-muted text-muted-foreground"
  {
    if status == "pending" then "bg-yellow-100 text-yellow-700"
    else if status == "paid" then "bg-green-100 text-green-700"
    else if status == "refunded" then "bg-blue-100 text-blue-700"
    else if status == "failed" then "bg-red-100 text-red-700"
    else "bg-muted text-muted-foreground"
  }

  /** What the dialog shows: nothing without a hotel, else the hotel with its figures. */
  function Rendered(hotel: Option<Hotel>, bookings: seq<Booking>): (r: Option<(Hotel, Summary)>)
    ensures r.None? <==> hotel.None?
    ensures r.Some? ==> r.value.0 == hotel.value && r.value.1.totalBookings == |bookings|
  {
    if hotel.None? then None else Some((hotel.value, Totals(bookings)))
  }
}
