/**
 * The client-side booking store: a reducer over the bookings, the
 * selected booking and the list filters, its queries, and the provider
 * operations that change it through `dispatch`.
 */
module BookingContext {
  import opened Wrappers
  import opened Strings
  import opened Seqs
  import opened Types

  datatype BookingFilters = BookingFilters(
    status: Option<BookingStatus>,
    customerId: Option<string>,
    hotelId: Option<string>)

  const NoFilters := BookingFilters(None, None, None)

  /** `Partial<filters>`: an outer `None` is an absent key, `Some(None)` a key set to `undefined`. */
  datatype FiltersPatch = FiltersPatch(
    status: Option<Option<BookingStatus>>,
    customerId: Option<Option<string>>,
    hotelId: Option<Option<string>>)

  function MergeFilters(f: BookingFilters, p: FiltersPatch): BookingFilters
  {
    BookingFilters(Override(f.status, p.status), Override(f.customerId, p.customerId),
                   Override(f.hotelId, p.hotelId))
  }

  /** `Partial<Booking>`. */
  datatype BookingPatch = BookingPatch(
    id: Option<string>,
    customerId: Option<string>,
    hotelId: Option<string>,
    roomIds: Option<seq<string>>,
    roomTypeId: Option<string>,
    checkIn: Option<string>,
    checkOut: Option<string>,
    adults: Option<int>,
    children: Option<int>,
    totalPrice: Option<int>,
    status: Option<BookingStatus>,
    paymentStatus: Option<PaymentStatus>,
    paymentMethod: Option<Option<string>>,
    specialRequests: Option<Option<string>>,
    createdAt: Option<string>)

  const NoBookingChanges := BookingPatch(None, None, None, None, None, None, None, None, None, None,
                                         None, None, None, None, None)

  /** `{ ...booking, ...updates }`. */
  function MergeBooking(b: Booking, p: BookingPatch): Booking
  {
    Booking(Override(b.id, p.id), Override(b.customerId, p.customerId), Override(b.hotelId, p.hotelId),
            Override(b.roomIds, p.roomIds), Override(b.roomTypeId, p.roomTypeId),
            Override(b.checkIn, p.checkIn), Override(b.checkOut, p.checkOut),
            Override(b.adults, p.adults), Override(b.children, p.children),
            Override(b.totalPrice, p.totalPrice), Override(b.status, p.status),
            Override(b.paymentStatus, p.paymentStatus), Override(b.paymentMethod, p.paymentMethod),
            Override(b.specialRequests, p.specialRequests), Override(b.createdAt, p.createdAt))
  }

  /** An empty updates object changes nothing; `{ status }` changes only the status. */
  lemma MergeBookingFieldsAbsent(b: Booking, s: BookingStatus)
    ensures MergeBooking(b, NoBookingChanges) == b
    ensures MergeBooking(b, NoBookingChanges.(status := Some(s))) == b.(status := s)
  {
  }

  datatype BookingState = BookingState(
    bookings: seq<Booking>,
    selectedBooking: Option<Booking>,
    filters: BookingFilters)

  function InitialState(mockBookings: seq<Booking>): (s: BookingState)
    ensures s.selectedBooking.None? && s.filters == NoFilters
  {
    BookingState(mockBookings, None, NoFilters)
  }

  datatype BookingAction =
    | AddBooking(booking: Booking)
    | UpdateBooking(booking: Booking)
    | DeleteBooking(id: string)
    | SetSelectedBooking(selected: Option<Booking>)
    | SetFilters(patch: FiltersPatch)

  /** `bookings.map(b => b._id === updated._id ? updated : b)`. */
  function ReplaceBooking(bookings: seq<Booking>, updated: Booking): (r: seq<Booking>)
    ensures |r| == |bookings|
    ensures forall i :: 0 <= i < |r| ==> r[i].id == bookings[i].id
    ensures forall i :: 0 <= i < |r| && bookings[i].id != updated.id ==> r[i] == bookings[i]
    ensures forall i :: 0 <= i < |r| && bookings[i].id == updated.id ==> r[i] == updated
  {
    seq(|bookings|, i requires 0 <= i < |bookings| => if bookings[i].id == updated.id then updated else bookings[i])
  }

  /** `bookingReducer`. */
  function Reduce(s: BookingState, a: BookingAction): BookingState
  {
    match a
    case AddBooking(b) => s.(bookings := s.bookings + [b])
    case UpdateBooking(b) =>
      s.(bookings := ReplaceBooking(s.bookings, b),
         selectedBooking := if s.selectedBooking.Some? && s.selectedBooking.value.id == b.id then Some(b) else s.selectedBooking)
    case DeleteBooking(id) => s.(bookings := Filter(s.bookings, (b: Booking) => b.id != id))
    case SetSelectedBooking(sel) => s.(selectedBooking := sel)
    case SetFilters(p) => s.(filters := MergeFilters(s.filters, p))
  }

  /** `ADD_BOOKING` appends at the end. */
  lemma ReduceAddBooking(s: BookingState, b: Booking)
    ensures var r := Reduce(s, AddBooking(b));
      && |r.bookings| == |s.bookings| + 1 && r.bookings[|s.bookings|] == b
      && r.bookings[..|s.bookings|] == s.bookings
      && r.(bookings := s.bookings) == s
  {
    assert (s.bookings + [b])[..|s.bookings|] == s.bookings;
  }

  /** `UPDATE_BOOKING` replaces only matching ids and moves the selection only when its id matches. */
  lemma ReduceUpdateBooking(s: BookingState, b: Booking)
    ensures var r := Reduce(s, UpdateBooking(b));
      && |r.bookings| == |s.bookings|
      && (forall i :: 0 <= i < |r.bookings| ==> r.bookings[i] == (if s.bookings[i].id == b.id then b else s.bookings[i]))
      && (s.selectedBooking.Some? && s.selectedBooking.value.id == b.id ==> r.selectedBooking == Some(b))
      && (s.selectedBooking.None? || s.selectedBooking.value.id != b.id ==> r.selectedBooking == s.selectedBooking)
      && r.filters == s.filters
  {
  }

  /** `DELETE_BOOKING` removes every entry with the id and keeps the others in order. */
  lemma ReduceDeleteBooking(s: BookingState, id: string)
    ensures var r := Reduce(s, DeleteBooking(id));
      && IsSubseq(r.bookings, s.bookings)
      && (forall b :: b in r.bookings <==> b in s.bookings && b.id != id)
      && r.(bookings := s.bookings) == s
  {
  }

  /** `state.bookings.find(b => b._id === id)`: the first booking with the id. */
  function BookingById(bookings: seq<Booking>, id: string): (r: Option<Booking>)
    ensures r.None? <==> forall b :: b in bookings ==> b.id != id
    ensures r.Some? ==> exists i :: (0 <= i < |bookings| && bookings[i] == r.value && r.value.id == id
      && forall j :: 0 <= j < i ==> bookings[j].id != id)
  {
    Find(bookings, (b: Booking) => b.id == id)
  }

  /** `getBookingsByCustomer`. */
  function BookingsByCustomer(s: BookingState, customerId: string): (r: seq<Booking>)
    ensures IsSubseq(r, s.bookings)
    ensures forall b :: b in r <==> b in s.bookings && b.customerId == customerId
  {
    Filter(s.bookings, (b: Booking) => b.customerId == customerId)
  }

  /** `getBookingsByHotel`. */
  function BookingsByHotel(s: BookingState, hotelId: string): (r: seq<Booking>)
    ensures IsSubseq(r, s.bookings)
    ensures forall b :: b in r <==> b in s.bookings && b.hotelId == hotelId
  {
    Filter(s.bookings, (b: Booking) => b.hotelId == hotelId)
  }

  /** A filter is "set" when its value is truthy: present, and a non-empty string for the ids. */
  predicate MatchesFilters(f: BookingFilters, b: Booking)
  {
    && (f.status.Some? ==> b.status == f.status.value)
    && (f.customerId.Some? && f.customerId.value != "" ==> b.customerId == f.customerId.value)
    && (f.hotelId.Some? && f.hotelId.value != "" ==> b.hotelId == f.hotelId.value)
  }

  /** `getFilteredBookings`: status, then customer, then hotel, each only when set. */
  function FilteredBookings(s: BookingState): (r: seq<Booking>)
    ensures IsSubseq(r, s.bookings)
    ensures forall b :: b in r <==> b in s.bookings && MatchesFilters(s.filters, b)
  {
    var f := s.filters;
    var byStatus := FilterWhen(f.status.Some?, s.bookings, (b: Booking) => Some(b.status) == f.status);
    var byCustomer := FilterWhen(f.customerId.Some? && f.customerId.value != "", byStatus,
      (b: Booking) => Some(b.customerId) == f.customerId);
    var byHotel := FilterWhen(f.hotelId.Some? && f.hotelId.value != "", byCustomer,
      (b: Booking) => Some(b.hotelId) == f.hotelId);
    SubseqTrans(byHotel, byCustomer, byStatus);
    SubseqTrans(byHotel, byStatus, s.bookings);
    byHotel
  }

  /** The `BookingProvider` component. */
  class BookingProvider {
    var state: BookingState

    constructor (mockBookings: seq<Booking>)
      ensures state == InitialState(mockBookings)
    {
      state := InitialState(mockBookings);
    }

    method Dispatch(a: BookingAction)
      modifies this
      ensures state == Reduce(old(state), a)
    {
      state := Reduce(state, a);
    }

    /** `createBooking`: every given field is copied, and the id, timestamp and status "pending" are forced. */
    method CreateBooking(data: Booking, nowMs: nat, isoNow: string) returns (created: Booking)
      modifies this
      ensures created.status == BookingPending
      ensures created.id == "booking_" + NatToString(nowMs) && created.createdAt == isoNow
      ensures created == data.(id := created.id, createdAt := isoNow, status := BookingPending)
      ensures state == Reduce(old(state), BookingAction.AddBooking(created))
    {
      created := data.(id := "booking_" + NatToString(nowMs), createdAt := isoNow, status := BookingPending);
      Dispatch(BookingAction.AddBooking(created));
    }

    /** `updateBooking` without its fire-and-forget PATCH: merge into the first booking with the id. */
    method UpdateBooking(id: string, updates: BookingPatch)
      modifies this
      ensures BookingById(old(state.bookings), id).None? ==> state == old(state)
      ensures BookingById(old(state.bookings), id).Some? ==>
        state == Reduce(old(state), BookingAction.UpdateBooking(MergeBooking(BookingById(old(state.bookings), id).value, updates)))
    {
      var found := BookingById(state.bookings, id);
      if found.Some? {
        Dispatch(BookingAction.UpdateBooking(MergeBooking(found.value, updates)));
      }
    }

    /** `cancelBooking`, `confirmBooking` and `completeBooking`: the status is overwritten whatever it was. */
    method SetBookingStatus(id: string, status: BookingStatus)
      modifies this
      ensures BookingById(old(state.bookings), id).None? ==> state == old(state)
      ensures BookingById(old(state.bookings), id).Some? ==>
        state == Reduce(old(state), BookingAction.UpdateBooking(BookingById(old(state.bookings), id).value.(status := status)))
    {
      var found := BookingById(state.bookings, id);
      if found.Some? {
        MergeBookingFieldsAbsent(found.value, status);
      }
      UpdateBooking(id, NoBookingChanges.(status := Some(status)));
    }

    method CancelBooking(id: string)
      modifies this
      ensures BookingById(old(state.bookings), id).None? ==> state == old(state)
      ensures BookingById(old(state.bookings), id).Some? ==>
        state == Reduce(old(state), BookingAction.UpdateBooking(BookingById(old(state.bookings), id).value.(status := Cancelled)))
    {
      SetBookingStatus(id, Cancelled);
    }

    method ConfirmBooking(id: string)
      modifies this
      ensures BookingById(old(state.bookings), id).None? ==> state == old(state)
      ensures BookingById(old(state.bookings), id).Some? ==>
        state == Reduce(old(state), BookingAction.UpdateBooking(BookingById(old(state.bookings), id).value.(status := Confirmed)))
    {
      SetBookingStatus(id, Confirmed);
    }

    method CompleteBooking(id: string)
      modifies this
      ensures BookingById(old(state.bookings), id).None? ==> state == old(state)
      ensures BookingById(old(state.bookings), id).Some? ==>
        state == Reduce(old(state), BookingAction.UpdateBooking(BookingById(old(state.bookings), id).value.(status := Completed)))
    {
      SetBookingStatus(id, Completed);
    }

    method SetSelectedBooking(selected: Option<Booking>)
      modifies this
      ensures state == old(state).(selectedBooking := selected)
    {
      Dispatch(BookingAction.SetSelectedBooking(selected));
    }

    method SetFilters(p: FiltersPatch)
      modifies this
      ensures state == old(state).(filters := MergeFilters(old(state.filters), p))
    {
      Dispatch(BookingAction.SetFilters(p));
    }
  }
}
