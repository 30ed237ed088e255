/**
 * The provider's dashboard (`components/dashboards/provider/ProviderDashboard.tsx`):
 * the loading sequence, the summary counts and the two recent lists.
 */
module ProviderDashboard {
  import opened Wrappers
  import opened Seqs
  import opened Types
  import Pagination

  function StatusOf(h: Hotel): HotelStatus
  {
    h.status
  }

  function BookingStatusOf(b: Booking): BookingStatus
  {
    b.status
  }

  /** `list.filter((h) => h.status === status).length`: how often `status` occurs among the hotels' statuses. */
  function HotelCount(hotels: seq<Hotel>, status: HotelStatus): (n: nat)
    ensures n == multiset(Project(hotels, StatusOf))[status]
    ensures n <= |hotels|
  {
    var p := (h: Hotel) => h.status == status;
    FilterCountsKey(hotels, p, StatusOf, status);
    |Filter(hotels, p)|
  }

  /** The draft, submitted and approved counts never add up to more than the hotels listed. */
  lemma {:induction false} StatusCountsBounded(hotels: seq<Hotel>)
    ensures HotelCount(hotels, Draft) + HotelCount(hotels, Submitted) + HotelCount(hotels, Approved) <= |hotels|
  {
    if hotels != [] {
      StatusCountsBounded(hotels[1..]);
    }
  }

  datatype DashboardStats = DashboardStats(
    totalHotels: nat,
    draftHotels: nat,
    submittedHotels: nat,
    approvedHotels: nat,
    totalBookings: nat,
    pendingBookings: nat)

  /** `stats`: how many hotels are in each of three statuses, and how many bookings are pending. */
  function Stats(hotels: seq<Hotel>, bookings: seq<Booking>): (st: DashboardStats)
    ensures st.totalHotels == |hotels| && st.totalBookings == |bookings|
    ensures st.draftHotels + st.submittedHotels + st.approvedHotels <= st.totalHotels
    ensures st.draftHotels == multiset(Project(hotels, StatusOf))[Draft]
    ensures st.submittedHotels == multiset(Project(hotels, StatusOf))[Submitted]
    ensures st.approvedHotels == multiset(Project(hotels, StatusOf))[Approved]
    ensures st.pendingBookings == multiset(Project(bookings, BookingStatusOf))[BookingPending]
    ensures st.pendingBookings <= st.totalBookings
    ensures st.pendingBookings == 0 <==> forall b :: b in bookings ==> b.status != BookingPending
  {
    StatusCountsBounded(hotels);
    var isPending := (b: Booking) => b.status == BookingPending;
    var pending := Filter(bookings, isPending);
    FilterCountsKey(bookings, isPending, BookingStatusOf, BookingPending);
    EmptyWhenNoMember(pending);
    DashboardStats(|hotels|, HotelCount(hotels, Draft), HotelCount(hotels, Submitted), HotelCount(hotels, Approved),
      |bookings|, |pending|)
  }

  /** `list.slice(0, 5)`: the first five entries at most, in order. */
  function Recent<T>(list: seq<T>): (r: seq<T>)
    ensures |r| <= 5 && r <= list
    ensures |r| == if |list| < 5 then |list| else 5
    ensures |list| <= 5 ==> r == list
  {
    Take(list, 5)
  }

  /** `Booking #${booking._id.slice(-4)}`: the id's last four characters, or all of a shorter id. */
  function BookingLabel(id: string): (text: string)
    ensures |text| == 9 + (if |id| < 4 then |id| else 4)
    ensures text[..9] == "Booking #"
    ensures text[9..] == id[|id| - (|text| - 9)..]
  {
    "Booking #" + Pagination.Slice(id, -4, |id|)
  }

  /** What one of the two requests produced: a thrown fetch, a non-ok reply, or an ok body's `data`. */
  datatype Fetched<T> = Threw | NotOk | Body(data: Option<seq<T>>)

  /** `data.data || []`. */
  function ListOr<T>(data: Option<seq<T>>): seq<T>
  {
    if data.Some? then data.value else []
  }

  /** The dashboard's state. */
  class Dashboard {
    var hotels: seq<Hotel>
    var bookings: seq<Booking>
    var isLoading: bool

    constructor ()
      ensures hotels == [] && bookings == [] && isLoading
    {
      hotels := [];
      bookings := [];
      isLoading := true;
    }

    /**
     * `fetchData`. Without a user id it returns before anything happens, so
     * a fresh dashboard keeps showing its spinner. Otherwise the hotels are
     * requested, then the bookings; an ok reply replaces its list, a thrown
     * request skips the rest, and loading ends in every case. `requests`
     * lists the URLs fetched.
     */
    method FetchData(userId: Option<string>, hotelsReply: Fetched<Hotel>, bookingsReply: Fetched<Booking>)
      returns (requests: seq<string>)
      modifies this
      ensures !(userId.Some? && userId.value != "") ==>
        requests == [] && hotels == old(hotels) && bookings == old(bookings) && isLoading == old(isLoading)
      ensures userId.Some? && userId.value != "" ==>
        !isLoading
        && hotels == (if hotelsReply.Body? then ListOr(hotelsReply.data) else old(hotels))
        && bookings == (if !hotelsReply.Threw? && bookingsReply.Body? then ListOr(bookingsReply.data) else old(bookings))
        && requests == ["/api/hotels?ownerId=" + userId.value]
                       + (if hotelsReply.Threw? then [] else ["/api/bookings?providerId=" + userId.value])
    {
      if userId.None? || userId.value == "" {
        return [];
      }
      isLoading := true;
      requests := ["/api/hotels?ownerId=" + userId.value];
      if hotelsReply.Threw? {
        isLoading := false;
        return;
      }
      if hotelsReply.Body? {
        hotels := ListOr(hotelsReply.data);
      }
      requests := requests + ["/api/bookings?providerId=" + userId.value];
      if bookingsReply.Body? {
        bookings := ListOr(bookingsReply.data);
      }
      isLoading := false;
    }
  }
}
