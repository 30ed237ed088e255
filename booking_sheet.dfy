/**
 * The admin booking table (`components/sheets/BookingSheet.tsx`): search
 * and status filtering, ten bookings per page, and the page state its
 * handlers change.
 */
module BookingSheet {
  import opened Wrappers
  import opened Strings
  import opened Seqs
  import opened Types
  import opened Pagination
  import opened Numbers

  const ItemsPerPage: nat := 10

  /** `new Map(users.map((u) => [u._id, u])).get(id)`: the last user with the id wins. */
  function CustomerOf(users: seq<User>, id: string): (r: Option<User>)
    ensures r.None? <==> forall u :: u in users ==> u.id != id
    ensures r.Some? ==> exists i :: (0 <= i < |users| && users[i] == r.value && r.value.id == id
      && forall j :: i < j < |users| ==> users[j].id != id)
  {
    FindLast(users, (u: User) => u.id == id)
  }

  /** `hotelMap.get(id)`, likewise. */
  function HotelOf(hotels: seq<Hotel>, id: string): (r: Option<Hotel>)
    ensures r.None? <==> forall h :: h in hotels ==> h.id != id
    ensures r.Some? ==> exists i :: (0 <= i < |hotels| && hotels[i] == r.value && r.value.id == id
      && forall j :: i < j < |hotels| ==> hotels[j].id != id)
  {
    FindLast(hotels, (h: Hotel) => h.id == id)
  }

  /** The booking id, the customer's full name or the hotel's name, lower-cased, includes `q`. */
  predicate LoweredHit(hotels: seq<Hotel>, users: seq<User>, q: string, b: Booking)
  {
    var customer := CustomerOf(users, b.customerId);
    var hotel := HotelOf(hotels, b.hotelId);
    Contains(ToLower(b.id), q)
    || (customer.Some? && Contains(ToLower(customer.value.fullName), q))
    || (hotel.Some? && Contains(ToLower(hotel.value.name), q))
  }

  /** `searchQuery.toLowerCase()` is what the three fields are searched for. */
  predicate QueryHit(hotels: seq<Hotel>, users: seq<User>, query: string, b: Booking)
  {
    LoweredHit(hotels, users, ToLower(query), b)
  }

  /** What `filteredBookings` keeps: the query, when given, and the status, unless it is "ALL". */
  predicate Kept(hotels: seq<Hotel>, users: seq<User>, query: string, status: string, b: Booking)
  {
    (query == "" || QueryHit(hotels, users, query, b))
    && (status == "ALL" || BookingStatusName(b.status) == status)
  }

  /** `filteredBookings`: the query filter, then the status filter. */
  function FilteredBookings(bookings: seq<Booking>, hotels: seq<Hotel>, users: seq<User>,
                            query: string, status: string): (r: seq<Booking>)
    ensures IsSubseq(r, bookings)
    ensures forall b :: b in r <==> b in bookings && Kept(hotels, users, query, status, b)
  {
    var q := ToLower(query);
    var byQuery := FilterWhen(query != "", bookings, (b: Booking) => LoweredHit(hotels, users, q, b));
    var byStatus := FilterWhen(status != "ALL", byQuery, (b: Booking) => BookingStatusName(b.status) == status);
    SubseqTrans(byStatus, byQuery, bookings);
    byStatus
  }

  /** An empty query with the "ALL" status lists every booking, in order. */
  lemma UnfilteredListsAll(bookings: seq<Booking>, hotels: seq<Hotel>, users: seq<User>)
    ensures FilteredBookings(bookings, hotels, users, "", "ALL") == bookings
  {
  }

  /** The search ignores case: an upper-case query finds what its lower-case form finds. */
  lemma SearchIgnoresCase(bookings: seq<Booking>, hotels: seq<Hotel>, users: seq<User>, query: string, status: string)
    requires query != ""
    ensures FilteredBookings(bookings, hotels, users, query, status) == FilteredBookings(bookings, hotels, users, ToLower(query), status)
  {
    ToLowerIdempotent(query);
    assert ToLower(query) != "" by {
      assert |ToLower(query)| == |query|;
    }
  }

  /** The delete button appears only when a handler is given and the booking is still pending. */
  function DeleteOffered(hasOnDelete: bool, b: Booking): (offered: bool)
    ensures offered ==> b.status == BookingPending
    ensures offered <==> hasOnDelete && b.status == BookingPending
  {
    hasOnDelete && b.status == BookingPending
  }

  /** The page state of the table and the handlers that change it. */
  class BookingTable {
    var currentPage: int
    var searchQuery: string
    var statusFilter: string

    constructor ()
      ensures currentPage == 1 && searchQuery == "" && statusFilter == "ALL"
    {
      currentPage := 1;
      searchQuery := "";
      statusFilter := "ALL";
    }

    /**
     * The bookings shown on the current page: the matches from position
     * `(currentPage - 1) * 10` up to `currentPage * 10`, cut at the end of
     * the list; nothing on page 0, where "next" leaves an empty list.
     */
    function Shown(bookings: seq<Booking>, hotels: seq<Hotel>, users: seq<User>): (r: seq<Booking>)
      reads this
      ensures |r| <= ItemsPerPage
      ensures var f := FilteredBookings(bookings, hotels, users, searchQuery, statusFilter);
        currentPage >= 1 ==>
          Min((currentPage - 1) * ItemsPerPage, |f|) <= Min(currentPage * ItemsPerPage, |f|)
          && r == f[Min((currentPage - 1) * ItemsPerPage, |f|)..Min(currentPage * ItemsPerPage, |f|)]
      ensures currentPage == 0 ==> r == []
    {
      var f := FilteredBookings(bookings, hotels, users, searchQuery, statusFilter);
      if currentPage >= 1 then PageAt(f, ItemsPerPage, currentPage); Page(f, currentPage, ItemsPerPage)
      else if currentPage == 0 then PageOutOfRange(f, 0, ItemsPerPage); Page(f, currentPage, ItemsPerPage)
      else Page(f, currentPage, ItemsPerPage)
    }

    /** Typing in the search box sets the query and goes back to page 1. */
    method SetSearch(query: string)
      modifies this
      ensures searchQuery == query && currentPage == 1 && statusFilter == old(statusFilter)
    {
      searchQuery := query;
      currentPage := 1;
    }

    /** Choosing a status sets the filter and goes back to page 1. */
    method SetStatus(status: string)
      modifies this
      ensures statusFilter == status && currentPage == 1 && searchQuery == old(searchQuery)
    {
      statusFilter := status;
      currentPage := 1;
    }

    method GoPrevious()
      modifies this
      ensures currentPage == Previous(old(currentPage))
      ensures searchQuery == old(searchQuery) && statusFilter == old(statusFilter)
    {
      currentPage := Max(1, currentPage - 1);
    }

    method GoNext(bookings: seq<Booking>, hotels: seq<Hotel>, users: seq<User>)
      modifies this
      ensures currentPage == Next(old(currentPage), TotalPages(|FilteredBookings(bookings, hotels, users, searchQuery, statusFilter)|, ItemsPerPage))
      ensures searchQuery == old(searchQuery) && statusFilter == old(statusFilter)
    {
      var total := TotalPages(|FilteredBookings(bookings, hotels, users, searchQuery, statusFilter)|, ItemsPerPage);
      currentPage := Min(total, currentPage + 1);
    }

    /** A page-number link sets the page directly. */
    method GoTo(pageNum: int)
      modifies this
      ensures currentPage == pageNum
      ensures searchQuery == old(searchQuery) && statusFilter == old(statusFilter)
    {
      currentPage := pageNum;
    }
  }

  /** After a change of filter the first ten matching bookings are shown. */
  lemma FirstPageAfterFilterChange(bookings: seq<Booking>, hotels: seq<Hotel>, users: seq<User>, query: string, status: string)
    ensures var f := FilteredBookings(bookings, hotels, users, query, status);
      Page(f, 1, ItemsPerPage) == Take(f, ItemsPerPage)
  {
  }
}
