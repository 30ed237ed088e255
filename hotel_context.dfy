/**
 * The client-side hotel store: a reducer over hotels, room types, the
 * selected hotel and the list filters, the queries over it, and the
 * provider whose operations change it through `dispatch`.
 */
module HotelContext {
  import opened Wrappers
  import opened Strings
  import opened Seqs
  import opened Types

  datatype HotelFilters = HotelFilters(
    status: Option<HotelStatusFilter>,
    searchQuery: Option<string>,
    starRating: Option<int>)

  const NoFilters := HotelFilters(None, None, None)

  /**
   * `Partial<filters>`: an outer `None` is a key the payload does not
   * have; `Some(None)` is a key present with the value `undefined`.
   */
  datatype FiltersPatch = FiltersPatch(
    status: Option<Option<HotelStatusFilter>>,
    searchQuery: Option<Option<string>>,
    starRating: Option<Option<int>>)

  function MergeFilters(f: HotelFilters, p: FiltersPatch): HotelFilters
  {
    HotelFilters(Override(f.status, p.status), Override(f.searchQuery, p.searchQuery),
                 Override(f.starRating, p.starRating))
  }

  /** `Partial<Hotel>`: `None` for each key the updates object does not have. */
  datatype HotelPatch = HotelPatch(
    id: Option<string>,
    ownerId: Option<string>,
    name: Option<string>,
    slug: Option<string>,
    address: Option<string>,
    description: Option<string>,
    businessTypes: Option<seq<string>>,
    starRating: Option<int>,
    totalRooms: Option<int>,
    amenities: Option<seq<string>>,
    checkInTime: Option<string>,
    checkOutTime: Option<string>,
    status: Option<HotelStatus>,
    images: Option<seq<string>>,
    createdAt: Option<string>,
    phone: Option<Option<string>>,
    email: Option<Option<string>>,
    price: Option<Option<int>>,
    maxGuests: Option<Option<int>>,
    rooms: Option<Option<int>>)

  const NoHotelChanges := HotelPatch(None, None, None, None, None, None, None, None, None, None,
                                     None, None, None, None, None, None, None, None, None, None)

  /** The updates object that the status setters pass: `{ status }` alone. */
  function StatusPatch(s: HotelStatus): HotelPatch
  {
    NoHotelChanges.(status := Some(s))
  }

  /** `{ ...hotel, ...updates }`. */
  function MergeHotel(h: Hotel, p: HotelPatch): Hotel
  {
    Hotel(Override(h.id, p.id), Override(h.ownerId, p.ownerId), Override(h.name, p.name),
          Override(h.slug, p.slug), Override(h.address, p.address),
          Override(h.description, p.description), Override(h.businessTypes, p.businessTypes),
          Override(h.starRating, p.starRating), Override(h.totalRooms, p.totalRooms),
          Override(h.amenities, p.amenities), Override(h.checkInTime, p.checkInTime),
          Override(h.checkOutTime, p.checkOutTime), Override(h.status, p.status),
          Override(h.images, p.images), Override(h.createdAt, p.createdAt),
          Override(h.phone, p.phone), Override(h.email, p.email), Override(h.price, p.price),
          Override(h.maxGuests, p.maxGuests), Override(h.rooms, p.rooms))
  }

  /** An empty updates object changes nothing; a status-only one changes only the status. */
  lemma MergeHotelFieldsAbsent(h: Hotel, s: HotelStatus)
    ensures MergeHotel(h, NoHotelChanges) == h
    ensures MergeHotel(h, StatusPatch(s)) == h.(status := s)
  {
  }

  /** Applying the same updates twice is the same as applying them once. */
  lemma MergeHotelIdempotent(h: Hotel, p: HotelPatch)
    ensures MergeHotel(MergeHotel(h, p), p) == MergeHotel(h, p)
  {
  }

  datatype HotelState = HotelState(
    hotels: seq<Hotel>,
    roomTypes: seq<RoomType>,
    selectedHotel: Option<Hotel>,
    filters: HotelFilters)

  /** The store as the provider starts it: the seed data, nothing selected, no filters. */
  function InitialState(mockHotels: seq<Hotel>, mockRoomTypes: seq<RoomType>): (s: HotelState)
    ensures s.selectedHotel.None? && s.filters == NoFilters
  {
    HotelState(mockHotels, mockRoomTypes, None, NoFilters)
  }

  datatype HotelAction =
    | SetHotels(list: seq<Hotel>)
    | AddHotel(hotel: Hotel)
    | UpdateHotel(hotel: Hotel)
    | DeleteHotel(id: string)
    | SetSelectedHotel(selected: Option<Hotel>)
    | SetFilters(patch: FiltersPatch)
    | AddRoomType(roomType: RoomType)

  /** `hotels.map(h => h._id === updated._id ? updated : h)`. */
  function ReplaceHotel(hotels: seq<Hotel>, updated: Hotel): (r: seq<Hotel>)
    ensures |r| == |hotels|
    ensures forall i :: 0 <= i < |r| ==> r[i].id == hotels[i].id
    ensures forall i :: 0 <= i < |r| && hotels[i].id != updated.id ==> r[i] == hotels[i]
    ensures forall i :: 0 <= i < |r| && hotels[i].id == updated.id ==> r[i] == updated
  {
    seq(|hotels|, i requires 0 <= i < |hotels| => if hotels[i].id == updated.id then updated else hotels[i])
  }

  /** `hotelReducer`; `SET_HOTELS` is declared but has no case, so it falls to the default. */
  function Reduce(s: HotelState, a: HotelAction): HotelState
  {
    match a
    case SetHotels(_) => s
    case AddHotel(h) => s.(hotels := s.hotels + [h])
    case UpdateHotel(h) =>
      s.(hotels := ReplaceHotel(s.hotels, h),
         selectedHotel := if s.selectedHotel.Some? && s.selectedHotel.value.id == h.id then Some(h) else s.selectedHotel)
    case DeleteHotel(id) => s.(hotels := Filter(s.hotels, (h: Hotel) => h.id != id))
    case SetSelectedHotel(sel) => s.(selectedHotel := sel)
    case SetFilters(p) => s.(filters := MergeFilters(s.filters, p))
    case AddRoomType(rt) => s.(roomTypes := s.roomTypes + [rt])
  }

  /** `ADD_HOTEL` appends exactly one hotel at the end and touches nothing else. */
  lemma ReduceAddHotel(s: HotelState, h: Hotel)
    ensures Reduce(s, AddHotel(h)).hotels[..|s.hotels|] == s.hotels
    ensures |Reduce(s, AddHotel(h)).hotels| == |s.hotels| + 1
    ensures Reduce(s, AddHotel(h)).hotels[|s.hotels|] == h
    ensures Reduce(s, AddHotel(h)).(hotels := s.hotels) == s
  {
    assert (s.hotels + [h])[..|s.hotels|] == s.hotels;
  }

  /**
   * `UPDATE_HOTEL` replaces exactly the hotels whose id matches, keeps the
   * length and the order of ids, and re-points the selection only when the
   * selected hotel has that id.
   */
  lemma ReduceUpdateHotel(s: HotelState, h: Hotel)
    ensures var r := Reduce(s, UpdateHotel(h));
      && |r.hotels| == |s.hotels|
      && (forall i :: 0 <= i < |r.hotels| ==> r.hotels[i] == (if s.hotels[i].id == h.id then h else s.hotels[i]))
      && (s.selectedHotel.Some? && s.selectedHotel.value.id == h.id ==> r.selectedHotel == Some(h))
      && (s.selectedHotel.None? || s.selectedHotel.value.id != h.id ==> r.selectedHotel == s.selectedHotel)
      && r.roomTypes == s.roomTypes && r.filters == s.filters
  {
  }

  /** `DELETE_HOTEL` removes every hotel with the id and keeps the others in order. */
  lemma ReduceDeleteHotel(s: HotelState, id: string)
    ensures var r := Reduce(s, DeleteHotel(id));
      && IsSubseq(r.hotels, s.hotels)
      && (forall h :: h in r.hotels <==> h in s.hotels && h.id != id)
      && r.(hotels := s.hotels) == s
  {
  }

  /** `SET_FILTERS` overrides the keys the payload has and keeps every other filter. */
  lemma ReduceSetFilters(s: HotelState, p: FiltersPatch)
    ensures var f := Reduce(s, SetFilters(p)).filters;
      && (p.status.None? ==> f.status == s.filters.status)
      && (p.searchQuery.None? ==> f.searchQuery == s.filters.searchQuery)
      && (p.starRating.None? ==> f.starRating == s.filters.starRating)
      && (p.status.Some? ==> f.status == p.status.value)
      && (p.searchQuery.Some? ==> f.searchQuery == p.searchQuery.value)
      && (p.starRating.Some? ==> f.starRating == p.starRating.value)
    ensures Reduce(s, SetFilters(p)).(filters := s.filters) == s
  {
  }

  /** `SET_HOTELS` has no reducer case and so leaves the state as it was. */
  lemma ReduceSetHotelsIgnored(s: HotelState, list: seq<Hotel>)
    ensures Reduce(s, SetHotels(list)) == s
  {
  }

  /** `state.hotels.find(h => h._id === id)`: the first hotel with the id. */
  function HotelById(hotels: seq<Hotel>, id: string): (r: Option<Hotel>)
    ensures r.None? <==> forall h :: h in hotels ==> h.id != id
    ensures r.Some? ==> exists i :: (0 <= i < |hotels| && hotels[i] == r.value && r.value.id == id
      && forall j :: 0 <= j < i ==> hotels[j].id != id)
  {
    Find(hotels, (h: Hotel) => h.id == id)
  }

  predicate StatusMatches(f: HotelFilters, h: Hotel)
  {
    match f.status
    case Some(OnlyStatus(st)) => h.status == st
    case _ => true
  }

  predicate QueryMatches(f: HotelFilters, h: Hotel)
  {
    match f.searchQuery
    case Some(q) =>
      q == "" || var lq := ToLower(q);
        Contains(ToLower(h.name), lq) || Contains(ToLower(h.address), lq) || Contains(ToLower(h.description), lq)
    case None => true
  }

  predicate RatingMatches(f: HotelFilters, h: Hotel)
  {
    match f.starRating
    case Some(min) => h.starRating >= min
    case None => true
  }

  /** What `getFilteredHotels` keeps: every filter that is set holds of the hotel. */
  predicate MatchesFilters(f: HotelFilters, h: Hotel)
  {
    StatusMatches(f, h) && QueryMatches(f, h) && RatingMatches(f, h)
  }

  /**
   * `getFilteredHotels`: the status filter (unless unset or "ALL"), then
   * the case-insensitive query over name, address and description (unless
   * empty), then the minimum star rating (unless unset), one after another.
   */
  function FilteredHotels(s: HotelState): (r: seq<Hotel>)
    ensures IsSubseq(r, s.hotels)
    ensures forall h :: h in r <==> h in s.hotels && MatchesFilters(s.filters, h)
  {
    var f := s.filters;
    var byStatus := FilterWhen(f.status.Some? && f.status.value.OnlyStatus?, s.hotels,
      (h: Hotel) => StatusMatches(f, h));
    var lq := if f.searchQuery.Some? then ToLower(f.searchQuery.value) else "";
    var byQuery := FilterWhen(f.searchQuery.Some? && f.searchQuery.value != "", byStatus,
      (h: Hotel) => Contains(ToLower(h.name), lq) || Contains(ToLower(h.address), lq) || Contains(ToLower(h.description), lq));
    var byRating := FilterWhen(f.starRating.Some?, byQuery, (h: Hotel) => RatingMatches(f, h));
    SubseqTrans(byRating, byQuery, byStatus);
    SubseqTrans(byRating, byStatus, s.hotels);
    byRating
  }

  /** With no filters set, or only the "ALL" status, every hotel is listed in order. */
  lemma FilteredHotelsUnfiltered(s: HotelState)
    requires s.filters.status.None? || s.filters.status == Some(AllStatuses)
    requires s.filters.searchQuery.None? || s.filters.searchQuery == Some("")
    requires s.filters.starRating.None?
    ensures FilteredHotels(s) == s.hotels
  {
  }

  /** `getHotelsByOwner`. */
  function HotelsByOwner(s: HotelState, ownerId: string): (r: seq<Hotel>)
    ensures IsSubseq(r, s.hotels)
    ensures forall h :: h in r <==> h in s.hotels && h.ownerId == ownerId
  {
    Filter(s.hotels, (h: Hotel) => h.ownerId == ownerId)
  }

  /** `getRoomTypesByHotel`. */
  function RoomTypesByHotel(s: HotelState, hotelId: string): (r: seq<RoomType>)
    ensures IsSubseq(r, s.roomTypes)
    ensures forall rt :: rt in r <==> rt in s.roomTypes && rt.hotelId == hotelId
  {
    Filter(s.roomTypes, (rt: RoomType) => rt.hotelId == hotelId)
  }

  /** The `HotelProvider` component: the reducer state together with the operations it offers. */
  class HotelProvider {
    var state: HotelState

    constructor (mockHotels: seq<Hotel>, mockRoomTypes: seq<RoomType>)
      ensures state == InitialState(mockHotels, mockRoomTypes)
    {
      state := InitialState(mockHotels, mockRoomTypes);
    }

    method Dispatch(a: HotelAction)
      modifies this
      ensures state == Reduce(old(state), a)
    {
      state := Reduce(state, a);
    }

    /** `createHotel`: a fresh id and timestamp, and status DRAFT whatever the input says. */
    method CreateHotel(data: Hotel, nowMs: nat, isoNow: string) returns (created: Hotel)
      modifies this
      ensures created.status == Draft
      ensures created.id == "hotel_" + NatToString(nowMs) && created.createdAt == isoNow
      ensures created == data.(id := created.id, createdAt := isoNow, status := Draft)
      ensures state == Reduce(old(state), HotelAction.AddHotel(created))
    {
      created := data.(id := "hotel_" + NatToString(nowMs), createdAt := isoNow, status := Draft);
      Dispatch(HotelAction.AddHotel(created));
    }

    /** `updateHotel`: merge the updates into the first hotel with the id; an unknown id changes nothing. */
    method UpdateHotel(id: string, updates: HotelPatch)
      modifies this
      ensures HotelById(old(state.hotels), id).None? ==> state == old(state)
      ensures HotelById(old(state.hotels), id).Some? ==>
        state == Reduce(old(state), HotelAction.UpdateHotel(MergeHotel(HotelById(old(state.hotels), id).value, updates)))
    {
      var found := HotelById(state.hotels, id);
      if found.Some? {
        Dispatch(HotelAction.UpdateHotel(MergeHotel(found.value, updates)));
      }
    }

    /** The three status setters share this shape: whatever the current status, it is overwritten. */
    method SetHotelStatus(id: string, status: HotelStatus)
      modifies this
      ensures HotelById(old(state.hotels), id).None? ==> state == old(state)
      ensures HotelById(old(state.hotels), id).Some? ==>
        state == Reduce(old(state), HotelAction.UpdateHotel(HotelById(old(state.hotels), id).value.(status := status)))
    {
      var found := HotelById(state.hotels, id);
      if found.Some? {
        MergeHotelFieldsAbsent(found.value, status);
      }
      UpdateHotel(id, StatusPatch(status));
    }

    /** `submitHotel`. */
    method SubmitHotel(id: string)
      modifies this
      ensures HotelById(old(state.hotels), id).None? ==> state == old(state)
      ensures HotelById(old(state.hotels), id).Some? ==>
        state == Reduce(old(state), HotelAction.UpdateHotel(HotelById(old(state.hotels), id).value.(status := Submitted)))
    {
      SetHotelStatus(id, Submitted);
    }

    /** `approveHotel`. */
    method ApproveHotel(id: string)
      modifies this
      ensures HotelById(old(state.hotels), id).None? ==> state == old(state)
      ensures HotelById(old(state.hotels), id).Some? ==>
        state == Reduce(old(state), HotelAction.UpdateHotel(HotelById(old(state.hotels), id).value.(status := Approved)))
    {
      SetHotelStatus(id, Approved);
    }

    /** `rejectHotel`. */
    method RejectHotel(id: string)
      modifies this
      ensures HotelById(old(state.hotels), id).None? ==> state == old(state)
      ensures HotelById(old(state.hotels), id).Some? ==>
        state == Reduce(old(state), HotelAction.UpdateHotel(HotelById(old(state.hotels), id).value.(status := Rejected)))
    {
      SetHotelStatus(id, Rejected);
    }

    method DeleteHotel(id: string)
      modifies this
      ensures state == Reduce(old(state), HotelAction.DeleteHotel(id))
    {
      Dispatch(HotelAction.DeleteHotel(id));
    }

    method SetSelectedHotel(selected: Option<Hotel>)
      modifies this
      ensures state == old(state).(selectedHotel := selected)
    {
      Dispatch(HotelAction.SetSelectedHotel(selected));
    }

    method SetFilters(p: FiltersPatch)
      modifies this
      ensures state == Reduce(old(state), HotelAction.SetFilters(p))
    {
      Dispatch(HotelAction.SetFilters(p));
    }

    /** `addRoomType`: the data with a fresh `rt_` id, appended. */
    method AddRoomType(data: RoomType, nowMs: nat)
      modifies this
      ensures state == old(state).(roomTypes := old(state.roomTypes) + [data.(id := "rt_" + NatToString(nowMs))])
    {
      Dispatch(HotelAction.AddRoomType(data.(id := "rt_" + NatToString(nowMs))));
    }
  }
}
