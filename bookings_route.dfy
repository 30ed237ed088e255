/** `GET` and `POST /api/bookings` (`app/api/bookings/route.ts`). */
module BookingsRoute {
  import opened Wrappers
  import opened Strings
  import opened Seqs
  import opened Json
  import opened MockData
  import HotelsRoute

  /** `ids.includes(v)`: `includes` matches `undefined` against `undefined`, like `===` does here. */
  predicate Includes(ids: seq<Option<Json>>, v: Option<Json>)
  {
    exists i :: 0 <= i < |ids| && StrictEquals(ids[i], v)
  }

  predicate OwnedBy(providerId: string, h: Record)
  {
    StrictEquals(Get(h, "ownerId"), Some(JStr(providerId)))
  }

  /** `hotels.filter((h) => h.ownerId === providerId).map((h) => h._id)`. */
  function ProviderHotelIds(hotels: seq<Record>, providerId: string): (ids: seq<Option<Json>>)
    ensures forall v :: Includes(ids, v) <==>
      exists h :: h in hotels && OwnedBy(providerId, h) && StrictEquals(Get(h, "_id"), v)
  {
    var owned := Filter(hotels, h => OwnedBy(providerId, h));
    var ids := seq(|owned|, i requires 0 <= i < |owned| => Get(owned[i], "_id"));
    assert forall i :: 0 <= i < |owned| ==> owned[i] in owned;
    assert forall h :: h in owned ==> exists i :: 0 <= i < |owned| && owned[i] == h && ids[i] == Get(h, "_id");
    ids
  }

  /** A booking belongs to the provider when one of the provider's hotels has its `hotelId`. */
  predicate ProviderMatches(hotels: seq<Record>, providerId: Option<string>, b: Record)
  {
    HotelsRoute.Given(providerId) ==>
      exists h :: h in hotels && OwnedBy(providerId.value, h) && StrictEquals(Get(h, "_id"), Get(b, "hotelId"))
  }

  /** The bookings `GET /api/bookings?providerId=&status=` lists, in file order. */
  function GetBookings(db: Db, providerId: Option<string>, status: Option<string>): (r: HotelsRoute.Listing)
    ensures r.total == |r.data|
    ensures IsSubseq(r.data, db.bookings)
    ensures forall b :: b in r.data <==>
      b in db.bookings && ProviderMatches(db.hotels, providerId, b) && HotelsRoute.StatusMatches(status, b)
  {
    var p := if providerId.Some? then providerId.value else "";
    var st := if status.Some? then status.value else "";
    var ids := ProviderHotelIds(db.hotels, p);
    var byProvider := FilterWhen(HotelsRoute.Given(providerId), db.bookings, b => Includes(ids, Get(b, "hotelId")));
    var byStatus := FilterWhen(HotelsRoute.Given(status) && st != "ALL", byProvider,
                               b => StrictEquals(Get(b, "status"), Some(JStr(st))));
    SubseqTrans(byStatus, byProvider, db.bookings);
    HotelsRoute.Listing(byStatus, |byStatus|)
  }

  /** A provider who owns no hotel sees no bookings. */
  lemma GetBookingsNoHotels(db: Db, providerId: string, status: Option<string>)
    requires providerId != ""
    requires forall h :: h in db.hotels ==> Get(h, "ownerId") != Some(JStr(providerId))
    ensures GetBookings(db, Some(providerId), status).data == []
  {
    var r := GetBookings(db, Some(providerId), status);
    assert forall b :: b !in r.data;
    EmptyWhenNoMember(r.data);
  }

  /** The generated id `booking_<ms>`. */
  function BookingId(nowMs: nat): string
  {
    "booking_" + NatToString(nowMs)
  }

  /** `booking_` followed by the decimal digits of the clock reading. */
  lemma BookingIdDigits(nowMs: nat)
    ensures var id := BookingId(nowMs);
      |id| > 8 && id[..8] == "booking_" && (forall i :: 8 <= i < |id| ==> '0' <= id[i] <= '9')
      && DigitsValue(id[8..]) == nowMs
  {
    var digits := NatToString(nowMs);
    assert ("booking_" + digits)[8..] == digits;
  }

  /** Two different clock readings give two different ids. */
  lemma BookingIdInjective(m: nat, n: nat)
    requires BookingId(m) == BookingId(n)
    ensures m == n
  {
    BookingIdDigits(m);
    BookingIdDigits(n);
  }

  /**
   * The stored booking `{ _id, ...body, createdAt, updatedAt }`: the body's own
   * `_id` wins over the generated one, the two time stamps always come from
   * the server (each from its own reading of the clock).
   */
  function NewBookingRecord(body: Record, id: string, createdIso: string, updatedIso: string): (r: Record)
    ensures forall k :: k in r <==> k in body || k == "_id" || k == "createdAt" || k == "updatedAt"
    ensures r["_id"] == Override(JStr(id), Get(body, "_id"))
    ensures r["createdAt"] == JStr(createdIso) && r["updatedAt"] == JStr(updatedIso)
    ensures forall k :: k in body && k != "createdAt" && k != "updatedAt" ==> r[k] == body[k]
  {
    Spread(JStr(id), body, map["createdAt" := JStr(createdIso), "updatedAt" := JStr(updatedIso)])
  }

  /** `POST /api/bookings`: append the new booking, keep a backup, reply 201 with the booking. */
  method PostBooking(file: JsonFile, body: Record, nowMs: nat, createdIso: string, updatedIso: string)
    returns (reply: Reply)
    modifies file
    ensures file.backup == Some(old(file.data))
    ensures file.data == old(file.data).(bookings := old(file.data.bookings) + [NewBookingRecord(body, BookingId(nowMs), createdIso, updatedIso)])
    ensures reply == Reply(201, JObject(NewBookingRecord(body, BookingId(nowMs), createdIso, updatedIso)), None)
  {
    var created := NewBookingRecord(body, BookingId(nowMs), createdIso, updatedIso);
    file.Commit(file.data.(bookings := file.data.bookings + [created]));
    reply := Reply(201, JObject(created), None);
  }
}
