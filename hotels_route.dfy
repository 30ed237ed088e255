/** `GET` and `POST /api/hotels` (`app/api/hotels/route.ts`). */
module HotelsRoute {
  import opened Wrappers
  import opened Strings
  import opened Seqs
  import opened Json
  import opened MockData

  /** A query parameter counts as given when it is present and non-empty. */
  predicate Given(param: Option<string>)
  {
    param.Some? && param.value != ""
  }

  /** `{ data, total }`. */
  datatype Listing = Listing(data: seq<Record>, total: int)

  /** The reply body: exactly `data`, the records one for one and in order, and `total`. */
  function ListingJson(l: Listing): (j: Json)
    ensures j.JObject? && j.fields.Keys == {"data", "total"}
    ensures j.fields["total"] == JNum(l.total)
    ensures j.fields["data"].JList? && |j.fields["data"].items| == |l.data|
    ensures forall i :: 0 <= i < |l.data| ==> j.fields["data"].items[i] == JObject(l.data[i])
  {
    JObject(map["data" := JList(seq(|l.data|, i requires 0 <= i < |l.data| => JObject(l.data[i]))),
                "total" := JNum(l.total)])
  }

  predicate OwnerMatches(ownerId: Option<string>, h: Record)
  {
    Given(ownerId) ==> Get(h, "ownerId") == Some(JStr(ownerId.value))
  }

  /** `status=ALL` disables the status filter like a missing parameter does. */
  predicate StatusMatches(status: Option<string>, r: Record)
  {
    (Given(status) && status.value != "ALL") ==> Get(r, "status") == Some(JStr(status.value))
  }

  /** The hotels `GET /api/hotels?ownerId=&status=` lists: those of the owner with the status, in file order. */
  function GetHotels(db: Db, ownerId: Option<string>, status: Option<string>): (r: Listing)
    ensures r.total == |r.data|
    ensures IsSubseq(r.data, db.hotels)
    ensures forall h :: h in r.data <==> h in db.hotels && OwnerMatches(ownerId, h) && StatusMatches(status, h)
  {
    var o := if ownerId.Some? then ownerId.value else "";
    var st := if status.Some? then status.value else "";
    var byOwner := FilterWhen(Given(ownerId), db.hotels, h => StrictEquals(Get(h, "ownerId"), Some(JStr(o))));
    var byStatus := FilterWhen(Given(status) && st != "ALL", byOwner,
                               h => StrictEquals(Get(h, "status"), Some(JStr(st))));
    SubseqTrans(byStatus, byOwner, db.hotels);
    Listing(byStatus, |byStatus|)
  }

  /** Without parameters every hotel is listed, in file order. */
  lemma GetHotelsUnfiltered(db: Db)
    ensures GetHotels(db, None, None).data == db.hotels
  {
  }

  /** The generated id `hotel_<ms>`. */
  function HotelId(nowMs: nat): string
  {
    "hotel_" + NatToString(nowMs)
  }

  /** `hotel_` followed by the decimal digits of the clock reading. */
  lemma HotelIdDigits(nowMs: nat)
    ensures var id := HotelId(nowMs);
      |id| > 6 && id[..6] == "hotel_" && (forall i :: 6 <= i < |id| ==> '0' <= id[i] <= '9')
      && DigitsValue(id[6..]) == nowMs
  {
    var digits := NatToString(nowMs);
    assert ("hotel_" + digits)[6..] == digits;
  }

  /** Two different clock readings give two different ids. */
  lemma HotelIdInjective(m: nat, n: nat)
    requires HotelId(m) == HotelId(n)
    ensures m == n
  {
    HotelIdDigits(m);
    HotelIdDigits(n);
  }

  /**
   * The stored hotel `{ _id, ...body, status: body.status || "DRAFT", createdAt }`:
   * the body's own `_id` replaces the generated one, its status is kept when
   * truthy, and the creation time always comes from the server.
   */
  function NewHotelRecord(body: Record, id: string, isoNow: string): (r: Record)
    ensures forall k :: k in r <==> k in body || k == "_id" || k == "status" || k == "createdAt"
    ensures r["_id"] == Override(JStr(id), Get(body, "_id"))
    ensures r["status"] == Or(Get(body, "status"), JStr("DRAFT"))
    ensures r["createdAt"] == JStr(isoNow)
    ensures forall k :: k in body && k != "status" && k != "createdAt" ==> r[k] == body[k]
  {
    var server := map["status" := Or(Get(body, "status"), JStr("DRAFT")), "createdAt" := JStr(isoNow)];
    Spread(JStr(id), body, server)
  }

  /** A caller can create a hotel already approved: a truthy status in the body is stored as sent. */
  lemma PostHotelKeepsRequestedStatus(body: Record, id: string, isoNow: string)
    requires Get(body, "status") == Some(JStr("APPROVED"))
    ensures NewHotelRecord(body, id, isoNow)["status"] == JStr("APPROVED")
  {
  }

  /** `POST /api/hotels`: append the new hotel, keep a backup, reply 201 with the hotel. */
  method PostHotel(file: JsonFile, body: Record, nowMs: nat, isoNow: string) returns (reply: Reply)
    modifies file
    ensures file.backup == Some(old(file.data))
    ensures file.data == old(file.data).(hotels := old(file.data.hotels) + [NewHotelRecord(body, HotelId(nowMs), isoNow)])
    ensures reply == Reply(201, JObject(NewHotelRecord(body, HotelId(nowMs), isoNow)), None)
  {
    var created := NewHotelRecord(body, HotelId(nowMs), isoNow);
    file.Commit(file.data.(hotels := file.data.hotels + [created]));
    reply := Reply(201, JObject(created), None);
  }
}
