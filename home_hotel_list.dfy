/** The featured hotels on the home page (`components/home/HotelList.tsx`). */
module HomeHotelList {
  import opened Seqs
  import opened Types
  import HotelContext

  const FeaturedCount: nat := 6

  /** `hotel.status === "APPROVED"`. */
  predicate Approved(h: Hotel)
  {
    h.status == Types.Approved
  }

  /** The approved hotels among what the hotel context's filters let through, in order. */
  function ApprovedHotels(s: HotelContext.HotelState): (r: seq<Hotel>)
    ensures forall h :: h in r <==> h in HotelContext.FilteredHotels(s) && Approved(h)
    ensures IsSubseq(r, HotelContext.FilteredHotels(s))
  {
    Filter(HotelContext.FilteredHotels(s), Approved)
  }

  /**
   * The list the section shows: the first six approved hotels. Every one is
   * approved, at most six are shown, they keep the filtered order, and when
   * fewer than six are approved all of them are shown.
   */
  function FeaturedHotels(s: HotelContext.HotelState): (r: seq<Hotel>)
    ensures forall h :: h in r ==> Approved(h) && h in HotelContext.FilteredHotels(s)
    ensures |r| <= FeaturedCount
    ensures r <= ApprovedHotels(s)
    ensures |r| == if |ApprovedHotels(s)| < FeaturedCount then |ApprovedHotels(s)| else FeaturedCount
    ensures IsSubseq(r, HotelContext.FilteredHotels(s))
    ensures |ApprovedHotels(s)| <= FeaturedCount ==> r == ApprovedHotels(s)
  {
    var approved := ApprovedHotels(s);
    var r := Take(approved, FeaturedCount);
    PrefixIsSubseq(r, approved);
    SubseqTrans(r, approved, HotelContext.FilteredHotels(s));
    assert forall h :: h in r ==> h in approved;
    r
  }
}
