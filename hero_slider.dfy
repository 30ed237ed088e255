/**
 * The home page hero (`components/home/HeroSlider.tsx`): three slides that
 * turn by the arrows, the dots and a five-second timer, and the search box
 * that sends its fields to the hotel list as query parameters.
 */
module HeroSlider {
  import opened Strings
  import opened Seqs
  import opened Numbers

  /** `slides.length`. */
  const SlideCount: nat := 3

  /** `(prev + 1) % slides.length`, the next arrow and the timer alike. */
  function NextSlide(i: int): (j: int)
    ensures 0 <= i < SlideCount ==> 0 <= j < SlideCount
    ensures 0 <= i < SlideCount ==> j == if i == SlideCount - 1 then 0 else i + 1
    ensures i >= -1 ==> j == (i + 1) % SlideCount
  {
    JsRem(i + 1, SlideCount)
  }

  /** `(prev - 1 + slides.length) % slides.length`. */
  function PrevSlide(i: int): (j: int)
    ensures 0 <= i < SlideCount ==> 0 <= j < SlideCount
    ensures 0 <= i < SlideCount ==> j == if i == 0 then SlideCount - 1 else i - 1
    ensures i >= 1 - SlideCount ==> j == (i + SlideCount - 1) % SlideCount
  {
    JsRem(i - 1 + SlideCount, SlideCount)
  }

  /** The arrows undo each other, and three steps forward come back round. */
  lemma ArrowsInverse(i: int)
    requires 0 <= i < SlideCount
    ensures PrevSlide(NextSlide(i)) == i
    ensures NextSlide(PrevSlide(i)) == i
    ensures NextSlide(NextSlide(NextSlide(i))) == i
  {
  }

  /** One search parameter: its name and its text. */
  type Param = (string, string)

  /**
   * The parameters `handleSearch` sends: location, check-in, check-out and
   * guests, in that order, each only when its field is not empty.
   */
  function SearchParams(destination: string, checkIn: string, checkOut: string, guests: string): (ps: seq<Param>)
    ensures IsSubseq(ps, [("location", destination), ("checkIn", checkIn), ("checkOut", checkOut), ("guests", guests)])
    ensures forall k :: 0 <= k < |ps| ==> ps[k].1 != ""
  {
    var ps := Filter([("location", destination), ("checkIn", checkIn), ("checkOut", checkOut), ("guests", guests)],
      (p: Param) => p.1 != "");
    assert forall k :: 0 <= k < |ps| ==> ps[k] in ps;
    ps
  }

  /** A parameter list for each field on its own, empty when the field is. */
  function Appended(name: string, value: string): seq<Param>
  {
    if value != "" then [(name, value)] else []
  }

  /** The filter over the four fields is the four appends one after another. */
  lemma SearchParamsInSteps(destination: string, checkIn: string, checkOut: string, guests: string)
    ensures SearchParams(destination, checkIn, checkOut, guests) ==
      Appended("location", destination) + Appended("checkIn", checkIn) + Appended("checkOut", checkOut) + Appended("guests", guests)
  {
    FilterFour([("location", destination), ("checkIn", checkIn), ("checkOut", checkOut), ("guests", guests)],
      (p: Param) => p.1 != "");
  }

  /** A parameter is sent exactly when its field is filled in. */
  lemma ParamPresent(destination: string, checkIn: string, checkOut: string, guests: string)
    ensures var ps := SearchParams(destination, checkIn, checkOut, guests);
      (("location", destination) in ps <==> destination != "")
      && (("checkIn", checkIn) in ps <==> checkIn != "")
      && (("checkOut", checkOut) in ps <==> checkOut != "")
      && (("guests", guests) in ps <==> guests != "")
  {
  }

  /** The untouched form searches only for the default two guests. */
  lemma DefaultSearch()
    ensures SearchParams("", "", "", "2") == [("guests", "2")]
  {
  }

  /** `name=value` with the value encoded as `URLSearchParams` writes it. */
  function Pair(p: Param, encode: string -> string): string
  {
    p.0 + "=" + encode(p.1)
  }

  /**
   * `params.toString()`: the pairs joined by `&`, empty when there is no
   * pair. Since the encoding escapes `&`, the query splits back at `&` into
   * exactly one `name=value` piece per parameter.
   */
  function QueryString(ps: seq<Param>, encode: string -> string): (q: string)
    ensures ps == [] ==> q == ""
    ensures |ps| >= 1 && (forall k :: 0 <= k < |ps| ==> '&' !in ps[k].0) && (forall v :: '&' !in encode(v)) ==>
      |Split(q, '&')| == |ps| && forall k :: 0 <= k < |ps| ==> Split(q, '&')[k] == Pair(ps[k], encode)
  {
    PairsSplit(ps, encode);
    Join(seq(|ps|, k requires 0 <= k < |ps| => Pair(ps[k], encode)), '&')
  }

  /** Pairs whose names and encoded values hold no `&` come back from a split of their join. */
  lemma PairsSplit(ps: seq<Param>, encode: string -> string)
    ensures var pairs := seq(|ps|, k requires 0 <= k < |ps| => Pair(ps[k], encode));
      |ps| >= 1 && (forall k :: 0 <= k < |ps| ==> '&' !in ps[k].0) && (forall v :: '&' !in encode(v)) ==>
        Split(Join(pairs, '&'), '&') == pairs
  {
    var pairs := seq(|ps|, k requires 0 <= k < |ps| => Pair(ps[k], encode));
    if |ps| >= 1 && (forall k :: 0 <= k < |ps| ==> '&' !in ps[k].0) && (forall v :: '&' !in encode(v)) {
      forall k | 0 <= k < |pairs|
        ensures '&' !in pairs[k]
      {
        assert pairs[k] == ps[k].0 + "=" + encode(ps[k].1);
      }
      SplitJoin(pairs, '&');
    }
  }

  /** The slider's index and the four search fields. */
  class Hero {
    var currentSlide: int
    var checkIn: string
    var checkOut: string
    var guests: string
    var destination: string

    constructor ()
      ensures currentSlide == 0 && checkIn == "" && checkOut == "" && guests == "2" && destination == ""
      ensures Valid()
    {
      currentSlide := 0;
      checkIn := "";
      checkOut := "";
      guests := "2";
      destination := "";
    }

    /** `slides[currentSlide]` always names a slide. */
    predicate Valid()
      reads this
    {
      0 <= currentSlide < SlideCount
    }

    /** The timer's tick and the next arrow. */
    method Next()
      requires Valid()
      modifies this
      ensures Valid() && currentSlide == NextSlide(old(currentSlide))
      ensures checkIn == old(checkIn) && checkOut == old(checkOut) && guests == old(guests) && destination == old(destination)
    {
      currentSlide := (currentSlide + 1) % SlideCount;
    }

    method Prev()
      requires Valid()
      modifies this
      ensures Valid() && currentSlide == PrevSlide(old(currentSlide))
      ensures checkIn == old(checkIn) && checkOut == old(checkOut) && guests == old(guests) && destination == old(destination)
    {
      currentSlide := (currentSlide - 1 + SlideCount) % SlideCount;
    }

    /** A dot sets the index to its own. */
    method GoTo(index: nat)
      requires index < SlideCount
      modifies this
      ensures Valid() && currentSlide == index
      ensures checkIn == old(checkIn) && checkOut == old(checkOut) && guests == old(guests) && destination == old(destination)
    {
      currentSlide := index;
    }

    /** `handleSearch`: one `append` per filled-in field, then the address to go to. */
    method Search(encode: string -> string) returns (params: seq<Param>, href: string)
      ensures params == SearchParams(destination, checkIn, checkOut, guests)
      ensures href == "/hotels?" + QueryString(params, encode)
    {
      params := [];
      if destination != "" {
        params := params + [("location", destination)];
      }
      assert params == Appended("location", destination);
      if checkIn != "" {
        params := params + [("checkIn", checkIn)];
      }
      assert params == Appended("location", destination) + Appended("checkIn", checkIn);
      if checkOut != "" {
        params := params + [("checkOut", checkOut)];
      }
      assert params == Appended("location", destination) + Appended("checkIn", checkIn) + Appended("checkOut", checkOut);
      if guests != "" {
        params := params + [("guests", guests)];
      }
      SearchParamsInSteps(destination, checkIn, checkOut, guests);
      href := "/hotels?" + QueryString(params, encode);
    }
  }
}
