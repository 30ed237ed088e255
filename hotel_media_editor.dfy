/**
 * The amenity and image list editor that the hotel edit dialog
 * (`components/modals/EditHotelModal.tsx`) and the provider's create dialog
 * (`components/modals/ProviderCreateHotelModal.tsx`) both contain, with the
 * same code in each.
 */
module HotelMediaEditor {
  import opened Wrappers
  import opened Strings
  import opened Seqs

  /** The list after `addAmenity`: the trimmed input is appended unless it is blank or already listed. */
  function AddedAmenity(amenities: seq<string>, input: string): (r: seq<string>)
    ensures Trim(input) != "" && Trim(input) !in amenities ==> r == amenities + [Trim(input)]
    ensures Trim(input) == "" || Trim(input) in amenities ==> r == amenities
  {
    var t := Trim(input);
    if t != "" && t !in amenities then amenities + [t] else amenities
  }

  /** `list.filter((a) => a !== item)`. */
  function RemoveAll(list: seq<string>, item: string): (r: seq<string>)
    ensures item !in r
    ensures forall x :: x in r <==> x in list && x != item
    ensures forall x :: multiset(r)[x] == if x == item then 0 else multiset(list)[x]
    ensures IsSubseq(r, list)
  {
    FilterMultiset(list, (a: string) => a != item);
    Filter(list, (a: string) => a != item)
  }

  /** Adding an amenity keeps the list free of repetitions. */
  lemma AddKeepsDistinct(amenities: seq<string>, input: string)
    requires NoDuplicates(amenities)
    ensures NoDuplicates(AddedAmenity(amenities, input))
  {
  }

  /** Removing keeps the list free of repetitions. */
  lemma RemoveKeepsDistinct(list: seq<string>, item: string)
    requires NoDuplicates(list)
    ensures NoDuplicates(RemoveAll(list, item))
  {
    FilterNoDuplicates(list, (a: string) => a != item);
  }

  /** Removing an item that is not listed changes nothing. */
  lemma RemoveAbsent(list: seq<string>, item: string)
    requires item !in list
    ensures RemoveAll(list, item) == list
  {
    FilterKeepsAll(list, (a: string) => a != item);
  }

  /** Removing the amenity just added gives back the list as it was. */
  lemma AddThenRemove(amenities: seq<string>, input: string)
    ensures RemoveAll(AddedAmenity(amenities, input), Trim(input)) == RemoveAll(amenities, Trim(input))
    ensures Trim(input) !in amenities ==> RemoveAll(AddedAmenity(amenities, input), Trim(input)) == amenities
  {
    var t := Trim(input);
    var p := (a: string) => a != t;
    if t != "" && t !in amenities {
      FilterAppend(amenities, [t], p);
      assert Filter([t], p) == [];
      assert amenities + [t] == AddedAmenity(amenities, input);
    }
    if t !in amenities {
      RemoveAbsent(amenities, t);
    }
  }

  /** `url ?? imageUrlInput.trim()`: an explicit URL, else the trimmed input box. */
  function ImageCandidate(url: Option<string>, input: string): (u: string)
    ensures url.Some? ==> u == url.value
    ensures url.None? ==> u == Trim(input)
  {
    if url.Some? then url.value else Trim(input)
  }

  /**
   * The image list after `addImageByUrl`. `parses` says whether `new URL(u)`
   * accepts the text; a blank candidate is ignored, and a listed URL may be
   * added again.
   */
  function AddedImage(images: seq<string>, u: string, parses: string -> bool): (r: seq<string>)
    ensures u != "" && parses(u) ==> r == images + [u]
    ensures u == "" || !parses(u) ==> r == images
  {
    if u != "" && parses(u) then images + [u] else images
  }

  /** A blank URL box adds nothing, whatever `new URL` would say. */
  lemma BlankUrlIgnored(images: seq<string>, input: string, parses: string -> bool)
    requires forall i :: 0 <= i < |input| ==> IsJsSpace(input[i])
    ensures AddedImage(images, ImageCandidate(None, input), parses) == images
  {
    TrimAllSpace(input);
  }

  /** Trimming a string of white space leaves nothing. */
  lemma {:induction false} TrimAllSpace(s: string)
    requires forall i :: 0 <= i < |s| ==> IsJsSpace(s[i])
    ensures Trim(s) == ""
  {
    TrimStartAllSpace(s);
  }

  lemma {:induction false} TrimStartAllSpace(s: string)
    requires forall i :: 0 <= i < |s| ==> IsJsSpace(s[i])
    ensures TrimStart(s) == ""
  {
    if |s| > 0 {
      TrimStartAllSpace(s[1..]);
    }
  }

  /** Unlike amenities, the image list is not kept free of repetitions. */
  lemma ImageMayRepeat(u: string, parses: string -> bool)
    requires u != "" && parses(u)
    ensures AddedImage([u], u, parses) == [u, u]
  {
  }

  /** The editor's state: the two input boxes and the two lists. */
  class MediaEditor {
    var amenityInput: string
    var amenities: seq<string>
    var images: seq<string>
    var imageUrlInput: string

    constructor (amenities0: seq<string>, images0: seq<string>)
      ensures amenityInput == "" && imageUrlInput == ""
      ensures amenities == amenities0 && images == images0
    {
      amenityInput := "";
      amenities := amenities0;
      images := images0;
      imageUrlInput := "";
    }

    /** `addAmenity`: the input box is cleared exactly when an amenity was added. */
    method AddAmenity()
      modifies this
      ensures amenities == AddedAmenity(old(amenities), old(amenityInput))
      ensures amenityInput == if amenities != old(amenities) then "" else old(amenityInput)
      ensures images == old(images) && imageUrlInput == old(imageUrlInput)
    {
      var t := Trim(amenityInput);
      if t != "" && t !in amenities {
        amenities := amenities + [t];
        amenityInput := "";
      }
    }

    method RemoveAmenity(item: string)
      modifies this
      ensures amenities == RemoveAll(old(amenities), item)
      ensures amenityInput == old(amenityInput) && images == old(images) && imageUrlInput == old(imageUrlInput)
    {
      amenities := RemoveAll(amenities, item);
    }

    /** `addImageByUrl(url)`: the URL box is cleared exactly when an image was added. */
    method AddImageByUrl(url: Option<string>, parses: string -> bool)
      modifies this
      ensures var u := ImageCandidate(url, old(imageUrlInput));
        images == AddedImage(old(images), u, parses)
        && imageUrlInput == if u != "" && parses(u) then "" else old(imageUrlInput)
      ensures amenities == old(amenities) && amenityInput == old(amenityInput)
    {
      var u := if url.Some? then url.value else Trim(imageUrlInput);
      if u == "" {
        return;
      }
      if parses(u) {
        images := images + [u];
        imageUrlInput := "";
      }
    }

    method RemoveImage(img: string)
      modifies this
      ensures images == RemoveAll(old(images), img)
      ensures amenities == old(amenities) && amenityInput == old(amenityInput) && imageUrlInput == old(imageUrlInput)
    {
      images := RemoveAll(images, img);
    }
  }
}
