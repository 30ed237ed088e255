/**
 * The hotel edit dialog (`components/modals/EditHotelModal.tsx`): the form
 * schema, the form loaded from a hotel, and the PATCH request the dialog
 * sends. The amenity and image lists are the `HotelMediaEditor`.
 */
module EditHotelModal {
  import opened Wrappers
  import opened Json
  import opened Types
  import HotelMediaEditor

  /** The form's values as the form holds them; a field never set is `None`. */
  datatype HotelFormValues = HotelFormValues(
    name: Option<string>,
    address: Option<string>,
    description: Option<string>,
    starRating: Option<int>,
    status: Option<string>,
    amenities: Option<seq<string>>)

  /** What the schema lets through. */
  datatype HotelFormData = HotelFormData(
    name: string,
    address: string,
    description: Option<string>,
    starRating: int,
    status: string,
    amenities: Option<seq<string>>)

  /** The four statuses the schema's `z.enum` allows; `PENDING` is not among them. */
  predicate EditableStatus(s: string)
  {
    s == "DRAFT" || s == "SUBMITTED" || s == "APPROVED" || s == "REJECTED"
  }

  /**
   * `hotelSchema`: a non-empty name and address, a star rating from 1 to 5
   * and one of the four editable statuses; description and amenities are
   * optional. The error set names every field that fails.
   */
  function ParseHotelForm(v: HotelFormValues): (r: Result<HotelFormData, set<string>>)
    ensures r.Ok? <==>
      v.name.Some? && v.name.value != "" && v.address.Some? && v.address.value != ""
      && v.starRating.Some? && 1 <= v.starRating.value <= 5 && v.status.Some? && EditableStatus(v.status.value)
    ensures r.Ok? ==>
      r.value == HotelFormData(v.name.value, v.address.value, v.description, v.starRating.value, v.status.value, v.amenities)
    ensures r.Err? ==>
      ("name" in r.error <==> v.name.None? || v.name.value == "")
      && ("address" in r.error <==> v.address.None? || v.address.value == "")
      && ("starRating" in r.error <==> v.starRating.None? || !(1 <= v.starRating.value <= 5))
      && ("status" in r.error <==> v.status.None? || !EditableStatus(v.status.value))
      && (forall k :: k in r.error ==> k == "name" || k == "address" || k == "starRating" || k == "status")
  {
    var issues :=
      (if v.name.None? || v.name.value == "" then {"name"} else {})
      + (if v.address.None? || v.address.value == "" then {"address"} else {})
      + (if v.starRating.None? || !(1 <= v.starRating.value <= 5) then {"starRating"} else {})
      + (if v.status.None? || !EditableStatus(v.status.value) then {"status"} else {});
    if issues == {} then
      Ok(HotelFormData(v.name.value, v.address.value, v.description, v.starRating.value, v.status.value, v.amenities))
    else Err(issues)
  }

  /** `defaultValues: { status: "DRAFT" }`. */
  const Defaults := HotelFormValues(None, None, None, None, Some("DRAFT"), None)

  /** The `reset({...})` that opening the dialog on a hotel performs. */
  function ValuesOf(h: Hotel): HotelFormValues
  {
    HotelFormValues(Some(h.name), Some(h.address), Some(h.description), Some(h.starRating),
      Some(HotelStatusName(h.status)), None)
  }

  /**
   * A hotel loads into a form the schema accepts exactly when its name and
   * address are non-empty, its rating is 1 to 5 and it is not `PENDING`:
   * `?? "DRAFT"` only replaces a missing status, so a pending hotel cannot be
   * saved until another status is chosen.
   */
  lemma LoadedHotelValid(h: Hotel)
    ensures ParseHotelForm(ValuesOf(h)).Ok? <==>
      h.name != "" && h.address != "" && 1 <= h.starRating <= 5 && h.status != Pending
  {
  }

  /** The empty form is refused. */
  lemma DefaultsRefused()
    ensures ParseHotelForm(Defaults).Err?
    ensures ParseHotelForm(Defaults).error == {"name", "address", "starRating"}
  {
  }

  function Strings(items: seq<string>): (r: seq<Json>)
    ensures |r| == |items| && forall i :: 0 <= i < |items| ==> r[i] == JStr(items[i])
  {
    seq(|items|, i requires 0 <= i < |items| => JStr(items[i]))
  }

  /** The validated data as `JSON.stringify` writes it: an absent optional field is left out. */
  function DataRecord(d: HotelFormData): (r: Record)
    ensures r.Keys <= {"name", "address", "description", "starRating", "status", "amenities"}
    ensures Get(r, "name") == Some(JStr(d.name)) && Get(r, "status") == Some(JStr(d.status))
    ensures Get(r, "address") == Some(JStr(d.address)) && Get(r, "starRating") == Some(JNum(d.starRating))
    ensures Get(r, "description") == if d.description.Some? then Some(JStr(d.description.value)) else None
    ensures Get(r, "amenities") == if d.amenities.Some? then Some(JList(Strings(d.amenities.value))) else None
  {
    map["name" := JStr(d.name), "address" := JStr(d.address), "starRating" := JNum(d.starRating), "status" := JStr(d.status)]
      + (if d.description.Some? then map["description" := JStr(d.description.value)] else map[])
      + (if d.amenities.Some? then map["amenities" := JList(Strings(d.amenities.value))] else map[])
  }

  /** `{ ...data, amenities, images }`: the dialog's own lists replace whatever the form held. */
  function PatchBody(d: HotelFormData, amenities: seq<string>, images: seq<string>): (body: Record)
    ensures body.Keys == DataRecord(d).Keys + {"amenities", "images"}
    ensures body["amenities"] == JList(Strings(amenities)) && body["images"] == JList(Strings(images))
    ensures forall k :: k in DataRecord(d) && k != "amenities" && k != "images" ==> body[k] == DataRecord(d)[k]
  {
    DataRecord(d)["amenities" := JList(Strings(amenities))]["images" := JList(Strings(images))]
  }

  /** `/api/hotels/${hotel?._id}`: with no hotel the id reads `undefined`. */
  function PatchUrl(hotel: Option<Hotel>): (url: string)
    ensures hotel.Some? ==> url == "/api/hotels/" + hotel.value.id
    ensures hotel.None? ==> url == "/api/hotels/undefined"
  {
    "/api/hotels/" + if hotel.Some? then hotel.value.id else "undefined"
  }

  /** Submitting: the request is sent only when the schema accepts the form. */
  function SubmitRequest(hotel: Option<Hotel>, v: HotelFormValues, amenities: seq<string>, images: seq<string>)
    : (req: Option<(string, Record)>)
    ensures req.Some? <==> ParseHotelForm(v).Ok?
    ensures req.Some? ==>
      req.value.0 == PatchUrl(hotel) && req.value.1 == PatchBody(ParseHotelForm(v).value, amenities, images)
  {
    match ParseHotelForm(v)
    case Err(_) => None
    case Ok(d) => Some((PatchUrl(hotel), PatchBody(d, amenities, images)))
  }

  /** A sent request carries a non-empty name and one of the four editable statuses. */
  lemma SentStatusEditable(hotel: Option<Hotel>, v: HotelFormValues, amenities: seq<string>, images: seq<string>)
    requires SubmitRequest(hotel, v, amenities, images).Some?
    ensures var body := SubmitRequest(hotel, v, amenities, images).value.1;
      "status" in body && body["status"].JStr? && EditableStatus(body["status"].s)
      && "name" in body && body["name"].JStr? && body["name"].s != ""
  {
    var d := ParseHotelForm(v).value;
    assert Get(DataRecord(d), "status") == Some(JStr(d.status));
    assert Get(DataRecord(d), "name") == Some(JStr(d.name));
  }

  /**
   * The dialog's form values next to its media editor. `defaults` are the
   * values a bare `reset()` restores: the form's `defaultValues` at first,
   * and after a `reset(values)` those values.
   */
  class EditHotelDialog {
    var values: HotelFormValues
    var defaults: HotelFormValues
    const editor: HotelMediaEditor.MediaEditor

    constructor ()
      ensures values == Defaults && defaults == Defaults && editor.amenities == [] && editor.images == []
      ensures fresh(editor)
    {
      values := Defaults;
      defaults := Defaults;
      editor := new HotelMediaEditor.MediaEditor([], []);
    }

    /**
     * The effect that runs when the hotel or the open flag changes: an open
     * dialog on a hotel loads it, which also makes its values the new
     * defaults; anything else resets to the current defaults (the last
     * hotel loaded, if any) with empty lists.
     */
    method Load(hotel: Option<Hotel>, open: bool)
      modifies this, editor
      ensures hotel.Some? && open ==>
        values == ValuesOf(hotel.value) && defaults == ValuesOf(hotel.value)
        && editor.amenities == hotel.value.amenities && editor.images == hotel.value.images
      ensures !(hotel.Some? && open) ==>
        values == old(defaults) && defaults == old(defaults) && editor.amenities == [] && editor.images == []
      ensures editor.amenityInput == old(editor.amenityInput) && editor.imageUrlInput == old(editor.imageUrlInput)
    {
      if hotel.Some? && open {
        var h := hotel.value;
        values := HotelFormValues(Some(h.name), Some(h.address), Some(h.description), Some(h.starRating),
          Some(HotelStatusName(h.status)), None);
        defaults := values;
        editor.amenities := h.amenities;
        editor.images := h.images;
      } else {
        values := defaults;
        editor.amenities := [];
        editor.images := [];
      }
    }
  }
}
