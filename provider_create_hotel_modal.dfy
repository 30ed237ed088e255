/**
 * The provider's hotel creation dialog
 * (`components/modals/ProviderCreateHotelModal.tsx`): the schema and its
 * defaults, the request body and the submit sequence. The amenity and image
 * lists are the `HotelMediaEditor`.
 */
module ProviderCreateHotelModal {
  import opened Wrappers
  import opened Json
  import EditHotelModal
  import HotelMediaEditor

  /** The form's values; a field never set is `None`. */
  datatype CreateFormValues = CreateFormValues(
    name: Option<string>,
    address: Option<string>,
    description: Option<string>,
    starRating: Option<int>,
    totalRooms: Option<int>,
    checkInTime: Option<string>,
    checkOutTime: Option<string>,
    amenities: Option<seq<string>>)

  datatype CreateFormData = CreateFormData(
    name: string,
    address: string,
    description: Option<string>,
    starRating: int,
    totalRooms: int,
    checkInTime: string,
    checkOutTime: string,
    amenities: Option<seq<string>>)

  /** `defaultValues`: three stars, ten rooms, check-in 14:00 and check-out 12:00. */
  const Defaults := CreateFormValues(None, None, None, Some(3), Some(10), Some("14:00"), Some("12:00"), None)

  /**
   * `createHotelSchema`: non-empty name and address, a rating from 1 to 5, at
   * least one room and both times present. The error set names every field
   * that fails.
   */
  function ParseCreateForm(v: CreateFormValues): (r: Result<CreateFormData, set<string>>)
    ensures r.Ok? <==>
      v.name.Some? && v.name.value != "" && v.address.Some? && v.address.value != ""
      && v.starRating.Some? && 1 <= v.starRating.value <= 5 && v.totalRooms.Some? && v.totalRooms.value >= 1
      && v.checkInTime.Some? && v.checkOutTime.Some?
    ensures r.Ok? ==>
      r.value == CreateFormData(v.name.value, v.address.value, v.description, v.starRating.value,
        v.totalRooms.value, v.checkInTime.value, v.checkOutTime.value, v.amenities)
    ensures r.Err? ==>
      ("starRating" in r.error <==> v.starRating.None? || !(1 <= v.starRating.value <= 5))
      && ("totalRooms" in r.error <==> v.totalRooms.None? || v.totalRooms.value < 1)
      && ("name" in r.error <==> v.name.None? || v.name.value == "")
      && ("address" in r.error <==> v.address.None? || v.address.value == "")
      && ("checkInTime" in r.error <==> v.checkInTime.None?)
      && ("checkOutTime" in r.error <==> v.checkOutTime.None?)
    ensures r.Err? ==> forall k :: k in r.error ==>
      k == "name" || k == "address" || k == "starRating" || k == "totalRooms" || k == "checkInTime" || k == "checkOutTime"
  {
    var issues :=
      (if v.name.None? || v.name.value == "" then {"name"} else {})
      + (if v.address.None? || v.address.value == "" then {"address"} else {})
      + (if v.starRating.None? || !(1 <= v.starRating.value <= 5) then {"starRating"} else {})
      + (if v.totalRooms.None? || v.totalRooms.value < 1 then {"totalRooms"} else {})
      + (if v.checkInTime.None? then {"checkInTime"} else {})
      + (if v.checkOutTime.None? then {"checkOutTime"} else {});
    if issues == {} then
      Ok(CreateFormData(v.name.value, v.address.value, v.description, v.starRating.value,
        v.totalRooms.value, v.checkInTime.value, v.checkOutTime.value, v.amenities))
    else Err(issues)
  }

  /** The defaults meet the numeric rules; only the name and address are left to fill in. */
  lemma DefaultsMeetNumericRules()
    ensures ParseCreateForm(Defaults).Err?
    ensures ParseCreateForm(Defaults).error == {"name", "address"}
  {
  }

  /** Filling in a name and an address is all the default form needs. */
  lemma DefaultsWithNameAccepted(name: string, address: string)
    requires name != "" && address != ""
    ensures ParseCreateForm(Defaults.(name := Some(name), address := Some(address))).Ok?
  {
  }

  /** The validated data as `JSON.stringify` writes it. */
  function DataRecord(d: CreateFormData): (r: Record)
    ensures r.Keys <= {"name", "address", "description", "starRating", "totalRooms", "checkInTime", "checkOutTime", "amenities"}
    ensures Get(r, "name") == Some(JStr(d.name)) && Get(r, "totalRooms") == Some(JNum(d.totalRooms))
    ensures Get(r, "address") == Some(JStr(d.address)) && Get(r, "starRating") == Some(JNum(d.starRating))
    ensures Get(r, "checkInTime") == Some(JStr(d.checkInTime)) && Get(r, "checkOutTime") == Some(JStr(d.checkOutTime))
    ensures Get(r, "description") == if d.description.Some? then Some(JStr(d.description.value)) else None
    ensures Get(r, "amenities") == if d.amenities.Some? then Some(JList(EditHotelModal.Strings(d.amenities.value))) else None
  {
    map["name" := JStr(d.name), "address" := JStr(d.address), "starRating" := JNum(d.starRating),
        "totalRooms" := JNum(d.totalRooms), "checkInTime" := JStr(d.checkInTime), "checkOutTime" := JStr(d.checkOutTime)]
      + (if d.description.Some? then map["description" := JStr(d.description.value)] else map[])
      + (if d.amenities.Some? then map["amenities" := JList(EditHotelModal.Strings(d.amenities.value))] else map[])
  }

  /**
   * `{ ...data, amenities, images, ownerId: user._id, status: "DRAFT" }`:
   * the owner and the DRAFT status override anything of the same name.
   */
  function CreateBody(d: CreateFormData, amenities: seq<string>, images: seq<string>, ownerId: string): (body: Record)
    ensures body.Keys == DataRecord(d).Keys + {"amenities", "images", "ownerId", "status"}
    ensures body["ownerId"] == JStr(ownerId) && body["status"] == JStr("DRAFT")
    ensures body["amenities"] == JList(EditHotelModal.Strings(amenities)) && body["images"] == JList(EditHotelModal.Strings(images))
    ensures forall k :: k in DataRecord(d) && k !in {"amenities", "images", "ownerId", "status"} ==> body[k] == DataRecord(d)[k]
  {
    DataRecord(d)["amenities" := JList(EditHotelModal.Strings(amenities))]["images" := JList(EditHotelModal.Strings(images))]
      ["ownerId" := JStr(ownerId)]["status" := JStr("DRAFT")]
  }

  /** `!user?._id`: no signed-in user, or one with an empty id. */
  predicate HasUserId(userId: Option<string>)
  {
    userId.Some? && userId.value != ""
  }

  /** The dialog's form values, its media editor and its submitting flag. */
  class CreateHotelDialog {
    var values: CreateFormValues
    var isSubmitting: bool
    const editor: HotelMediaEditor.MediaEditor

    constructor ()
      ensures values == Defaults && !isSubmitting && editor.amenities == [] && editor.images == []
      ensures fresh(editor)
    {
      values := Defaults;
      isSubmitting := false;
      editor := new HotelMediaEditor.MediaEditor([], []);
    }

    /**
     * `handleSubmit(onSubmit)` on the form values `v`. The schema runs first:
     * a form it refuses sends nothing and changes nothing. `onSubmit` then
     * receives the parsed values. Without a user id no request is sent.
     * Otherwise the body is posted; `created` is whether the response was ok.
     * A created hotel resets the form and the amenities (not the images). The
     * flag is false after `onSubmit` in every case.
     */
    method Submit(v: CreateFormValues, userId: Option<string>, created: bool) returns (request: Option<Record>)
      modifies this, editor
      ensures ParseCreateForm(v).Err? ==> request.None? && isSubmitting == old(isSubmitting)
      ensures ParseCreateForm(v).Ok? ==> !isSubmitting
      ensures !HasUserId(userId) ==> request.None?
      ensures ParseCreateForm(v).Ok? && HasUserId(userId) ==>
        request == Some(CreateBody(ParseCreateForm(v).value, old(editor.amenities), old(editor.images), userId.value))
      ensures if ParseCreateForm(v).Ok? && HasUserId(userId) && created then values == Defaults && editor.amenities == []
              else values == old(values) && editor.amenities == old(editor.amenities)
      ensures editor.images == old(editor.images)
      ensures editor.amenityInput == old(editor.amenityInput) && editor.imageUrlInput == old(editor.imageUrlInput)
    {
      match ParseCreateForm(v)
      case Err(_) =>
        request := None;
      case Ok(d) =>
        isSubmitting := true;
        if !HasUserId(userId) {
          isSubmitting := false;
          return None;
        }
        var body := CreateBody(d, editor.amenities, editor.images, userId.value);
        request := Some(body);
        if created {
          values := Defaults;
          editor.amenities := [];
        }
        isSubmitting := false;
    }
  }
}
