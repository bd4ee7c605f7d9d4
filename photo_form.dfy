/**
 * The admin photo form of src/photo/form/index.ts: the field metadata and
 * the validators built on it, and the three conversions around the form
 * (stored photo to form, EXIF to form, form to the insert/update record).
 *
 * Favourite status is not a field of its own in the database: it is the
 * reserved tag `TagFavs`. The form shows it as a virtual `favorite` checkbox
 * and hides the tag from the tags text; the record built from the form puts
 * the tag back at the end of the tag list.
 *
 * The helpers whose code is not part of this model (number parsing and
 * printing, tag-string splitting, date and EXIF conversions, the reserved-tag
 * test) are parameters.
 */
module PhotoForm {
  import opened Js
  import opened PhotoRecords

  /**
   * The value of a form field: `form[key]`, which is `undefined` when there is
   * no such key, or `formData.get(key)`, which is then `null`. Both are `None`.
   */
  function Lookup(form: FormData, key: string): Option<string> {
    if key in form then Some(form[key]) else None
  }

  /** `Boolean(form[key])`: the field is present and not empty. */
  predicate Filled(form: FormData, key: string) {
    key in form && form[key] != ""
  }

  // ---- metadata ----

  /** The fields of the photo form, in the order `FORM_METADATA` declares them. */
  datatype FieldKey =
    | Title | Tags | Id | BlurData | Url | Extension | AspectRatio | Make | Model | FilmSimulation
    | FocalLength | FocalLengthIn35MmFormat | FNumber | Iso | ExposureTime | ExposureCompensation
    | LocationName | Latitude | Longitude | TakenAt | TakenAtNaive | PriorityOrder | Favorite | Hidden

  /** The form field name of each field. */
  function KeyName(k: FieldKey): string {
    match k
    case Title => "title"
    case Tags => "tags"
    case Id => "id"
    case BlurData => "blurData"
    case Url => "url"
    case Extension => "extension"
    case AspectRatio => "aspectRatio"
    case Make => "make"
    case Model => "model"
    case FilmSimulation => "filmSimulation"
    case FocalLength => "focalLength"
    case FocalLengthIn35MmFormat => "focalLengthIn35MmFormat"
    case FNumber => "fNumber"
    case Iso => "iso"
    case ExposureTime => "exposureTime"
    case ExposureCompensation => "exposureCompensation"
    case LocationName => "locationName"
    case Latitude => "latitude"
    case Longitude => "longitude"
    case TakenAt => "takenAt"
    case TakenAtNaive => "takenAtNaive"
    case PriorityOrder => "priorityOrder"
    case Favorite => "favorite"
    case Hidden => "hidden"
  }

  /** The field label shown in the admin form. */
  function Label(k: FieldKey): string {
    match k
    case Title => "title"
    case Tags => "tags"
    case Id => "id"
    case BlurData => "blur data"
    case Url => "url"
    case Extension => "extension"
    case AspectRatio => "aspect ratio"
    case Make => "camera make"
    case Model => "camera model"
    case FilmSimulation => "fujifilm simulation"
    case FocalLength => "focal length"
    case FocalLengthIn35MmFormat => "focal length 35mm-equivalent"
    case FNumber => "aperture"
    case Iso => "ISO"
    case ExposureTime => "exposure time"
    case ExposureCompensation => "exposure compensation"
    case LocationName => "location name"
    case Latitude => "latitude"
    case Longitude => "longitude"
    case TakenAt => "taken at"
    case TakenAtNaive => "taken at (naive)"
    case PriorityOrder => "priority order"
    case Favorite => "favorite"
    case Hidden => "hidden"
  }

  const FieldOrder: seq<FieldKey> := [Title, Tags, Id, BlurData, Url, Extension, AspectRatio, Make, Model,
    FilmSimulation, FocalLength, FocalLengthIn35MmFormat, FNumber, Iso, ExposureTime, ExposureCompensation,
    LocationName, Latitude, Longitude, TakenAt, TakenAtNaive, PriorityOrder, Favorite, Hidden]

  /** The field validators: only `tags` has one. */
  datatype Validator = NoCheck | RejectFavs

  /**
   * The parts of a field's metadata that decide what the form keeps,
   * requires, validates and shows. Presentation-only entries (capitalisation,
   * select and tag options, loading messages, camera-based hiding) are not
   * modelled.
   */
  datatype FormMeta = FormMeta(
    required: bool,
    virtual: bool,
    readOnly: bool,
    hide: bool,
    hideIfEmpty: bool,
    checkbox: bool,
    validate: Validator)

  const Plain: FormMeta := FormMeta(false, false, false, false, false, false, NoCheck)

  /** `FORM_METADATA[key]`. `blurEnabled` is the site's `BLUR_ENABLED` setting. */
  function Meta(k: FieldKey, blurEnabled: bool): FormMeta {
    match k
    case Tags => Plain.(validate := RejectFavs)
    case Id => Plain.(readOnly := true, hideIfEmpty := true)
    case BlurData => Plain.(readOnly := true, required := blurEnabled, hideIfEmpty := !blurEnabled)
    case Url => Plain.(readOnly := true)
    case Extension => Plain.(readOnly := true)
    case AspectRatio => Plain.(readOnly := true)
    case LocationName => Plain.(hide := true)
    case Favorite => Plain.(checkbox := true, virtual := true)
    case Hidden => Plain.(checkbox := true)
    case _ => Plain
  }

  /** Every field has its place in the declaration order. */
  lemma InFieldOrder(k: FieldKey)
    ensures k in FieldOrder
  {
    var i := match k
      case Title => 0 case Tags => 1 case Id => 2 case BlurData => 3 case Url => 4 case Extension => 5
      case AspectRatio => 6 case Make => 7 case Model => 8 case FilmSimulation => 9 case FocalLength => 10
      case FocalLengthIn35MmFormat => 11 case FNumber => 12 case Iso => 13 case ExposureTime => 14
      case ExposureCompensation => 15 case LocationName => 16 case Latitude => 17 case Longitude => 18
      case TakenAt => 19 case TakenAtNaive => 20 case PriorityOrder => 21 case Favorite => 22 case Hidden => 23;
    assert FieldOrder[i] == k;
  }

  /** Only `tags` is validated and only `blurData` can be required. */
  lemma MetaFlags(k: FieldKey, blurEnabled: bool)
    ensures Meta(k, blurEnabled).validate == RejectFavs <==> k == Tags
    ensures Meta(k, blurEnabled).required <==> k == BlurData && blurEnabled
  {
  }

  /** The given fields without those marked `hide` (which does not depend on the blur setting), in order. */
  function ShownFields(keys: seq<FieldKey>): (shown: seq<FieldKey>)
    ensures forall k :: k in shown <==> k in keys && k != LocationName
  {
    if keys == [] then []
    else if Meta(keys[0], false).hide then ShownFields(keys[1..])
    else [keys[0]] + ShownFields(keys[1..])
  }

  /** `FORM_METADATA_ENTRIES`: the fields not marked `hide`, in order; every field but `locationName`. */
  function FormMetadataEntries(): (entries: seq<FieldKey>)
    ensures forall k :: k in entries <==> k != LocationName
  {
    forall k ensures k in FieldOrder {
      InFieldOrder(k);
    }
    ShownFields(FieldOrder)
  }

  /** Where a field stands in a list of fields that holds it. */
  lemma EntryIndex(entries: seq<FieldKey>, k: FieldKey) returns (i: nat)
    requires k in entries
    ensures i < |entries| && entries[i] == k
  {
    i :| i < |entries| && entries[i] == k;
  }

  const ReservedTagMessage: string := "'" + TagFavs + "' is a reserved tag"

  /** Runs a validator on a field value; `includesFavs` is the reserved-tag test on a tags string. */
  function Validate(v: Validator, value: Option<string>, includesFavs: Option<string> -> bool): Option<string> {
    match v
    case NoCheck => None
    case RejectFavs => if includesFavs(value) then Some(ReservedTagMessage) else None
  }

  // ---- validation ----

  /** The check `isFormValid` makes of one field. */
  predicate FieldValid(form: FormData, k: FieldKey, blurEnabled: bool, includesFavs: Option<string> -> bool) {
    (!Meta(k, blurEnabled).required || Filled(form, KeyName(k))) &&
    Validate(Meta(k, blurEnabled).validate, Lookup(form, KeyName(k)), includesFavs).None?
  }

  /** Only the blur data can be missing and only the tags can fail their validator. */
  lemma FieldValidMeaning(form: FormData, k: FieldKey, blurEnabled: bool, includesFavs: Option<string> -> bool)
    ensures FieldValid(form, k, blurEnabled, includesFavs) <==>
      (k == BlurData && blurEnabled ==> Filled(form, "blurData")) && (k == Tags ==> !includesFavs(Lookup(form, "tags")))
  {
    match k
    case Tags =>
    case BlurData =>
    case _ => MetaFlags(k, blurEnabled);
  }

  /** `isFormValid`: every shown field that is required is filled, and every validator passes. */
  predicate IsFormValid(form: FormData, blurEnabled: bool, includesFavs: Option<string> -> bool) {
    var entries := FormMetadataEntries();
    forall i :: 0 <= i < |entries| ==> FieldValid(form, entries[i], blurEnabled, includesFavs)
  }

  /**
   * What the metadata makes of validity: the form is valid exactly when the
   * blur data is filled (if blur is enabled) and the tags text does not
   * include the reserved tag.
   */
  lemma IsFormValidMeaning(form: FormData, blurEnabled: bool, includesFavs: Option<string> -> bool)
    ensures IsFormValid(form, blurEnabled, includesFavs) <==>
      (blurEnabled ==> Filled(form, "blurData")) && !includesFavs(Lookup(form, "tags"))
  {
    var entries := FormMetadataEntries();
    var t := EntryIndex(entries, Tags);
    var b := EntryIndex(entries, BlurData);
    FieldValidMeaning(form, Tags, blurEnabled, includesFavs);
    FieldValidMeaning(form, BlurData, blurEnabled, includesFavs);
    if (blurEnabled ==> Filled(form, "blurData")) && !includesFavs(Lookup(form, "tags")) {
      forall i | 0 <= i < |entries| ensures FieldValid(form, entries[i], blurEnabled, includesFavs) {
        FieldValidMeaning(form, entries[i], blurEnabled, includesFavs);
      }
    }
  }

  /** The hidden `locationName` field plays no part in validity. */
  lemma LocationNameNotValidated(form: FormData, value: string, blurEnabled: bool, includesFavs: Option<string> -> bool)
    ensures IsFormValid(form["locationName" := value], blurEnabled, includesFavs) == IsFormValid(form, blurEnabled, includesFavs)
    ensures IsFormValid(form - {"locationName"}, blurEnabled, includesFavs) == IsFormValid(form, blurEnabled, includesFavs)
  {
    IsFormValidMeaning(form, blurEnabled, includesFavs);
    IsFormValidMeaning(form["locationName" := value], blurEnabled, includesFavs);
    IsFormValidMeaning(form - {"locationName"}, blurEnabled, includesFavs);
    assert Lookup(form["locationName" := value], "tags") == Lookup(form, "tags");
    assert Lookup(form - {"locationName"}, "tags") == Lookup(form, "tags");
  }

  /** The first entry with this field name (`entries.find(([k]) => k === key)`). */
  function FindField(entries: seq<FieldKey>, key: string): (found: Option<FieldKey>)
    ensures found.Some? ==> found.value in entries && KeyName(found.value) == key
    ensures found.None? ==> forall i :: 0 <= i < |entries| ==> KeyName(entries[i]) != key
  {
    if entries == [] then None
    else if KeyName(entries[0]) == key then Some(entries[0])
    else FindField(entries[1..], key)
  }

  /** `getFormErrors`: for every field of the form, the message of its validator, if it has one and it fails. */
  function GetFormErrors(form: FormData, blurEnabled: bool, includesFavs: Option<string> -> bool)
    : map<string, Option<string>>
  {
    map key | key in form :: FieldError(key, form[key], blurEnabled, includesFavs)
  }

  /** The message of the validator of the field named `key`, if that field has one and it fails on `value`. */
  function FieldError(key: string, value: string, blurEnabled: bool, includesFavs: Option<string> -> bool): Option<string> {
    match FindField(FormMetadataEntries(), key)
    case None => None
    case Some(k) => Validate(Meta(k, blurEnabled).validate, Some(value), includesFavs)
  }

  /** Only the `tags` field is named "tags". */
  lemma TagsNamedOnce(k: FieldKey)
    ensures KeyName(k) == "tags" <==> k == Tags
  {
  }

  /**
   * The error map has a slot for every submitted field, and the only error
   * it can report is the reserved-tag message on `tags`.
   */
  lemma FormErrorsMeaning(form: FormData, blurEnabled: bool, includesFavs: Option<string> -> bool)
    ensures var errors := GetFormErrors(form, blurEnabled, includesFavs);
      && errors.Keys == form.Keys
      && forall key :: key in form ==>
           errors[key] == (if key == "tags" && includesFavs(Some(form[key])) then Some(ReservedTagMessage) else None)
  {
    forall key | key in form {
      FieldErrorMeaning(key, form[key], blurEnabled, includesFavs);
    }
  }

  /** Only the `tags` field can report an error, and only the reserved-tag one. */
  lemma FieldErrorMeaning(key: string, value: string, blurEnabled: bool, includesFavs: Option<string> -> bool)
    ensures FieldError(key, value, blurEnabled, includesFavs) ==
      (if key == "tags" && includesFavs(Some(value)) then Some(ReservedTagMessage) else None)
  {
    var entries := FormMetadataEntries();
    var found := FindField(entries, key);
    if found.Some? {
      TagsNamedOnce(found.value);
      MetaFlags(found.value, blurEnabled);
    } else {
      var t := EntryIndex(entries, Tags);
      assert KeyName(entries[t]) != key;
    }
  }

  // ---- stored photo to form ----

  /** Printing of values the conversions need but whose code is not part of this model. */
  datatype TextConversions = TextConversions(
    numberText: real -> string,   // Number.prototype.toString
    dateText: Instant -> string,  // Date.prototype.toString
    isoText: Instant -> string)   // Date.prototype.toISOString

  /** `value.toString()` for a value that is neither `null` nor `undefined`. */
  function ToText(v: JsValue, conv: TextConversions): Option<string> {
    match v
    case Undefined => None
    case Null => None
    case Str(s) => Some(s)
    case Num(n) => Some(conv.numberText(n))
    case Bool(b) => Some(if b then "true" else "false")
    case Date(t) => Some(conv.dateText(t))
    case StrList(items) => Some(Join(items, ","))
  }

  /** The form text of one photo property; `None` leaves the field undefined. */
  function ValueForKey(key: string, value: JsValue, conv: TextConversions): Option<string> {
    if key == "tags" then
      Some(Join(Without(if value.StrList? then value.items else [], TagFavs), ", "))
    else if key == "takenAt" then
      (if value.Date? then Some(conv.isoText(value.t)) else ToText(value, conv))
    else if key == "hidden" then
      Some(if Truthy(value) then "true" else "false")
    else
      ToText(value, conv)
  }

  /**
   * `convertPhotoToFormData`: every property of the photo as text, the
   * favourite tag moved out of the tags text into the virtual `favorite`
   * flag.
   */
  function PhotoToFormData(photo: Photo, conv: TextConversions): (form: FormData)
    ensures "favorite" in form && (form["favorite"] == "true" <==> TagFavs in PhotoTags(photo))
    ensures "tags" in form && form["tags"] == Join(Without(PhotoTags(photo), TagFavs), ", ")
  {
    var fields := map key | key in photo && ValueForKey(key, photo[key], conv).Some? ::
      ValueForKey(key, photo[key], conv).value;
    fields["favorite" := if TagFavs in PhotoTags(photo) then "true" else "false"]
  }

  /**
   * The other fields: `hidden` becomes "true" or "false", and a property
   * that is `null` or `undefined` leaves its field undefined.
   */
  lemma PhotoFormFields(photo: Photo, conv: TextConversions)
    ensures var form := PhotoToFormData(photo, conv);
      && ("hidden" in photo ==> "hidden" in form && form["hidden"] == if Truthy(photo["hidden"]) then "true" else "false")
      && (forall key :: key != "favorite" ==>
            (key in form <==> key in photo && (key == "tags" || key == "hidden" || !(photo[key].Undefined? || photo[key].Null?))))
  {
  }

  // ---- EXIF to form ----

  /** The EXIF tags the mapping reads. Numbers are opaque; `dateTimeOriginal` is in seconds. */
  datatype ExifTags = ExifTags(
    make: Option<string>,
    model: Option<string>,
    focalLength: Option<real>,
    focalLengthIn35mmFormat: Option<real>,
    fNumber: Option<real>,
    iso: Option<real>,
    exposureTime: Option<real>,
    exposureCompensation: Option<real>,
    gpsLatitude: Option<real>,
    gpsLongitude: Option<real>,
    dateTimeOriginal: Option<real>)

  /** Parsed EXIF data: the tags, when the file has any, and the image size. */
  datatype ExifData = ExifData(tags: Option<ExifTags>, imageSize: Option<(real, real)>)

  /** The EXIF helpers whose code is not part of this model. */
  datatype ExifConversions = ExifConversions(
    numberText: real -> string,                    // Number.prototype.toString
    aspectRatioText: ExifData -> string,           // getAspectRatioFromExif(data).toString()
    takenAtText: (real, ExifData) -> string,       // the timestamp with the offset read from the data
    takenAtNaiveText: real -> string)              // the timestamp without an offset

  /** The EXIF fields of the form; every field is present, `None` being `undefined`. */
  datatype ExifForm = ExifForm(
    aspectRatio: Option<string>,
    make: Option<string>,
    model: Option<string>,
    focalLength: Option<string>,
    focalLengthIn35MmFormat: Option<string>,
    fNumber: Option<string>,
    iso: Option<string>,
    exposureTime: Option<string>,
    exposureCompensation: Option<string>,
    latitude: Option<string>,
    longitude: Option<string>,
    filmSimulation: Option<string>,
    takenAt: Option<string>,
    takenAtNaive: Option<string>)

  function TagText(tags: Option<ExifTags>, get: ExifTags -> Option<real>, numberText: real -> string): Option<string> {
    if tags.Some? && get(tags.value).Some? then Some(numberText(get(tags.value).value)) else None
  }

  /** `DateTimeOriginal` when it is present and truthy: a zero timestamp counts as absent. */
  function TakenAtSeconds(data: ExifData): Option<real> {
    if data.tags.Some? && data.tags.value.dateTimeOriginal.Some? && data.tags.value.dateTimeOriginal.value != 0.0
    then data.tags.value.dateTimeOriginal
    else None
  }

  /**
   * `convertExifToFormData`: the EXIF fields as form text. Location is left
   * undefined under geo privacy; both capture times are defined exactly when
   * the original capture time is.
   */
  function ExifToFormData(data: ExifData, filmSimulation: Option<string>, geoPrivacyEnabled: bool, conv: ExifConversions)
    : (exif: ExifForm)
    ensures exif.aspectRatio.Some?
    ensures geoPrivacyEnabled ==> exif.latitude.None? && exif.longitude.None?
    ensures !geoPrivacyEnabled && data.tags.Some? && data.tags.value.gpsLatitude.Some? ==>
      exif.latitude == Some(conv.numberText(data.tags.value.gpsLatitude.value))
    ensures !geoPrivacyEnabled && data.tags.Some? && data.tags.value.gpsLongitude.Some? ==>
      exif.longitude == Some(conv.numberText(data.tags.value.gpsLongitude.value))
    ensures exif.takenAt.Some? <==> exif.takenAtNaive.Some?
    ensures exif.takenAt.Some? <==>
      data.tags.Some? && data.tags.value.dateTimeOriginal.Some? && data.tags.value.dateTimeOriginal.value != 0.0
    ensures exif.filmSimulation == filmSimulation
    ensures exif.make == (if data.tags.Some? then data.tags.value.make else None)
    ensures exif.model == (if data.tags.Some? then data.tags.value.model else None)
  {
    var t := data.tags;
    var n := conv.numberText;
    var taken := TakenAtSeconds(data);
    ExifForm(
      aspectRatio := Some(conv.aspectRatioText(data)),
      make := if t.Some? then t.value.make else None,
      model := if t.Some? then t.value.model else None,
      focalLength := TagText(t, (x: ExifTags) => x.focalLength, n),
      focalLengthIn35MmFormat := TagText(t, (x: ExifTags) => x.focalLengthIn35mmFormat, n),
      fNumber := TagText(t, (x: ExifTags) => x.fNumber, n),
      iso := TagText(t, (x: ExifTags) => x.iso, n),
      exposureTime := TagText(t, (x: ExifTags) => x.exposureTime, n),
      exposureCompensation := TagText(t, (x: ExifTags) => x.exposureCompensation, n),
      latitude := if !geoPrivacyEnabled then TagText(t, (x: ExifTags) => x.gpsLatitude, n) else None,
      longitude := if !geoPrivacyEnabled then TagText(t, (x: ExifTags) => x.gpsLongitude, n) else None,
      filmSimulation := filmSimulation,
      takenAt := if taken.Some? then Some(conv.takenAtText(taken.value, data)) else None,
      takenAtNaive := if taken.Some? then Some(conv.takenAtNaiveText(taken.value)) else None)
  }

  /** A form fragment in which a field may be present with the value `undefined` (`None`). */
  type FormPatch = map<string, Option<string>>

  /** The EXIF form as an object, with its keys. */
  function ExifPatch(exif: ExifForm): FormPatch {
    map[
      "aspectRatio" := exif.aspectRatio, "make" := exif.make, "model" := exif.model,
      "focalLength" := exif.focalLength, "focalLengthIn35MmFormat" := exif.focalLengthIn35MmFormat,
      "fNumber" := exif.fNumber, "iso" := exif.iso, "exposureTime" := exif.exposureTime,
      "exposureCompensation" := exif.exposureCompensation, "latitude" := exif.latitude,
      "longitude" := exif.longitude, "filmSimulation" := exif.filmSimulation, "takenAt" := exif.takenAt,
      "takenAtNaive" := exif.takenAtNaive]
  }

  /**
   * `{...form, ...patch}`: every field the patch has replaces the form's,
   * including with `undefined`, which removes it.
   */
  function Spread(form: FormData, patch: FormPatch): (merged: FormData)
    ensures forall key :: key in merged <==> if key in patch then patch[key].Some? else key in form
    ensures forall key :: key in merged ==> merged[key] == if key in patch then patch[key].value else form[key]
  {
    map key | key in patch.Keys + form.Keys && (if key in patch then patch[key].Some? else key in form) ::
      if key in patch then patch[key].value else form[key]
  }

  // ---- form to insert/update record ----

  /** The parsers the conversion needs but whose code is not part of this model. */
  datatype FormParsers = FormParsers(
    stringToArray: Option<string> -> Option<seq<string>>,  // convertStringToArray
    parseInt: string -> real,
    parseFloat: string -> real,
    fixedAspectRatio: Option<string> -> real)              // toFixedNumber(parseFloat(s), 6)

  const ActionIdPrefix: string := "$ACTION_ID_"

  const IntegerKeys: set<string> := {"focalLength", "focalLengthIn35MmFormat", "iso"}
  const FloatKeys: set<string> :=
    {"fNumber", "latitude", "longitude", "exposureTime", "exposureCompensation", "priorityOrder"}
  const NumericKeys: set<string> := IntegerKeys + FloatKeys

  /** The fields the record sets from typed values rather than copying the form's text. */
  const TypedKeys: set<string> := NumericKeys + {"id", "tags", "aspectRatio", "hidden"}

  /** `FORM_METADATA()[key]?.virtual`. */
  predicate VirtualField(key: string) {
    exists i :: 0 <= i < |FieldOrder| && KeyName(FieldOrder[i]) == key && Meta(FieldOrder[i], true).virtual
  }

  /** The only virtual field is `favorite`. */
  lemma VirtualFieldIsFavorite(key: string)
    ensures VirtualField(key) <==> key == "favorite"
  {
    if key == "favorite" {
      assert KeyName(FieldOrder[22]) == key;
    }
  }

  /** A form field survives the clean-up: not a server-action id, not empty, not virtual. */
  predicate KeepField(key: string, value: string) {
    !StartsWith(key, ActionIdPrefix) && value != "" && !VirtualField(key)
  }

  /** The form with the fields the clean-up deletes removed. */
  function KeptFields(form: FormData): (kept: FormData)
    ensures forall key :: key in kept <==> key in form && KeepField(key, form[key])
    ensures forall key :: key in kept ==> kept[key] == form[key]
  {
    map key | key in form && KeepField(key, form[key]) :: form[key]
  }

  /** The tags of the record: the parsed tags text, with the favourite tag appended when the flag is set. */
  function InsertTags(form: FormData, parsers: FormParsers): seq<string> {
    var parsed := parsers.stringToArray(Lookup(form, "tags")).GetOr([]);
    if Lookup(form, "favorite") == Some("true") then parsed + [TagFavs] else parsed
  }

  /** The record built from the cleaned-up form. */
  function RecordOf(kept: FormData, tags: seq<string>, generateId: bool, parsers: FormParsers, generatedId: string)
    : PhotoDbInsert
  {
    PhotoDbInsert(
      fields := map key | key in kept && key !in TypedKeys :: kept[key],
      id := if generateId && !Filled(kept, "id") then Some(generatedId) else Lookup(kept, "id"),
      tags := if |tags| > 0 then Some(tags) else None,
      aspectRatio := parsers.fixedAspectRatio(Lookup(kept, "aspectRatio")),
      numbers := map key | key in kept && key in NumericKeys ::
        if key in IntegerKeys then parsers.parseInt(kept[key]) else parsers.parseFloat(kept[key]),
      hidden := Lookup(kept, "hidden") == Some("true"))
  }

  /**
   * `convertFormDataToPhotoDbInsert`. `generatedId` is what the id generator
   * would return; it is used only when an id is asked for and the form has
   * none.
   */
  function FormToPhotoDbInsert(form: FormData, generateId: bool, parsers: FormParsers, generatedId: string)
    : PhotoDbInsert
  {
    RecordOf(KeptFields(form), InsertTags(form, parsers), generateId, parsers, generatedId)
  }

  /** The favourite flag becomes one reserved tag at the end of the list; no tags at all become `undefined`. */
  lemma FormTags(form: FormData, generateId: bool, parsers: FormParsers, generatedId: string)
    ensures var p := FormToPhotoDbInsert(form, generateId, parsers, generatedId);
      var parsed := parsers.stringToArray(Lookup(form, "tags")).GetOr([]);
      && (Lookup(form, "favorite") == Some("true") ==> p.tags == Some(parsed + [TagFavs]))
      && (Lookup(form, "favorite") != Some("true") ==> p.tags == if parsed == [] then None else Some(parsed))
  {
  }

  /** Server-action ids, empty values and the virtual field are dropped; the other text fields are kept as they are. */
  lemma FormFieldsCleaned(form: FormData, generateId: bool, parsers: FormParsers, generatedId: string)
    ensures var p := FormToPhotoDbInsert(form, generateId, parsers, generatedId);
      forall key :: key in p.fields <==>
        key in form && key !in TypedKeys && key != "favorite" && !StartsWith(key, ActionIdPrefix) && form[key] != ""
    ensures var p := FormToPhotoDbInsert(form, generateId, parsers, generatedId);
      forall key :: key in p.fields ==> p.fields[key] == form[key]
  {
    forall key ensures VirtualField(key) <==> key == "favorite" {
      VirtualFieldIsFavorite(key);
    }
  }

  /** An id is generated only when asked for and the form has none; otherwise the form's id is kept. */
  lemma FormId(form: FormData, generateId: bool, parsers: FormParsers, generatedId: string)
    ensures FormToPhotoDbInsert(form, generateId, parsers, generatedId).id ==
      if Filled(form, "id") then Some(form["id"]) else if generateId then Some(generatedId) else None
  {
    VirtualFieldIsFavorite("id");
    assert !StartsWith("id", ActionIdPrefix);
  }

  /** The typed fields are neither server-action ids nor virtual. */
  lemma TypedKeysKept(key: string)
    requires key in TypedKeys
    ensures !StartsWith(key, ActionIdPrefix) && !VirtualField(key)
  {
    VirtualFieldIsFavorite(key);
    assert key[0] != '$' by {
      if key in IntegerKeys {
        assert key == "focalLength" || key == "focalLengthIn35MmFormat" || key == "iso";
      } else if key in FloatKeys {
        assert key == "fNumber" || key == "latitude" || key == "longitude" || key == "exposureTime"
          || key == "exposureCompensation" || key == "priorityOrder";
      } else {
        assert key == "id" || key == "tags" || key == "aspectRatio" || key == "hidden";
      }
    }
  }

  /**
   * Numbers are set for exactly the numeric fields that are filled, empty
   * ones staying undefined rather than zero; `hidden` holds exactly when
   * the field is "true".
   */
  lemma FormNumbers(form: FormData, generateId: bool, parsers: FormParsers, generatedId: string)
    ensures var p := FormToPhotoDbInsert(form, generateId, parsers, generatedId);
      && (forall key :: key in p.numbers <==> key in NumericKeys && Filled(form, key))
      && (forall key :: key in p.numbers ==>
            p.numbers[key] == if key in IntegerKeys then parsers.parseInt(form[key]) else parsers.parseFloat(form[key]))
      && (p.hidden <==> Lookup(form, "hidden") == Some("true"))
  {
    forall key | key in TypedKeys ensures !StartsWith(key, ActionIdPrefix) && !VirtualField(key) {
      TypedKeysKept(key);
    }
  }

  /**
   * The conversion as the source performs it: the tag list is built by a
   * push, and the unwanted fields are deleted from the form one key at a
   * time.
   */
  method ConvertFormDataToPhotoDbInsert(form: FormData, generateId: bool, parsers: FormParsers, generatedId: string)
    returns (p: PhotoDbInsert)
    ensures p == FormToPhotoDbInsert(form, generateId, parsers, generatedId)
  {
    var tags := parsers.stringToArray(Lookup(form, "tags")).GetOr([]);
    if Lookup(form, "favorite") == Some("true") {
      tags := tags + [TagFavs];
    }
    var photoForm := form;
    var keys := form.Keys;
    while keys != {}
      invariant keys <= form.Keys
      invariant forall key :: key in photoForm <==> key in form && (key in keys || KeepField(key, form[key]))
      invariant forall key :: key in photoForm ==> photoForm[key] == form[key]
      decreases keys
    {
      var key :| key in keys;
      if StartsWith(key, ActionIdPrefix) || photoForm[key] == "" || VirtualField(key) {
        photoForm := photoForm - {key};
      }
      keys := keys - {key};
    }
    assert photoForm == KeptFields(form);
    p := RecordOf(photoForm, tags, generateId, parsers, generatedId);
  }

  /**
   * Photo to form and back: the favourite tag leaves the tags text, travels
   * as the `favorite` flag, and comes back once at the end of the tag list;
   * the hidden flag and a non-empty id survive. `stringToArray` is assumed
   * to read back the tags text the form shows.
   */
  lemma PhotoFormRoundTrip(photo: Photo, conv: TextConversions, parsers: FormParsers, generatedId: string)
    requires var shown := Without(PhotoTags(photo), TagFavs);
      parsers.stringToArray(Some(Join(shown, ", "))).GetOr([]) == shown
    ensures var p := FormToPhotoDbInsert(PhotoToFormData(photo, conv), false, parsers, generatedId);
      && p.tags.GetOr([]) == Without(PhotoTags(photo), TagFavs) + (if TagFavs in PhotoTags(photo) then [TagFavs] else [])
      && (TagFavs in p.tags.GetOr([]) <==> TagFavs in PhotoTags(photo))
      && (p.hidden <==> "hidden" in photo && Truthy(photo["hidden"]))
      && ("id" in photo && photo["id"].Str? && photo["id"].s != "" ==> p.id == Some(photo["id"].s))
  {
    var form := PhotoToFormData(photo, conv);
    var shown := Without(PhotoTags(photo), TagFavs);
    FormTags(form, false, parsers, generatedId);
    FormNumbers(form, false, parsers, generatedId);
    FormId(form, false, parsers, generatedId);
    PhotoFormFields(photo, conv);
    assert Lookup(form, "tags") == Some(Join(shown, ", "));
    if TagFavs !in PhotoTags(photo) {
      assert Lookup(form, "favorite") == Some("false");
    }
  }
}
