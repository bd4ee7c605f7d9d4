/**
 * The record shapes the catalog moves between: a stored `photos` row, the
 * insert/update record built from the admin form, the form itself, and the
 * parsed photo object the form is filled from. The column list follows the
 * table definition in src/services/vercel-postgres.ts:22-51; src/photo/index.ts,
 * which declares the TypeScript types, is not part of this model.
 */
module PhotoRecords {
  import opened Js

  /**
   * The reserved tag that encodes favourite status. src/tag/index.ts, which
   * defines its text, is not part of this model; "favs" stands for it.
   */
  const TagFavs: string := "favs"

  /** Numeric EXIF and location columns: carried along, never computed with. */
  datatype ExifColumns = ExifColumns(
    focalLength: Option<real>,
    focalLengthIn35MmFormat: Option<real>,
    fNumber: Option<real>,
    iso: Option<real>,
    exposureTime: Option<real>,
    exposureCompensation: Option<real>,
    latitude: Option<real>,
    longitude: Option<real>)

  /**
   * The editable columns of one `photos` row. A SQL NULL is `None`; a NULL
   * tag array is the empty sequence.
   */
  datatype Columns = Columns(
    url: string,
    extension: string,
    aspectRatio: real,
    blurData: Option<string>,
    title: Option<string>,
    tags: seq<string>,
    make: Option<string>,
    model: Option<string>,
    exif: ExifColumns,
    locationName: Option<string>,
    filmSimulation: Option<string>,
    priorityOrder: Option<real>,
    hidden: Option<bool>,
    takenAt: Instant,
    takenAtNaive: string)

  /** A stored row: its key, its editable columns and the two server-assigned timestamps. */
  datatype Row = Row(id: string, cols: Columns, createdAt: Instant, updatedAt: Instant)

  /** Form data: field name to text. A field that is absent or `undefined` has no key. */
  type FormData = map<string, string>

  /**
   * The object `convertFormDataToPhotoDbInsert` returns: the surviving form
   * fields (spread as text) overridden by the typed fields below. `numbers`
   * holds the numeric fields that were given; `id` is the final id.
   */
  datatype PhotoDbInsert = PhotoDbInsert(
    fields: FormData,
    id: Option<string>,
    tags: Option<seq<string>>,
    aspectRatio: real,
    numbers: map<string, real>,
    hidden: bool)

  /**
   * A parsed photo as a JavaScript object: its own keys and values, in the
   * shape `Object.entries` sees. Its `tags` is always an array and it has no
   * `favorite` key.
   */
  type Photo = p: map<string, JsValue> | "tags" in p && p["tags"].StrList? && "favorite" !in p
    witness map["tags" := StrList([])]

  function PhotoTags(photo: Photo): seq<string> {
    photo["tags"].items
  }
}
