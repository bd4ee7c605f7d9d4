/**
 * The admin server actions of src/photo/actions.ts. Each action is a method
 * of `PhotoAdmin`, which holds the `photos` table and the trace of effects
 * the actions have had outside the table: storage calls, cache invalidation
 * and redirects. Table writes are recorded in the trace too, so the order of
 * a write relative to the other effects can be stated.
 *
 * A write that fails throws and ends the action, so nothing after it
 * happens; an action returns whether it ran to the end. The values that the
 * storage service, the id generator, the clock and the EXIF reader would
 * produce are parameters.
 */
module PhotoActions {
  import opened Js
  import opened PhotoRecords
  import opened CatalogTable
  import opened CatalogQuery
  import opened PhotoForm

  // ---- the favourite toggle ----

  /**
   * The new tags of `toggleFavoritePhotoAction`: with the reserved tag
   * present, every tag `isTagFavs` recognises is removed; without it, the
   * reserved tag is appended once. `isTagFavs` must recognise the reserved
   * tag itself.
   */
  function ToggleFavoriteTags(tags: seq<string>, isTagFavs: string -> bool): (toggled: seq<string>)
    requires isTagFavs(TagFavs)
    ensures TagFavs in tags ==> TagFavs !in toggled
    ensures TagFavs in tags ==> forall t :: t in toggled <==> t in tags && !isTagFavs(t)
    ensures TagFavs !in tags ==> toggled == tags + [TagFavs]
  {
    if TagFavs in tags then Filter(tags, t => !isTagFavs(t)) else tags + [TagFavs]
  }

  /**
   * Toggling twice from a list without the reserved tag gives back the list
   * without the tags `isTagFavs` recognises: the original list when it has
   * none.
   */
  lemma {:induction false} ToggleTwice(tags: seq<string>, isTagFavs: string -> bool)
    requires isTagFavs(TagFavs)
    requires TagFavs !in tags
    ensures ToggleFavoriteTags(ToggleFavoriteTags(tags, isTagFavs), isTagFavs) == Filter(tags, t => !isTagFavs(t))
    ensures (forall i :: 0 <= i < |tags| ==> !isTagFavs(tags[i])) ==>
      ToggleFavoriteTags(ToggleFavoriteTags(tags, isTagFavs), isTagFavs) == tags
  {
    var keep := (t: string) => !isTagFavs(t);
    FilterAppend(tags, [TagFavs], keep);
    assert Filter([TagFavs], keep) == [] by {
      assert [TagFavs][1..] == [];
    }
    assert Filter(tags, keep) + [] == Filter(tags, keep);
    if forall i :: 0 <= i < |tags| ==> !isTagFavs(tags[i]) {
      FilterAll(tags, keep);
    }
  }

  // ---- the rest of the actions ----

  /** src/site/paths.ts is not part of this model; the three targets stand for its constants. */
  datatype Path = AdminPhotos | AdminTags | Root

  /** A statement issued against the `photos` table. */
  datatype Write =
    | InsertPhoto(id: Option<string>)
    | UpdatePhoto(id: Option<string>)
    | DeletePhoto(photoId: Option<string>)
    | DeleteTagGlobally(tag: Option<string>)
    | RenameTagGlobally(from: string, to: string)

  /** An effect of an action, in the order the action performs it. */
  datatype Effect =
    | Statement(w: Write)
    | ConvertUpload(record: PhotoDbInsert) // the upload at the record's url moved to storage under the record's id
    | DeleteStorageUrl(storageUrl: Option<string>)
    | RevalidateAllKeysAndPaths
    | RevalidatePhotosKey
    | RevalidateAdminPaths
    | Redirect(target: Path)

  /**
   * `getExifDataAction`: the EXIF fields of the uploaded file named by the
   * form's url, or nothing when there is no url or no EXIF data. `extract`
   * stands for reading the file's EXIF data.
   */
  function GetExifData(previous: FormData, extract: string -> Option<ExifForm>): (fields: FormPatch)
    ensures !Filled(previous, "url") ==> fields == map[]
    ensures Filled(previous, "url") && extract(previous["url"]).Some? ==> fields == ExifPatch(extract(previous["url"]).value)
    ensures Filled(previous, "url") && extract(previous["url"]).None? ==> fields == map[]
  {
    if Filled(previous, "url") && extract(previous["url"]).Some? then ExifPatch(extract(previous["url"]).value)
    else map[]
  }

  /**
   * The record `createPhotoAction` inserts: once the upload has been moved
   * into place, its new url, when there is one, replaces the form's.
   */
  function WithUploadedUrl(built: PhotoDbInsert, uploadedUrl: Option<string>): (photo: PhotoDbInsert)
  {
    if uploadedUrl.Some? && uploadedUrl.value != "" then built.(fields := built.fields["url" := uploadedUrl.value]) else built
  }

  /**
   * A created photo always has an id: the form's when it names one, the
   * generated one otherwise. Its insert therefore fails only when that id is
   * taken or a NOT NULL column is left NULL. The uploaded file's new url, when
   * there is one, is the only field that differs from the form's record.
   */
  lemma CreatedPhoto(form: FormData, parsers: FormParsers, generatedId: string, uploadedUrl: Option<string>)
    ensures var built := FormToPhotoDbInsert(form, true, parsers, generatedId);
      var photo := WithUploadedUrl(built, uploadedUrl);
      && photo.id == Some(if Filled(form, "id") then form["id"] else generatedId)
      && photo.tags == built.tags && photo.numbers == built.numbers && photo.hidden == built.hidden
      && (forall key :: key in photo.fields && key != "url" ==> key in built.fields && photo.fields[key] == built.fields[key])
      && (forall key :: key in built.fields ==> key in photo.fields)
      && (uploadedUrl.Some? && uploadedUrl.value != "" ==> Lookup(photo.fields, "url") == uploadedUrl)
      && (!(uploadedUrl.Some? && uploadedUrl.value != "") ==> photo == built)
  {
    FormId(form, true, parsers, generatedId);
  }

  /** The helpers the actions hand to the conversions and the table. */
  datatype Services = Services(
    parsers: FormParsers,
    conv: TextConversions,
    parseTimestamp: string -> Instant,
    translatePhotoId: string -> string,
    parsePhotoFromDb: Row -> Photo,
    photoToDbInsert: Photo -> PhotoDbInsert,
    isTagFavs: string -> bool)

  class PhotoAdmin {
    const table: PhotosTable
    var effects: seq<Effect>

    ghost predicate Valid()
      reads this, table
    {
      table.Valid()
    }

    constructor (table: PhotosTable)
      requires table.Valid()
      ensures this.table == table && effects == [] && Valid()
    {
      this.table := table;
      effects := [];
    }

    /**
     * Issues `sqlInsertPhoto`; when it succeeds the `onSuccess` effects
     * follow, when it throws the action ends there.
     */
    method RunInsert(photo: PhotoDbInsert, parseTimestamp: string -> Instant, now: Instant, onSuccess: seq<Effect>)
      returns (completed: bool)
      requires Valid()
      modifies this, table
      ensures Valid()
      ensures completed <==> InsertStatement(old(table.rows), photo, parseTimestamp, now).Some?
      ensures table.rows == InsertStatement(old(table.rows), photo, parseTimestamp, now).GetOr(old(table.rows))
      ensures effects == old(effects) + [Statement(InsertPhoto(photo.id))] + (if completed then onSuccess else [])
    {
      effects := effects + [Statement(InsertPhoto(photo.id))];
      completed := table.Insert(photo, parseTimestamp, now);
      if completed {
        effects := effects + onSuccess;
      }
    }

    /**
     * Issues `sqlUpdatePhoto`; when it succeeds the `onSuccess` effects
     * follow, when it throws the action ends there.
     */
    method RunUpdate(photo: PhotoDbInsert, parseTimestamp: string -> Instant, now: Instant, onSuccess: seq<Effect>)
      returns (completed: bool)
      requires Valid()
      modifies this, table
      ensures Valid()
      ensures completed <==> UpdateStatement(old(table.rows), photo, parseTimestamp, now).Some?
      ensures table.rows == UpdateStatement(old(table.rows), photo, parseTimestamp, now).GetOr(old(table.rows))
      ensures effects == old(effects) + [Statement(Write.UpdatePhoto(photo.id))] + (if completed then onSuccess else [])
    {
      effects := effects + [Statement(Write.UpdatePhoto(photo.id))];
      completed := table.Update(photo, parseTimestamp, now);
      if completed {
        effects := effects + onSuccess;
      }
    }

    /**
     * `createPhotoAction`: the record is built asking for an id; the upload
     * is moved into place and its new url, when there is one, replaces the
     * record's; then insert, invalidate everything, redirect to the admin
     * photo list.
     */
    method CreatePhoto(form: FormData, services: Services, generatedId: string, uploadedUrl: Option<string>, now: Instant)
      returns (completed: bool)
      requires Valid()
      modifies this, table
      ensures Valid()
      ensures var built := FormToPhotoDbInsert(form, true, services.parsers, generatedId);
        var photo := WithUploadedUrl(built, uploadedUrl);
        && (completed <==> InsertStatement(old(table.rows), photo, services.parseTimestamp, now).Some?)
        && table.rows == InsertStatement(old(table.rows), photo, services.parseTimestamp, now).GetOr(old(table.rows))
        && effects == old(effects) + [ConvertUpload(built)] + [Statement(InsertPhoto(photo.id))]
                      + (if completed then [RevalidateAllKeysAndPaths, Redirect(AdminPhotos)] else [])
    {
      var built := ConvertFormDataToPhotoDbInsert(form, true, services.parsers, generatedId);
      effects := effects + [ConvertUpload(built)];
      var photo := WithUploadedUrl(built, uploadedUrl);
      completed := RunInsert(photo, services.parseTimestamp, now, [RevalidateAllKeysAndPaths, Redirect(AdminPhotos)]);
    }

    /** `updatePhotoAction`: update by the form's id, invalidate everything, redirect to the admin photo list. */
    method UpdatePhoto(form: FormData, services: Services, now: Instant) returns (completed: bool)
      requires Valid()
      modifies this, table
      ensures Valid()
      ensures var photo := FormToPhotoDbInsert(form, false, services.parsers, "");
        && (completed <==> UpdateStatement(old(table.rows), photo, services.parseTimestamp, now).Some?)
        && table.rows == UpdateStatement(old(table.rows), photo, services.parseTimestamp, now).GetOr(old(table.rows))
        && effects == old(effects) + [Statement(Write.UpdatePhoto(photo.id))]
                      + (if completed then [RevalidateAllKeysAndPaths, Redirect(AdminPhotos)] else [])
    {
      var photo := ConvertFormDataToPhotoDbInsert(form, false, services.parsers, "");
      completed := RunUpdate(photo, services.parseTimestamp, now, [RevalidateAllKeysAndPaths, Redirect(AdminPhotos)]);
    }

    /**
     * `toggleFavoritePhotoAction`: a photo that is found gets its tags
     * toggled and is written back, then everything is invalidated and, when
     * asked, the browser is sent home. A photo that is not found changes
     * nothing and has no effect.
     */
    method ToggleFavoritePhoto(photoId: string, shouldRedirect: bool, services: Services, now: Instant)
      returns (completed: bool)
      requires Valid()
      requires services.isTagFavs(TagFavs)
      modifies this, table
      ensures Valid()
      ensures var found := GetPhoto(old(table.rows), photoId, services.translatePhotoId, services.parsePhotoFromDb);
        if found.None? then
          completed && table.rows == old(table.rows) && effects == old(effects)
        else
          var photo := found.value["tags" := StrList(ToggleFavoriteTags(PhotoTags(found.value), services.isTagFavs))];
          var record := services.photoToDbInsert(photo);
          && (completed <==> UpdateStatement(old(table.rows), record, services.parseTimestamp, now).Some?)
          && table.rows == UpdateStatement(old(table.rows), record, services.parseTimestamp, now).GetOr(old(table.rows))
          && effects == old(effects) + [Statement(Write.UpdatePhoto(record.id))]
                        + (if completed then [RevalidateAllKeysAndPaths] + (if shouldRedirect then [Redirect(Root)] else []) else [])
    {
      var found := GetPhoto(table.rows, photoId, services.translatePhotoId, services.parsePhotoFromDb);
      completed := true;
      if found.Some? {
        var photo := found.value;
        var tags := PhotoTags(photo);
        photo := photo["tags" := StrList(ToggleFavoriteTags(tags, services.isTagFavs))];
        var record := services.photoToDbInsert(photo);
        completed := RunUpdate(record, services.parseTimestamp, now,
                               [RevalidateAllKeysAndPaths] + (if shouldRedirect then [Redirect(Root)] else []));
      }
    }

    /**
     * `deletePhotoAction`: the row is deleted, then the stored file, then
     * everything is invalidated and, when asked, the browser is sent home.
     */
    method DeletePhoto(photoId: string, photoUrl: string, shouldRedirect: bool)
      requires Valid()
      modifies this, table
      ensures Valid()
      ensures table.rows == DeleteRows(old(table.rows), photoId)
      ensures effects == old(effects) + [Statement(Write.DeletePhoto(Some(photoId))), DeleteStorageUrl(Some(photoUrl)),
                                         RevalidateAllKeysAndPaths] + (if shouldRedirect then [Redirect(Root)] else [])
    {
      RunDelete(Some(photoId), Some(photoUrl), shouldRedirect);
    }

    /**
     * `deletePhotoFormAction`: `deletePhotoAction` on the form's id and url,
     * without a redirect. A missing id binds NULL, which matches no row.
     */
    method DeletePhotoForm(form: FormData)
      requires Valid()
      modifies this, table
      ensures Valid()
      ensures table.rows == if "id" in form then DeleteRows(old(table.rows), form["id"]) else old(table.rows)
      ensures effects == old(effects) + [Statement(Write.DeletePhoto(Lookup(form, "id"))), DeleteStorageUrl(Lookup(form, "url")),
                                         RevalidateAllKeysAndPaths]
    {
      RunDelete(Lookup(form, "id"), Lookup(form, "url"), false);
    }

    /** The body of `deletePhotoAction`, for an id and url that may be `null`. */
    method RunDelete(photoId: Option<string>, photoUrl: Option<string>, shouldRedirect: bool)
      requires Valid()
      modifies this, table
      ensures Valid()
      ensures table.rows == if photoId.Some? then DeleteRows(old(table.rows), photoId.value) else old(table.rows)
      ensures effects == old(effects) + [Statement(Write.DeletePhoto(photoId)), DeleteStorageUrl(photoUrl),
                                         RevalidateAllKeysAndPaths] + (if shouldRedirect then [Redirect(Root)] else [])
    {
      effects := effects + [Statement(Write.DeletePhoto(photoId))];
      if photoId.Some? {
        table.Delete(photoId.value);
      }
      effects := effects + [DeleteStorageUrl(photoUrl)];
      effects := effects + [RevalidateAllKeysAndPaths];
      if shouldRedirect {
        effects := effects + [Redirect(Root)];
      }
    }

    /**
     * `deleteBlobPhotoAction`: deletes an uploaded file that never became a
     * photo, invalidates the admin paths and, when the form asks for it,
     * sends the browser to the admin photo list. The table is not touched.
     */
    method DeleteBlobPhoto(form: FormData)
      modifies this
      ensures effects == old(effects) + [DeleteStorageUrl(Lookup(form, "url")), RevalidateAdminPaths]
                         + (if Lookup(form, "redirectToPhotos") == Some("true") then [Redirect(AdminPhotos)] else [])
    {
      effects := effects + [DeleteStorageUrl(Lookup(form, "url"))];
      effects := effects + [RevalidateAdminPaths];
      if Lookup(form, "redirectToPhotos") == Some("true") {
        effects := effects + [Redirect(AdminPhotos)];
      }
    }

    /** `syncCacheAction`: invalidates every cache key and path and nothing else. */
    method SyncCache()
      modifies this
      ensures effects == old(effects) + [RevalidateAllKeysAndPaths]
    {
      effects := effects + [RevalidateAllKeysAndPaths];
    }

    /**
     * `deletePhotoTagGloballyAction`: the tag is removed from every photo
     * (a missing tag field binds NULL, which matches no row), then the photos
     * key and the admin paths are invalidated.
     */
    method DeletePhotoTagGlobally(form: FormData)
      requires Valid()
      modifies this, table
      ensures Valid()
      ensures table.rows == if "tag" in form then DeleteTagRows(old(table.rows), form["tag"]) else old(table.rows)
      ensures effects == old(effects) + [Statement(Write.DeleteTagGlobally(Lookup(form, "tag"))), RevalidatePhotosKey,
                                         RevalidateAdminPaths]
    {
      var tag := Lookup(form, "tag");
      effects := effects + [Statement(Write.DeleteTagGlobally(tag))];
      if tag.Some? {
        table.DeleteTagGlobally(tag.value);
      }
      effects := effects + [RevalidatePhotosKey];
      effects := effects + [RevalidateAdminPaths];
    }

    /**
     * `renamePhotoTagGloballyAction`: only when both tags are given, non-empty
     * and different is the tag renamed, the photos key invalidated and the
     * browser sent to the tag list; otherwise nothing happens.
     */
    method RenamePhotoTagGlobally(form: FormData)
      requires Valid()
      modifies this, table
      ensures Valid()
      ensures var go := Filled(form, "tag") && Filled(form, "updatedTag") && form["tag"] != form["updatedTag"];
        && (go ==> table.rows == RenameTagRows(old(table.rows), form["tag"], form["updatedTag"]))
        && (go ==> effects == old(effects) + [Statement(Write.RenameTagGlobally(form["tag"], form["updatedTag"])),
                                              RevalidatePhotosKey, Redirect(AdminTags)])
        && (!go ==> table.rows == old(table.rows) && effects == old(effects))
    {
      var tag := Lookup(form, "tag");
      var updatedTag := Lookup(form, "updatedTag");
      if tag.Some? && tag.value != "" && updatedTag.Some? && updatedTag.value != "" && tag.value != updatedTag.value {
        effects := effects + [Statement(Write.RenameTagGlobally(tag.value, updatedTag.value))];
        table.RenameTagGlobally(tag.value, updatedTag.value);
        effects := effects + [RevalidatePhotosKey];
        effects := effects + [Redirect(AdminTags)];
      }
    }

    /**
     * `syncPhotoExifDataAction`: for a found photo whose file has EXIF data,
     * the photo's form with the EXIF fields spread over it is written back
     * and the photos key invalidated. Without an id, a photo or EXIF data
     * nothing happens. `extract` stands for reading a file's EXIF data.
     */
    method SyncPhotoExifData(form: FormData, services: Services, extract: JsValue -> Option<ExifForm>, now: Instant)
      returns (completed: bool)
      requires Valid()
      modifies this, table
      ensures Valid()
      ensures var found := if Filled(form, "id")
                           then GetPhoto(old(table.rows), form["id"], services.translatePhotoId, services.parsePhotoFromDb)
                           else None;
        var exif := if found.Some? then extract(if "url" in found.value then found.value["url"] else Undefined) else None;
        if exif.None? then
          completed && table.rows == old(table.rows) && effects == old(effects)
        else
          var merged := Spread(PhotoToFormData(found.value, services.conv), ExifPatch(exif.value));
          var record := FormToPhotoDbInsert(merged, false, services.parsers, "");
          && (completed <==> UpdateStatement(old(table.rows), record, services.parseTimestamp, now).Some?)
          && table.rows == UpdateStatement(old(table.rows), record, services.parseTimestamp, now).GetOr(old(table.rows))
          && effects == old(effects) + [Statement(Write.UpdatePhoto(record.id))]
                        + (if completed then [RevalidatePhotosKey] else [])
    {
      completed := true;
      var photoId := Lookup(form, "id");
      if photoId.Some? && photoId.value != "" {
        var found := GetPhoto(table.rows, photoId.value, services.translatePhotoId, services.parsePhotoFromDb);
        if found.Some? {
          var photo := found.value;
          var exif := extract(if "url" in photo then photo["url"] else Undefined);
          if exif.Some? {
            var merged := Spread(PhotoToFormData(photo, services.conv), ExifPatch(exif.value));
            var record := ConvertFormDataToPhotoDbInsert(merged, false, services.parsers, "");
            completed := RunUpdate(record, services.parseTimestamp, now, [RevalidatePhotosKey]);
          }
        }
      }
    }
  }
}
