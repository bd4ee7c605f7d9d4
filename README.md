# Photo catalog data layer, modelled in Dafny

This project models the core of a self-hosted photo blog: the single `photos`
table in Postgres and everything that reads and writes it. It covers four
source files:

- **The data-access module** (`src/services/vercel-postgres.ts`):
  - the table and its mutations: insert, update, delete, and deleting or renaming a tag across all photos;
  - the `getPhotos` query builder, which turns listing options into parameterised SQL and a list of bound values;
  - the `safelyQueryPhotos` retry wrapper, which creates the missing table or waits out an endpoint in transition;
  - the neighbour window of `getPhotosNearId`, single-photo lookup and the count queries.
- **The admin photo form** (`src/photo/form/index.ts`):
  - the field metadata, form validation and the errors shown per field;
  - the conversions from a stored photo and from EXIF data to form text;
  - the conversion from the form to the insert/update record.
- **The admin server actions** (`src/photo/actions.ts`): create, update, delete, favourite toggle, tag delete/rename, EXIF sync, cache sync.
- **The site configuration** (`src/site/config.ts`): environment variables turned into storage flags, feature switches, the setup checklist and site readiness.

## Layout

| file | module | models |
|---|---|---|
| `js.dfy` | `Js` | the JavaScript vocabulary the code uses: `Option`, truthiness, `join`/`split`, `filter`, case conversion |
| `records.dfy` | `PhotoRecords` | the stored row, the insert record, form data, parsed photos, the reserved favourites tag |
| `catalog_table.dfy` | `CatalogTable` | the `photos` table as a class whose rows the write statements change in place |
| `catalog_query.dfy` | `CatalogQuery` | the `getPhotos` builder as a method, the statement it builds read back as a filter/sort/page plan, the plan's execution, near-id windows, counts, `getPhoto` |
| `catalog_retry.dfy` | `SafeQuery` | `safelyQueryPhotos` as a method returning the outcome and the trace of calls, logs, waits and table creation |
| `config.dfy` | `SiteConfig` | environment to flags |
| `photo_form.dfy` | `PhotoForm` | metadata, validation, the three conversions |
| `photo_actions.dfy` | `PhotoActions` | the server actions as methods of a `PhotoAdmin` object holding the table and a trace of outside effects |

### The statement builder's two readings

`getPhotos` builds its statement by pushing text fragments and bound values
step by step. The model keeps that shape: `BuildGetPhotosQuery` is a method
that pushes clauses, each made of SQL keywords and `$k` placeholders.

`ReadStatement` is an independent reading of such clauses. It turns them back
into a plan:

- the conditions in the WHERE clause;
- the sort;
- the limit and the offset.

The builder is proved to emit a statement that reads back as exactly the plan
its options call for (`PlanFor`). It also numbers its placeholders `$1 … $n`
with one bound value each. What a plan selects (`Execute`) is then stated
over the table:

- only matching rows;
- sorted;
- exactly min(`limit`, n − `offset`) of them when n rows match, and none when the offset is past the matches;
- every matching row, when the page starts at 0 and its limit covers the matches.

### Collaborators

Helpers whose code is not part of this model are parameters of function type,
grouped into records:

- `FormParsers`: `convertStringToArray`, `parseInt`, `parseFloat` and the aspect-ratio rounding.
- `TextConversions` and `ExifConversions`: number, date and EXIF text.
- `Services`: `translatePhotoId`, `parsePhotoFromDb`, `convertPhotoToPhotoDbInsert`, `isTagFavs` and the timestamp parser.

Values the environment would supply are plain parameters:

- a freshly generated id;
- the url the storage service returns;
- the current time;
- the EXIF data read from a file.

src/tag/index.ts is not part of this model. The reserved favourites tag is the
constant `TagFavs`, and the `isTagFavs` test is a parameter. The only thing
assumed about it is that it recognises `TagFavs`.

### Where the documented behaviour and the code differ

The model follows the code in each of these cases:

- The writes are not wrapped in `safelyQueryPhotos`, although the data layer is described as running every query through it: `sqlInsertPhoto`, `sqlUpdatePhoto`, `sqlDeletePhoto` and the two tag statements run unprotected. Only the reads use the retry.
- The `takenBefore` option selects rows with `taken_at > $k`, and `takenAfterInclusive` selects rows with `taken_at <= $k` (src/services/vercel-postgres.ts:329-336). The conditions are named `TakenAfter` and `TakenAtOrBefore` after what they select.
- `sqlUpdatePhoto` writes `priority_order=${photo.priorityOrder || null}`, so a priority of 0 is stored as NULL on update, but as 0 on insert. `ColumnsOf` states both.
- An empty tag or film simulation is treated differently by the counts and the listings. `getPhotos` adds no predicate for an empty (falsy) tag or simulation (src/services/vercel-postgres.ts:337-340, 347-350). The counts compare with it anyway, `''=ANY(tags)` and `film_simulation=''` (src/services/vercel-postgres.ts:167-171, 181-187). A count equals the size of its listing only for a non-empty tag or simulation. That is why `TagCountIsListingSize` and `SimulationCountIsListingSize` require one.

## Model

| member | source | states |
|---|---|---|
| Js.SplitJoin | src/services/vercel-postgres.ts:18-20 | splitting a joined list at the separator gives back the parts, when no part contains the separator |
| Js.FilterAppend | src/photo/actions.ts:62-64 | `filter` distributes over concatenation, so it keeps the relative order of the tags it keeps |
| Js.Without | src/photo/form/index.ts:132-134 | the tag list without a tag: the tag is gone and every other tag is present exactly when it was before |
| Js.WithoutAbsent | src/photo/form/index.ts:132-134 | removing a tag that is not in the list leaves the list unchanged |
| Js.Lower | src/services/vercel-postgres.ts:176-177 | SQL `LOWER`: same length, each letter lowered |
| Js.ReplaceChar | src/services/vercel-postgres.ts:177 | SQL `REPLACE(model, ' ', '-')`: same length, each space replaced and every other character kept |
| Js.BeforeFirst | src/site/config.ts:14-16 | `split(sep)[0]`: a prefix of the text that contains no occurrence of the separator and is followed by one, or is the whole text |
| CatalogTable.ConvertArrayToPostgresString | src/services/vercel-postgres.ts:18-20 | a literal exists exactly when the array does, and it is braced |
| CatalogTable.PostgresArrayLiteralReadsBack | src/services/vercel-postgres.ts:18-20 | the brace-stripped literal splits back into the tags when no tag contains a comma |
| CatalogTable.ArrayRemove | src/services/vercel-postgres.ts:138-143 | `ARRAY_REMOVE`: the tag is gone, other tags are kept, and a list without the tag is unchanged |
| CatalogTable.ArrayReplace | src/services/vercel-postgres.ts:145-150 | `ARRAY_REPLACE`: position by position, the old tag becomes the new one and other tags stay |
| CatalogTable.ArrayReplaceMembership | src/services/vercel-postgres.ts:145-150 | after a rename the old tag is gone, the new tag is present exactly when either was before, and a list without the old tag is unchanged |
| CatalogTable.FindRow | src/services/vercel-postgres.ts:155-156 | `WHERE id=$1 LIMIT 1`: finds a row with that id, and finds none exactly when no row has it |
| CatalogTable.ColumnsOf | src/services/vercel-postgres.ts:54-136 | the row values of a record exist exactly when the four NOT NULL columns are given; hidden is copied; tags are stored as given, assuming Postgres reads the array literal back unchanged; priority 0 becomes NULL on update only |
| CatalogTable.UpdateRows | src/services/vercel-postgres.ts:109-136 | the rows with the id get the new columns and `updated_at`; every other row, every id and every `created_at` is kept |
| CatalogTable.DeleteRows | src/services/vercel-postgres.ts:152-153 | the remaining rows are exactly the rows without the id |
| CatalogTable.DeleteAbsentRow | src/services/vercel-postgres.ts:152-153 | deleting an id that is not in the table changes nothing |
| CatalogTable.DeleteRowsRemovesOne | src/services/vercel-postgres.ts:152-153 | with unique ids, deleting removes exactly one row when the id is present and none otherwise, and ids stay unique |
| CatalogTable.DeleteTagRows | src/services/vercel-postgres.ts:138-143 | every row loses the tag; rows without it are unchanged; the row count is kept |
| CatalogTable.RenameTagRows | src/services/vercel-postgres.ts:145-150 | every row has the tag replaced; rows without it are unchanged |
| CatalogTable.RenameMovesTag | src/services/vercel-postgres.ts:145-150 | after a rename no row has the old tag, and a row has the new tag exactly when it had either |
| CatalogTable.InsertStatement | src/services/vercel-postgres.ts:54-107 | an insert succeeds exactly when an id is given, it is not taken and the NOT NULL columns are given; the new row is appended with that id; unique ids stay unique |
| CatalogTable.UpdateStatement | src/services/vercel-postgres.ts:109-136 | an update fails only when its row exists and a NOT NULL column is missing; with no matching row nothing changes; ids are kept |
| CatalogTable.PhotosTable.constructor | src/services/vercel-postgres.ts:22-51 | a new table is empty and valid |
| CatalogTable.PhotosTable.Insert | src/services/vercel-postgres.ts:54-107 | the rows become the result of the insert statement; a new row has the given columns and `created_at = updated_at = now`; unique ids are kept |
| CatalogTable.PhotosTable.Update | src/services/vercel-postgres.ts:109-136 | the rows become the result of the update statement, which is `UpdateRows` for an existing id |
| CatalogTable.PhotosTable.Delete | src/services/vercel-postgres.ts:152-153 | the rows become `DeleteRows`, keeping unique ids |
| CatalogTable.PhotosTable.DeleteTagGlobally | src/services/vercel-postgres.ts:138-143 | the rows become `DeleteTagRows` |
| CatalogTable.PhotosTable.RenameTagGlobally | src/services/vercel-postgres.ts:145-150 | the rows become `RenameTagRows` |
| SafeQuery.SafelyQueryPhotos | src/services/vercel-postgres.ts:279-305 | the exact trace for each kind of first outcome; the query runs at most twice, and twice exactly after a missing table or an endpoint in transition; the result is the last run's outcome; the table is created, or the 5000 ms wait taken, exactly in the matching error case |
| SafeQuery.CallsAppend | src/services/vercel-postgres.ts:283-293 | each recorded query run adds one to the run count |
| SiteConfig.SiteTitle | src/site/config.ts:6-8 | the title is the variable when it is set and not empty, otherwise 'Photo Blog'; never empty |
| SiteConfig.VercelProjectUrl | src/site/config.ts:10-16 | a project url exists exactly when both branch variables are set; it ends in `.vercel.app` and starts with the branch url's text before `-git-<branch>-` |
| SiteConfig.HasCloudflareR2Storage | src/site/config.ts:44-53 | full R2 storage implies the client-side R2 settings |
| SiteConfig.HasAwsS3Storage | src/site/config.ts:55-63 | full S3 storage implies the client-side S3 settings |
| SiteConfig.CountTrue | src/site/config.ts:65-69 | the number of set flags is at most their count, and 0 exactly when none is set |
| SiteConfig.MultipleProvidersIffTwo | src/site/config.ts:65-69 | several providers are configured exactly when some two of the three are |
| SiteConfig.CurrentStorage | src/site/config.ts:71-80 | the preference when it is set, otherwise R2, then S3, then Vercel Blob, by the client-side settings |
| SiteConfig.CurrentStorageFollowsFullSetups | src/site/config.ts:71-80 | without a preference, a fully configured R2 is chosen, and so is a fully configured S3 when R2 is not configured; the choice is always one of the three providers |
| SiteConfig.Enabled | src/site/config.ts:84-93 | an enable switch is on exactly when its variable is the text '1' |
| SiteConfig.SwitchDefaults | src/site/config.ts:84-88 | with the variables unset, priority order and blur are on, and geo privacy and pro mode are off |
| SiteConfig.OgTextBottomAlignment | src/site/config.ts:97-98 | bottom alignment needs a six-letter value and is off when the variable is unset |
| SiteConfig.OgTextBottomAlignmentIgnoresCase | src/site/config.ts:97-98 | bottom alignment is on exactly when the variable lower-cases to 'bottom', so every letter-case mix selects it and nothing else does |
| SiteConfig.ChecklistStorage | src/site/config.ts:102-112 | the checklist reports storage exactly when at least one provider is fully configured, and several providers imply storage |
| SiteConfig.IsSiteReady | src/site/config.ts:134-138 | the site is ready exactly when Postgres, some full storage, the auth secret and both admin credentials are set |
| CatalogQuery.DefaultSortFollowsConfig | src/services/vercel-postgres.ts:309 | the default sort is by priority unless the ignore-priority variable is '1', and then it is by capture time |
| CatalogQuery.CondsForMeaning | src/services/vercel-postgres.ts:325-350 | a row satisfies every built condition exactly when it matches the options: hidden, time bounds, tag, camera, simulation |
| CatalogQuery.HiddenFilterIffNotIncluded | src/services/vercel-postgres.ts:326-328 | the `hidden IS NOT TRUE` condition is built exactly when hidden photos are not asked for |
| CatalogQuery.ReadCondsPointwise | src/services/vercel-postgres.ts:351-353 | clauses that each read as a condition read together as the list of those conditions |
| CatalogQuery.WhereHidden | src/services/vercel-postgres.ts:326-328 | pushes the hidden predicate exactly when hidden photos are excluded, keeping the clauses readable and the placeholders numbered |
| CatalogQuery.WhereTakenBefore | src/services/vercel-postgres.ts:329-332 | pushes `taken_at > $k` with its timestamp exactly when the option is given, numbering the new placeholder next |
| CatalogQuery.WhereTakenAfterInclusive | src/services/vercel-postgres.ts:333-336 | pushes `taken_at <= $k` with its timestamp exactly when the option is given |
| CatalogQuery.WhereTag | src/services/vercel-postgres.ts:337-340 | pushes `$k=ANY(tags)` with the tag exactly when a non-empty tag is given |
| CatalogQuery.WhereCamera | src/services/vercel-postgres.ts:341-346 | pushes the make and model predicates, bound to the parameterized make and model, exactly when a camera is given |
| CatalogQuery.WhereSimulation | src/services/vercel-postgres.ts:347-350 | pushes the film-simulation predicate exactly when a non-empty simulation is given |
| CatalogQuery.CollectPredicates | src/services/vercel-postgres.ts:320-350 | the predicates collected read back as exactly the conditions the options call for, with placeholders `$1 … $n` bound one-to-one to the values |
| CatalogQuery.BuildGetPhotosQuery | src/services/vercel-postgres.ts:307-370 | the statement reads back as exactly the plan of the options (conditions, sort, limit, offset); placeholders are `$1 … $n` for the n values; limit and offset are bound last; a WHERE clause appears exactly when there are conditions |
| CatalogQuery.StatementMeetsPlan | src/services/vercel-postgres.ts:351-370 | the assembled statement reads back as the options' plan, numbers all its placeholders, and has a WHERE clause exactly when there are conditions |
| CatalogQuery.StatementReads | src/services/vercel-postgres.ts:351-370 | SELECT, WHERE, ORDER BY and LIMIT/OFFSET read back as the conditions, the sort and the page |
| CatalogQuery.StatementParams | src/services/vercel-postgres.ts:351-370 | adding the LIMIT/OFFSET placeholders to predicates numbered `$1 … $n` numbers the statement `$1 … $n+2` |
| CatalogQuery.LeTotalPreorder | src/services/vercel-postgres.ts:356-366 | each of the three orders is total and transitive |
| CatalogQuery.InsertRow | src/services/vercel-postgres.ts:356-366 | inserting a row into a sorted list adds exactly that row |
| CatalogQuery.InsertRowSorted | src/services/vercel-postgres.ts:356-366 | inserting a row into a sorted list keeps it sorted |
| CatalogQuery.SortRows | src/services/vercel-postgres.ts:356-366 | sorting is a permutation of the rows |
| CatalogQuery.SortRowsSorted | src/services/vercel-postgres.ts:356-366 | the sorted rows are in the requested order |
| CatalogQuery.FilterRows | src/services/vercel-postgres.ts:324-353 | the WHERE clause keeps exactly the rows that satisfy every condition |
| CatalogQuery.FilterRowsEquivalent | src/services/vercel-postgres.ts:324-353 | conditions that agree on every row filter the table alike |
| CatalogQuery.Page | src/services/vercel-postgres.ts:369-370 | `LIMIT`/`OFFSET`: the consecutive rows starting at the offset, exactly min(`limit`, length − `offset`) of them and none past the end; the whole list when the page covers it |
| CatalogQuery.ExecuteContract | src/services/vercel-postgres.ts:324-370 | a plan selects exactly min(`limit`, n − `offset`) rows when n rows match (none past the end), each a table row satisfying every condition, in the plan's order |
| CatalogQuery.PageSorted | src/services/vercel-postgres.ts:356-370 | a page of a sorted list is sorted |
| CatalogQuery.GetPhotosContract | src/services/vercel-postgres.ts:307-377 | a listing has exactly min(`limit`, n − `offset`) photos when n photos match the options (none past the end), each matching them; hidden photos only when asked for; in the requested order |
| CatalogQuery.GetPhotosComplete | src/services/vercel-postgres.ts:307-377 | a listing that starts at 0 with a limit covering the matches holds every matching row, each once |
| CatalogQuery.GetPhoto | src/services/vercel-postgres.ts:409-416 | a photo is found exactly when a row has the translated id, and it is that row parsed |
| CatalogQuery.IndexOfId | src/services/vercel-postgres.ts:397 | the position of the row with the id, or none exactly when no row has it |
| CatalogQuery.Run | src/services/vercel-postgres.ts:400-401 | `limit` consecutive rows from a position, or up to the end |
| CatalogQuery.Window | src/services/vercel-postgres.ts:400-401 | the window holds at most `limit` rows |
| CatalogQuery.WindowOfThree | src/services/vercel-postgres.ts:379-407 | a window of three around an inner photo is its predecessor, the photo and its successor |
| CatalogQuery.NearIdWindow | src/services/vercel-postgres.ts:379-407 | the near-id window starts one row before the photo, in default order among visible photos, and holds `limit` rows or up to the end |
| CatalogQuery.NearIdEmptyWithoutVisibleTarget | src/services/vercel-postgres.ts:395-399 | a hidden or unknown photo has an empty window |
| CatalogQuery.ListingSize | src/services/vercel-postgres.ts:307-377 | a listing that starts at 0 with a limit covering the matches has as many photos as the filter keeps |
| CatalogQuery.PhotosCountIsListingSize | src/services/vercel-postgres.ts:158-165 | the visible-photo count is the size of the default listing, and at most the count including hidden ones |
| CatalogQuery.SingleFilterConds | src/services/vercel-postgres.ts:325-350 | a single tag, camera or simulation option builds the hidden condition and that filter only |
| CatalogQuery.TagCountIsListingSize | src/services/vercel-postgres.ts:167-171 | the tag count is the size of the tag listing |
| CatalogQuery.CameraCountIsListingSize | src/services/vercel-postgres.ts:173-179 | the camera count is the size of the camera listing |
| CatalogQuery.SimulationCountIsListingSize | src/services/vercel-postgres.ts:181-187 | the film-simulation count is the size of the simulation listing |
| PhotoForm.MetaFlags | src/photo/form/index.ts:53-97 | only `tags` has a validator, and only blur data is required, and only when blur is enabled |
| PhotoForm.FormMetadataEntries | src/photo/form/index.ts:99-103 | the entries are every field except the hidden location name |
| PhotoForm.FieldValidMeaning | src/photo/form/index.ts:117-122 | an entry passes when its required field is filled and its validator accepts |
| PhotoForm.IsFormValidMeaning | src/photo/form/index.ts:117-122 | a form is valid exactly when blur data is filled (if blur is enabled) and the tags do not name the reserved tag |
| PhotoForm.LocationNameNotValidated | src/photo/form/index.ts:99-122 | the location name, hidden from the entries, never affects validity |
| PhotoForm.FindField | src/photo/form/index.ts:113 | finds the entry with the given key, or reports that none has it |
| PhotoForm.FormErrorsMeaning | src/photo/form/index.ts:108-115 | there is an error slot for every submitted key, and the only error is the reserved-tag message on `tags` |
| PhotoForm.FieldErrorMeaning | src/photo/form/index.ts:108-115 | the error of one field: the reserved-tag message for tags naming it, none otherwise |
| PhotoForm.PhotoToFormData | src/photo/form/index.ts:126-151 | `favorite` is 'true' exactly when the photo has the reserved tag, and the tags text is the other tags joined by ', ' |
| PhotoForm.PhotoFormFields | src/photo/form/index.ts:129-148 | `hidden` becomes 'true' or 'false'; a field is present exactly when its property is, except null or undefined ones |
| PhotoForm.ExifToFormData | src/photo/form/index.ts:155-182 | aspect ratio is always set; location is withheld under geo privacy and copied otherwise; both capture times are set exactly when a non-zero capture time exists; make, model and simulation are copied |
| PhotoForm.Spread | src/photo/actions.ts:142-145 | `{...form, ...patch}`: the patch's fields win, and an undefined one removes the field |
| PhotoForm.VirtualFieldIsFavorite | src/photo/form/index.ts:206 | the only virtual field is `favorite` |
| PhotoForm.KeptFields | src/photo/form/index.ts:199-210 | the clean-up keeps exactly the fields that are not server-action ids, not empty and not virtual |
| PhotoForm.FormTags | src/photo/form/index.ts:194-216 | the record's tags are the parsed tags text, with the reserved tag appended when `favorite` is 'true', and undefined when empty |
| PhotoForm.FormFieldsCleaned | src/photo/form/index.ts:199-213 | the record's text fields are exactly the kept, untyped form fields, with their text |
| PhotoForm.FormId | src/photo/form/index.ts:213-214 | the id is the form's when filled, a generated one when asked for, otherwise none |
| PhotoForm.TypedKeysKept | src/photo/form/index.ts:202-246 | the typed fields are never dropped as server-action ids or virtual fields |
| PhotoForm.FormNumbers | src/photo/form/index.ts:219-246 | a numeric field is set exactly when filled, by `parseInt` or `parseFloat` as the field's type asks; hidden is `=== 'true'` |
| PhotoForm.ConvertFormDataToPhotoDbInsert | src/photo/form/index.ts:186-248 | the step-by-step conversion builds the record `FormToPhotoDbInsert` describes |
| PhotoForm.PhotoFormRoundTrip | src/photo/form/index.ts:126-248 | a photo shown in the form and read back keeps its tags, with the reserved tag moved to the end; keeps its favourite status, hidden flag and id |
| PhotoActions.ToggleFavoriteTags | src/photo/actions.ts:61-64 | with the reserved tag, every favourites tag is removed and the rest kept; without it, the reserved tag is appended |
| PhotoActions.ToggleTwice | src/photo/actions.ts:61-64 | toggling twice from a list without the reserved tag gives back the list, minus any tags `isTagFavs` recognises |
| PhotoActions.GetExifData | src/photo/actions.ts:122-133 | the EXIF fields of the file at the form's url, or nothing when there is no url or no EXIF data |
| PhotoActions.CreatedPhoto | src/photo/actions.ts:31-36 | the created record always has an id (the form's, else a generated one); only its url can differ from the form's record, and only when storage returned one |
| PhotoActions.PhotoAdmin.constructor | src/photo/actions.ts:1-29 | the actions start with the given valid table and no effects |
| PhotoActions.PhotoAdmin.CreatePhoto | src/photo/actions.ts:31-43 | moves the upload, inserts the record with the new url, then revalidates and redirects to the admin photos; a failed insert stops after the statement |
| PhotoActions.PhotoAdmin.UpdatePhoto | src/photo/actions.ts:45-53 | updates from the form without generating an id, then revalidates and redirects to the admin photos |
| PhotoActions.PhotoAdmin.ToggleFavoritePhoto | src/photo/actions.ts:55-71 | an unknown photo changes nothing; otherwise the toggled tags are written back, everything revalidated, and the root redirect taken only when asked |
| PhotoActions.PhotoAdmin.DeletePhoto | src/photo/actions.ts:73-83 | deletes the row, then the stored file, revalidates, and redirects to the root only when asked |
| PhotoActions.PhotoAdmin.DeletePhotoForm | src/photo/actions.ts:85-90 | deletes the photo named by the form's id and url, without redirecting |
| PhotoActions.PhotoAdmin.DeletePhotoTagGlobally | src/photo/actions.ts:92-99 | removes the tag from every row, then revalidates the photos key and the admin paths |
| PhotoActions.PhotoAdmin.RenamePhotoTagGlobally | src/photo/actions.ts:101-110 | renames only when both tags are filled and differ, then revalidates and redirects to the tags page; otherwise nothing happens |
| PhotoActions.PhotoAdmin.DeleteBlobPhoto | src/photo/actions.ts:112-120 | deletes the stored file, revalidates the admin paths, and redirects to the admin photos only when asked by 'true' |
| PhotoActions.PhotoAdmin.SyncPhotoExifData | src/photo/actions.ts:135-151 | with an id, a known photo and EXIF data, updates the photo from its form overlaid with the EXIF fields and revalidates the photos key; otherwise nothing happens |
| PhotoActions.PhotoAdmin.SyncCache | src/photo/actions.ts:153-155 | revalidates everything and nothing else |

## Left out

- CatalogTable.ColumnsOf: stores the record's tag list as given, assuming Postgres reads the unquoted array literal `{a,b}` (src/services/vercel-postgres.ts:18-20, 88, 117) back unchanged. Postgres parses that literal, which this model does not do:
  - a tag `null` (any case) becomes a NULL element, which `=ANY(tags)` never matches;
  - a tag containing a comma becomes several tags;
  - leading and trailing spaces are trimmed;
  - a list holding only `""` becomes an empty array;
  - a tag with a double quote, a backslash or a brace makes the literal malformed, so the insert or update throws.

  The model's tag results carry the same assumption: `RenameMovesTag`, the count lemmas, and the table side of `PhotoFormRoundTrip`. `PostgresArrayLiteralReadsBack` proves the comma case of the round trip, and only that case.
- The statement's text, `sql.join(' ')` (src/services/vercel-postgres.ts:374), is not rendered. The model keeps the statement as clauses of fixed SQL pieces and `$k` placeholders, and reads those back. `KeywordText` records the text of each piece.
- Date-range and unique aggregate queries (src/services/vercel-postgres.ts:189-265, their wrappers at 417-449): `MIN`/`MAX` over naive timestamp text and `DISTINCT … GROUP BY` listings are not modelled. Only the counts are.
- The near-id query's outer `SELECT … LIMIT $2` has no `ORDER BY` (src/services/vercel-postgres.ts:398-401). Postgres therefore promises neither which rows, among those from the row before the target onward, are returned nor their order. The model takes the first `limit` of them in the inner order (`GetPhotosNearId`, `NearIdWindow`).
- Ties in `ORDER BY` are unspecified in SQL. The model sorts stably in table order; contracts state only sortedness and permutation.
- SQL `LOWER` and `parameterize` are ASCII-only, or a parameter; Unicode case folding is not modelled.
- Limits and offsets are natural numbers. Negative values, which Postgres rejects with an error, are not represented.
- Numbers are `real`: NaN, floating-point rounding, `parseInt`/`parseFloat` and `toFixedNumber` are parameters, not modelled.
- Connection failures, storage-service failures and the time a retry waits are outside the model. `sqlCreatePhotosTable` is assumed to succeed, and the column types and lengths of the table definition are not checked.
- The actions issue the read in `getPhoto` without composing it with the retry wrapper: the `SafelyQueryPhotos` trace is stated for one query on its own.
- `convertFormKeysToLabels` (src/photo/form/index.ts:105-106) and the presentation-only metadata (capitalisation, select options, camera-based hiding, loading messages) are not modelled. `Label` records the labels without a contract.
- A `takenAt` property that is neither a `Date` nor text is passed through `toString` as text.
- src/site/paths.ts, src/tag/index.ts, src/photo/index.ts and src/services/storage are not part of this model; their constants and helpers are values or parameters (`TagFavs` stands for the reserved tag).
- `BASE_URL`, `SITE_DOMAIN_OR_TITLE`, `SITE_DESCRIPTION`, `GRID_ASPECT_RATIO` and `HIGH_DENSITY_GRID` (src/site/config.ts:18-38,94-100) depend on unseen URL helpers or floating point and are not modelled.
- Next.js `redirect` ends an action by throwing; the model records it as the last effect, with nothing after it.
