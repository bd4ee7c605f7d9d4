/**
 * The `photos` table and the write statements of
 * src/services/vercel-postgres.ts: insert, update by id, delete by id, and
 * the global tag delete and rename. The table is an ordered sequence of rows
 * with unique ids; each statement is a method that replaces that sequence by
 * a function of the old one.
 */
module CatalogTable {
  import opened Js
  import opened PhotoRecords

  // ---- tag arrays ----

  /** `{a,b,c}`: the array literal built for the `tags` column, or NULL for no array. No quoting is done. */
  function ConvertArrayToPostgresString(tags: Option<seq<string>>): (literal: Option<string>)
    ensures literal.Some? <==> tags.Some?
    ensures literal.Some? ==> StartsWith(literal.value, "{") && EndsWith(literal.value, "}")
  {
    match tags
    case None => None
    case Some(ts) =>
      var s := "{" + Join(ts, ",") + "}";
      assert s[..1] == "{" && s[|s| - 1..] == "}";
      Some(s)
  }

  /**
   * The array literal holds exactly the tags, comma-separated, as long as
   * there is at least one tag and no tag contains a comma.
   */
  lemma PostgresArrayLiteralReadsBack(tags: seq<string>)
    requires |tags| >= 1
    requires forall i :: 0 <= i < |tags| ==> ',' !in tags[i]
    ensures var s := ConvertArrayToPostgresString(Some(tags)).value;
      SplitOn(s[1..|s| - 1], ',') == tags
  {
    var s := ConvertArrayToPostgresString(Some(tags)).value;
    assert s[1..|s| - 1] == Join(tags, [',']);
    SplitJoin(tags, ',');
  }

  /** `ARRAY_REMOVE(tags, tag)`: every occurrence of `tag` removed, the rest in order. */
  function ArrayRemove(tags: seq<string>, tag: string): (r: seq<string>)
    ensures tag !in r
    ensures forall t :: t != tag ==> (t in r <==> t in tags)
    ensures tag !in tags ==> r == tags
  {
    WithoutAbsent(tags, tag);
    Without(tags, tag)
  }

  /** `ARRAY_REPLACE(tags, tag, updated)`: every occurrence of `tag` becomes `updated`, positions kept. */
  function ArrayReplace(tags: seq<string>, tag: string, updated: string): (r: seq<string>)
    ensures |r| == |tags|
    ensures forall i :: 0 <= i < |tags| ==> r[i] == (if tags[i] == tag then updated else tags[i])
  {
    if tags == [] then []
    else [if tags[0] == tag then updated else tags[0]] + ArrayReplace(tags[1..], tag, updated)
  }

  /** After a replace, the old tag is gone (unless it is its own replacement) and the new one is present iff either was. */
  lemma {:induction false} ArrayReplaceMembership(tags: seq<string>, tag: string, updated: string)
    ensures tag != updated ==> tag !in ArrayReplace(tags, tag, updated)
    ensures updated in ArrayReplace(tags, tag, updated) <==> (tag in tags || updated in tags)
    ensures tag !in tags ==> ArrayReplace(tags, tag, updated) == tags
  {
    var r := ArrayReplace(tags, tag, updated);
    if tag != updated {
      assert forall i :: 0 <= i < |r| ==> r[i] != tag;
    }
    if updated in r {
      var i :| 0 <= i < |r| && r[i] == updated;
      assert tags[i] == tag || tags[i] == updated;
    }
    if tag in tags {
      var i :| 0 <= i < |tags| && tags[i] == tag;
      assert r[i] == updated;
    }
    if updated in tags {
      var i :| 0 <= i < |tags| && tags[i] == updated;
      assert r[i] == updated;
    }
  }

  // ---- rows ----

  predicate HasId(rows: seq<Row>, id: string) {
    exists i :: 0 <= i < |rows| && rows[i].id == id
  }

  /** The primary-key invariant of the table. */
  predicate UniqueIds(rows: seq<Row>) {
    forall i, j :: 0 <= i < j < |rows| ==> rows[i].id != rows[j].id
  }

  /** `SELECT * FROM photos WHERE id=$1 LIMIT 1`. */
  function FindRow(rows: seq<Row>, id: string): (found: Option<Row>)
    ensures found.Some? ==> found.value in rows && found.value.id == id
    ensures found.None? <==> !HasId(rows, id)
  {
    if rows == [] then None
    else if rows[0].id == id then Some(rows[0])
    else
      var found := FindRow(rows[1..], id);
      assert HasId(rows, id) ==> rows[0].id == id || HasId(rows[1..], id) by {
        if HasId(rows, id) {
          var i :| 0 <= i < |rows| && rows[i].id == id;
          if i > 0 { assert rows[1..][i - 1].id == id; }
        }
      }
      found
  }

  /**
   * The columns an insert or update statement binds, or `None` when a NOT
   * NULL column would be NULL. The tag list is stored as given: Postgres's
   * parse of the `{a,b}` literal (NULL elements, trimming, malformed
   * literals) is not modelled.
   */
  function ColumnsOf(p: PhotoDbInsert, forUpdate: bool, parseTimestamp: string -> Instant): (cols: Option<Columns>)
    ensures cols.Some? <==> "url" in p.fields && "extension" in p.fields && "takenAt" in p.fields && "takenAtNaive" in p.fields
    ensures cols.Some? ==> cols.value.tags == p.tags.GetOr([]) && cols.value.hidden == Some(p.hidden)
    ensures cols.Some? && forUpdate ==>
      cols.value.priorityOrder == (if "priorityOrder" in p.numbers && p.numbers["priorityOrder"] != 0.0
                                   then Some(p.numbers["priorityOrder"]) else None)
    ensures cols.Some? && !forUpdate ==>
      cols.value.priorityOrder == (if "priorityOrder" in p.numbers then Some(p.numbers["priorityOrder"]) else None)
  {
    var f := p.fields;
    if "url" !in f || "extension" !in f || "takenAt" !in f || "takenAtNaive" !in f then None
    else
      var priority := NumberField(p, "priorityOrder");
      Some(Columns(
        url := f["url"],
        extension := f["extension"],
        aspectRatio := p.aspectRatio,
        blurData := TextField(p, "blurData"),
        title := TextField(p, "title"),
        tags := p.tags.GetOr([]),
        make := TextField(p, "make"),
        model := TextField(p, "model"),
        exif := ExifColumns(
          NumberField(p, "focalLength"), NumberField(p, "focalLengthIn35MmFormat"),
          NumberField(p, "fNumber"), NumberField(p, "iso"),
          NumberField(p, "exposureTime"), NumberField(p, "exposureCompensation"),
          NumberField(p, "latitude"), NumberField(p, "longitude")),
        locationName := TextField(p, "locationName"),
        filmSimulation := TextField(p, "filmSimulation"),
        // the update binds `priorityOrder || null`: a zero priority is stored as NULL
        priorityOrder := if forUpdate && priority == Some(0.0) then None else priority,
        hidden := Some(p.hidden),
        takenAt := parseTimestamp(f["takenAt"]),
        takenAtNaive := f["takenAtNaive"]))
  }

  function TextField(p: PhotoDbInsert, key: string): Option<string> {
    if key in p.fields then Some(p.fields[key]) else None
  }

  function NumberField(p: PhotoDbInsert, key: string): Option<real> {
    if key in p.numbers then Some(p.numbers[key]) else None
  }

  /** `UPDATE photos SET ... WHERE id=$id`: the matching row takes the new columns and `updated_at`. */
  function UpdateRows(rows: seq<Row>, id: string, cols: Columns, now: Instant): (r: seq<Row>)
    ensures |r| == |rows|
    ensures forall i :: 0 <= i < |rows| ==> r[i].id == rows[i].id && r[i].createdAt == rows[i].createdAt
    ensures forall i :: 0 <= i < |rows| && rows[i].id != id ==> r[i] == rows[i]
    ensures forall i :: 0 <= i < |rows| && rows[i].id == id ==> r[i].cols == cols && r[i].updatedAt == now
  {
    seq(|rows|, i requires 0 <= i < |rows| =>
      if rows[i].id == id then rows[i].(cols := cols, updatedAt := now) else rows[i])
  }

  /** `DELETE FROM photos WHERE id=$id`: the rows with another id, in their order. */
  function DeleteRows(rows: seq<Row>, id: string): (r: seq<Row>)
    ensures forall x :: x in r <==> x in rows && x.id != id
    ensures forall i :: 0 <= i < |r| ==> r[i].id != id
  {
    if rows == [] then []
    else if rows[0].id == id then DeleteRows(rows[1..], id)
    else [rows[0]] + DeleteRows(rows[1..], id)
  }

  /** The first row and the rest, as the key invariant and id lookup see them. */
  lemma HeadAndTail(rows: seq<Row>, id: string)
    requires rows != []
    ensures HasId(rows, id) <==> rows[0].id == id || HasId(rows[1..], id)
    ensures UniqueIds(rows) ==> UniqueIds(rows[1..]) && !HasId(rows[1..], rows[0].id)
  {
    if HasId(rows, id) {
      var i :| 0 <= i < |rows| && rows[i].id == id;
      if i > 0 { assert rows[1..][i - 1].id == id; }
    }
    if HasId(rows[1..], id) {
      var i :| 0 <= i < |rows[1..]| && rows[1..][i].id == id;
      assert rows[i + 1].id == id;
    }
    if UniqueIds(rows) {
      forall i | 0 <= i < |rows[1..]| ensures rows[1..][i].id != rows[0].id {
        assert rows[1..][i] == rows[i + 1];
      }
    }
  }

  /** Deleting an id that is not there changes nothing. */
  lemma {:induction false} DeleteAbsentRow(rows: seq<Row>, id: string)
    requires !HasId(rows, id)
    ensures DeleteRows(rows, id) == rows
  {
    if rows != [] {
      assert rows[0].id != id;
      assert !HasId(rows[1..], id) by {
        forall i | 0 <= i < |rows| - 1 ensures rows[1..][i].id != id {
          assert rows[1..][i] == rows[i + 1];
        }
      }
      DeleteAbsentRow(rows[1..], id);
      assert rows == [rows[0]] + rows[1..];
    }
  }

  /** A table that satisfied the key invariant still does after a delete, which removes the one row with that id. */
  lemma {:induction false} DeleteRowsRemovesOne(rows: seq<Row>, id: string)
    requires UniqueIds(rows)
    ensures UniqueIds(DeleteRows(rows, id))
    ensures |DeleteRows(rows, id)| == if HasId(rows, id) then |rows| - 1 else |rows|
  {
    if rows != [] {
      HeadAndTail(rows, id);
      DeleteRowsRemovesOne(rows[1..], id);
      if rows[0].id == id {
        DeleteAbsentRow(rows[1..], id);
      } else {
        var r := DeleteRows(rows, id);
        var rest := DeleteRows(rows[1..], id);
        assert r == [rows[0]] + rest;
        forall j | 0 < j < |r| ensures r[0].id != r[j].id {
          assert r[j] in rest;
        }
      }
    }
  }

  /** The global tag delete: every row's tag array loses every occurrence of `tag`; nothing else changes. */
  function DeleteTagRows(rows: seq<Row>, tag: string): (r: seq<Row>)
    ensures |r| == |rows|
    ensures forall i :: 0 <= i < |rows| ==> r[i] == rows[i].(cols := rows[i].cols.(tags := ArrayRemove(rows[i].cols.tags, tag)))
    ensures forall i :: 0 <= i < |rows| ==> tag !in r[i].cols.tags
    ensures forall i :: 0 <= i < |rows| && tag !in rows[i].cols.tags ==> r[i] == rows[i]
  {
    seq(|rows|, i requires 0 <= i < |rows| =>
      if tag in rows[i].cols.tags then rows[i].(cols := rows[i].cols.(tags := ArrayRemove(rows[i].cols.tags, tag)))
      else rows[i])
  }

  /** The global tag rename: every occurrence of `tag` in every row becomes `updated`; nothing else changes. */
  function RenameTagRows(rows: seq<Row>, tag: string, updated: string): (r: seq<Row>)
    ensures |r| == |rows|
    ensures forall i :: 0 <= i < |rows| ==> r[i] == rows[i].(cols := rows[i].cols.(tags := ArrayReplace(rows[i].cols.tags, tag, updated)))
    ensures forall i :: 0 <= i < |rows| && tag !in rows[i].cols.tags ==> r[i] == rows[i]
  {
    seq(|rows|, i requires 0 <= i < |rows| =>
      if tag in rows[i].cols.tags then rows[i].(cols := rows[i].cols.(tags := ArrayReplace(rows[i].cols.tags, tag, updated)))
      else (ArrayReplaceMembership(rows[i].cols.tags, tag, updated); rows[i]))
  }

  /**
   * Renaming `tag` to a different `updated` leaves no row carrying `tag`, and
   * the rows carrying `updated` are exactly those that carried either.
   */
  lemma RenameMovesTag(rows: seq<Row>, tag: string, updated: string)
    requires tag != updated
    ensures var r := RenameTagRows(rows, tag, updated);
      forall i :: 0 <= i < |rows| ==>
        && tag !in r[i].cols.tags
        && (updated in r[i].cols.tags <==> tag in rows[i].cols.tags || updated in rows[i].cols.tags)
  {
    forall i | 0 <= i < |rows| {
      ArrayReplaceMembership(rows[i].cols.tags, tag, updated);
    }
  }

  /**
   * The table after `sqlInsertPhoto`, or `None` when the statement fails: a
   * missing or taken id, or a NOT NULL column left NULL. A successful insert
   * adds exactly one row, with the new id, after the old rows.
   */
  function InsertStatement(rows: seq<Row>, p: PhotoDbInsert, parseTimestamp: string -> Instant, now: Instant)
    : (r: Option<seq<Row>>)
    ensures r.Some? <==> p.id.Some? && !HasId(rows, p.id.value) && ColumnsOf(p, false, parseTimestamp).Some?
    ensures r.Some? ==> |r.value| == |rows| + 1 && r.value[..|rows|] == rows && r.value[|rows|].id == p.id.value
    ensures r.Some? && UniqueIds(rows) ==> UniqueIds(r.value)
  {
    var cols := ColumnsOf(p, false, parseTimestamp);
    if p.id.None? || HasId(rows, p.id.value) || cols.None? then None
    else Some(rows + [Row(p.id.value, cols.value, now, now)])
  }

  /**
   * The table after `sqlUpdatePhoto`, or `None` when the statement fails
   * because the matching row would get a NOT NULL column NULL. A missing id,
   * or one no row has, matches nothing and leaves the table as it was.
   */
  function UpdateStatement(rows: seq<Row>, p: PhotoDbInsert, parseTimestamp: string -> Instant, now: Instant)
    : (r: Option<seq<Row>>)
    ensures r.None? <==> p.id.Some? && HasId(rows, p.id.value) && ColumnsOf(p, true, parseTimestamp).None?
    ensures r.Some? && (p.id.None? || !HasId(rows, p.id.value)) ==> r.value == rows
    ensures r.Some? ==> |r.value| == |rows| && forall i :: 0 <= i < |rows| ==> r.value[i].id == rows[i].id
  {
    if p.id.None? || !HasId(rows, p.id.value) then Some(rows)
    else
      var cols := ColumnsOf(p, true, parseTimestamp);
      if cols.None? then None else Some(UpdateRows(rows, p.id.value, cols.value, now))
  }

  /** The `photos` table. */
  class PhotosTable {
    var rows: seq<Row>

    ghost predicate Valid()
      reads this
    {
      UniqueIds(rows)
    }

    constructor ()
      ensures Valid() && rows == []
    {
      rows := [];
    }

    /**
     * `sqlInsertPhoto`: fails (the statement throws) when the id is missing or
     * taken, or a NOT NULL column would be NULL; otherwise adds one row
     * stamped with `now`.
     */
    method Insert(p: PhotoDbInsert, parseTimestamp: string -> Instant, now: Instant) returns (ok: bool)
      requires Valid()
      modifies this
      ensures Valid()
      ensures ok <==> InsertStatement(old(rows), p, parseTimestamp, now).Some?
      ensures rows == InsertStatement(old(rows), p, parseTimestamp, now).GetOr(old(rows))
      ensures ok ==> rows[|old(rows)|] == Row(p.id.value, ColumnsOf(p, false, parseTimestamp).value, now, now)
    {
      var cols := ColumnsOf(p, false, parseTimestamp);
      if p.id.None? || HasId(rows, p.id.value) || cols.None? {
        return false;
      }
      rows := rows + [Row(p.id.value, cols.value, now, now)];
      ok := true;
    }

    /**
     * `sqlUpdatePhoto`: a missing id matches no row (`id = NULL`) and so does
     * nothing; a matching row with a NOT NULL column left empty makes the
     * statement fail; otherwise the row is updated.
     */
    method Update(p: PhotoDbInsert, parseTimestamp: string -> Instant, now: Instant) returns (ok: bool)
      requires Valid()
      modifies this
      ensures Valid()
      ensures ok <==> UpdateStatement(old(rows), p, parseTimestamp, now).Some?
      ensures rows == UpdateStatement(old(rows), p, parseTimestamp, now).GetOr(old(rows))
      ensures ok && p.id.Some? && HasId(old(rows), p.id.value) ==>
        rows == UpdateRows(old(rows), p.id.value, ColumnsOf(p, true, parseTimestamp).value, now)
    {
      if p.id.None? || !HasId(rows, p.id.value) {
        return true;
      }
      var cols := ColumnsOf(p, true, parseTimestamp);
      if cols.None? {
        return false;
      }
      rows := UpdateRows(rows, p.id.value, cols.value, now);
      ok := true;
    }

    /** `sqlDeletePhoto`. */
    method Delete(id: string)
      requires Valid()
      modifies this
      ensures Valid()
      ensures rows == DeleteRows(old(rows), id)
    {
      DeleteRowsRemovesOne(rows, id);
      rows := DeleteRows(rows, id);
    }

    /** `sqlDeletePhotoTagGlobally`. */
    method DeleteTagGlobally(tag: string)
      requires Valid()
      modifies this
      ensures Valid()
      ensures rows == DeleteTagRows(old(rows), tag)
    {
      rows := DeleteTagRows(rows, tag);
    }

    /** `sqlRenamePhotoTagGlobally`. */
    method RenameTagGlobally(tag: string, updated: string)
      requires Valid()
      modifies this
      ensures Valid()
      ensures rows == RenameTagRows(old(rows), tag, updated)
    {
      rows := RenameTagRows(rows, tag, updated);
    }
  }
}
