/** The verification pass run after a load: it maps the rows of both
    stores onto record objects, compares row counts table by table, and
    compares the objects stored under the source's ids. */
module Verifier {
  import opened Values
  import opened Cursors
  import LoadData
  import opened TableObjects

  // ---------------------------------------------------------------------
  // Field lists and timestamp normalisation

  /** The field each SQLite column is stored under, in column order. */
  function SqliteFields(k: Kind): seq<string>
  {
    match k
    case PersonKind => ["id", "full_name", "created", "modified"]
    case GenreFilmworkKind => ["id", "film_work", "genre", "created"]
    case GenreKind => ["id", "name", "description", "created", "updated"]
    case PersonFilmWorkKind => ["id", "film_work", "person", "role", "created"]
    case FilmworkKind =>
      ["id", "title", "description", "creation_date", "file_path", "rating", "type", "created", "modified"]
  }

  /** The field each PostgreSQL column is stored under, in column order. */
  function PgFields(k: Kind): seq<string>
  {
    match k
    case PersonKind => ["created", "modified", "id", "full_name"]
    case GenreFilmworkKind => ["id", "created", "film_work", "genre"]
    case GenreKind => ["id", "name", "description"]
    case PersonFilmWorkKind => ["id", "role", "created", "film_work", "person"]
    case FilmworkKind => ["created", "modified", "id", "title", "description", "creation_date", "rating", "type"]
  }

  /** The SQLite field lists are the record classes' declared fields, in
      declaration order: Filmwork's nine with `file_path` fifth. */
  lemma SqliteFieldsAreDeclared(k: Kind)
    ensures SqliteFields(k) == Declared(k)
    ensures k == FilmworkKind ==> |SqliteFields(k)| == 9 && SqliteFields(k)[4] == "file_path"
  {
  }

  /** Pairwise distinct names. */
  predicate Distinct(names: seq<string>)
  {
    forall i, j :: 0 <= i < j < |names| ==> names[i] != names[j]
  }

  /** Every PostgreSQL field list names declared fields of its class, each
      once, and includes `id`. */
  lemma PgFieldsAreDeclared(k: Kind)
    ensures Distinct(PgFields(k)) && Distinct(SqliteFields(k))
    ensures forall j :: 0 <= j < |PgFields(k)| ==> PgFields(k)[j] in Declared(k)
    ensures "id" in PgFields(k)
  {
  }

  /** The fields holding timestamps. */
  predicate Stamp(name: string)
  {
    name in ["created", "updated", "creation_date", "modified"]
  }

  /** Which store a row came from; the PostgreSQL side formats timestamps
      with `strftime("%Y-%m-%d %H:%M:%S.%f")`, given here as `fmt`. */
  datatype Side = Sqlite | Pg(fmt: int -> string)

  /** The value stored for a column: a non-`None` timestamp is cut by its
      last three characters (`[:-3]`) on the SQLite side and formatted on
      the PostgreSQL side; anything else is stored as read. Slicing a
      non-string raises TypeError; a non-datetime has no `strftime`. */
  function Normalise(side: Side, name: string, v: Value): (r: Result<Value>)
    ensures !Stamp(name) || v == None ==> r == Ok(v)
  {
    if !Stamp(name) || v == None then Ok(v)
    else match side
      case Sqlite => if v.Str? then Ok(Str(DropLast(v.s, 3))) else Err(TypeError)
      case Pg(fmt) => if v.DateTime? then Ok(Str(fmt(v.instant))) else Err(AttributeError)
  }

  /** A SQLite timestamp string loses exactly its last three characters
      (all of it when shorter); `None` and other fields stay as read. */
  lemma SqliteStampTrimmed(name: string, s: string)
    requires Stamp(name)
    ensures Normalise(Sqlite, name, Str(s)).Ok?
    ensures var t := Normalise(Sqlite, name, Str(s)).value.s;
            (|s| >= 3 ==> |t| == |s| - 3 && s == t + s[|s| - 3..]) && (|s| < 3 ==> t == "")
    ensures Normalise(Sqlite, name, None) == Ok(None)
  {
  }

  /** A PostgreSQL timestamp becomes the string `fmt` gives for it; any
      other non-`None` value in a timestamp field has no `strftime`. */
  lemma PgStampFormatted(name: string, v: Value, fmt: int -> string)
    requires Stamp(name) && v != None
    ensures v.DateTime? ==> Normalise(Pg(fmt), name, v) == Ok(Str(fmt(v.instant)))
    ensures !v.DateTime? ==> Normalise(Pg(fmt), name, v) == Err(AttributeError)
  {
  }

  // ---------------------------------------------------------------------
  // One row onto one object

  /** The inner loop: each column pops the next field name off the list
      and is stored, normalised, under it. A column left without a name is
      `pop` from an empty list, an IndexError. */
  function Assign(o: Obj, names: seq<string>, row: Row, side: Side): (r: Result<Obj>)
    ensures r.Ok? ==> r.value.kind == o.kind && o.attrs.Keys <= r.value.attrs.Keys
    decreases |row|
  {
    if row == [] then Ok(o)
    else if names == [] then Err(IndexError)
    else match Normalise(side, names[0], row[0])
      case Err(e) => Err(e)
      case Ok(v) => Assign(SetAttr(o, names[0], v), names[1..], row[1..], side)
  }

  /** A row maps when it has no more columns than names and every column
      normalises. */
  lemma {:induction false} AssignSucceeds(o: Obj, names: seq<string>, row: Row, side: Side)
    ensures Assign(o, names, row, side).Ok? <==>
              |row| <= |names| && forall i :: 0 <= i < |row| ==> Normalise(side, names[i], row[i]).Ok?
    decreases |row|
  {
    if row != [] && names != [] {
      match Normalise(side, names[0], row[0])
      case Err(_) =>
      case Ok(v) =>
        AssignSucceeds(SetAttr(o, names[0], v), names[1..], row[1..], side);
        if |row| <= |names| {
          assert forall i :: 1 <= i < |row| ==> names[1..][i - 1] == names[i] && row[1..][i - 1] == row[i];
        }
    }
  }

  /** Once every column present has a name and normalises, one column too
      many is the IndexError of `pop(0)`. */
  lemma {:induction false} AssignTooLong(o: Obj, names: seq<string>, row: Row, side: Side)
    requires |row| > |names|
    requires forall i :: 0 <= i < |names| ==> Normalise(side, names[i], row[i]).Ok?
    ensures Assign(o, names, row, side) == Err(IndexError)
    decreases |row|
  {
    if names != [] {
      assert forall i :: 0 <= i < |names[1..]| ==> names[1..][i] == names[i + 1] && row[1..][i] == row[i + 1];
      AssignTooLong(SetAttr(o, names[0], Normalise(side, names[0], row[0]).value), names[1..], row[1..], side);
    }
  }

  /** With distinct names, the i-th column's normalised value is stored
      under the i-th name; names past the row's end, and attributes not
      named, keep what they had. */
  lemma {:induction false} AssignStores(o: Obj, names: seq<string>, row: Row, side: Side)
    requires Distinct(names) && Assign(o, names, row, side).Ok?
    ensures var a := Assign(o, names, row, side).value;
            && |row| <= |names|
            && (forall i :: 0 <= i < |row| ==> Normalise(side, names[i], row[i]) == GetAttr(a, names[i]))
            && (forall i :: |row| <= i < |names| ==> GetAttr(a, names[i]) == GetAttr(o, names[i]))
            && (forall n :: n !in names ==> GetAttr(a, n) == GetAttr(o, n))
    decreases |row|
  {
    AssignSucceeds(o, names, row, side);
    if row != [] {
      var v := Normalise(side, names[0], row[0]).value;
      var o' := SetAttr(o, names[0], v);
      assert Distinct(names[1..]) by {
        forall i, j | 0 <= i < j < |names[1..]| ensures names[1..][i] != names[1..][j] {
          assert names[1..][i] == names[i + 1] && names[1..][j] == names[j + 1];
        }
      }
      AssignStores(o', names[1..], row[1..], side);
      var a := Assign(o, names, row, side).value;
      assert a == Assign(o', names[1..], row[1..], side).value;
      forall i | 0 <= i < |row| ensures Normalise(side, names[i], row[i]) == GetAttr(a, names[i]) {
        if i > 0 {
          assert names[1..][i - 1] == names[i] && row[1..][i - 1] == row[i];
        } else {
          assert names[0] !in names[1..] by {
            forall j | 0 <= j < |names[1..]| ensures names[1..][j] != names[0] {
              assert names[1..][j] == names[j + 1];
            }
          }
        }
      }
      forall i | |row| <= i < |names| ensures GetAttr(a, names[i]) == GetAttr(o, names[i]) {
        assert names[1..][i - 1] == names[i];
      }
      forall n | n !in names ensures GetAttr(a, n) == GetAttr(o, n) {
        assert n !in names[1..] by {
          forall j | 0 <= j < |names[1..]| ensures names[1..][j] != n {
            assert names[1..][j] == names[j + 1];
          }
        }
      }
    }
  }

  /** The object built for one row: a fresh object of the class, filled
      from the row. It depends on that row alone, since the field lists
      are rebuilt for every row. */
  function RowObject(row: Row, kind: Kind, names: seq<string>, side: Side): (r: Result<Obj>)
    ensures r.Ok? ==> r.value.kind == kind && "id" in r.value.attrs
  {
    Assign(New(kind), names, row, side)
  }

  /** The id-keyed map the mappers return: rows in order, each stored
      under its object's `id`, a later row replacing an earlier one with
      the same id; the first row that fails ends the mapping. */
  function Objects(data: seq<Row>, kind: Kind, names: seq<string>, side: Side): (r: Result<map<Value, Obj>>)
    ensures r.Ok? ==> |r.value| <= |data|
    ensures r.Ok? ==> forall i :: 0 <= i < |data| ==> RowObject(data[i], kind, names, side).Ok?
    decreases |data|
  {
    if data == [] then Ok(map[])
    else
      var init := data[..|data| - 1];
      match Objects(init, kind, names, side)
      case Err(e) => Err(e)
      case Ok(m) =>
        match RowObject(data[|data| - 1], kind, names, side)
        case Err(e) => Err(e)
        case Ok(o) =>
          assert forall i :: 0 <= i < |init| ==> init[i] == data[i];
          Ok(m[o.attrs["id"] := o])
  }

  /** The id of the object a mappable row gives. */
  function RowId(row: Row, kind: Kind, names: seq<string>, side: Side): Value
    requires RowObject(row, kind, names, side).Ok?
  {
    RowObject(row, kind, names, side).value.attrs["id"]
  }

  /** A row's object is stored under its id unless a later row carries
      the same id, which then replaces it. */
  lemma {:induction false} ObjectsLastWins(data: seq<Row>, i: nat, kind: Kind, names: seq<string>, side: Side)
    requires Objects(data, kind, names, side).Ok? && i < |data|
    requires forall j :: i < j < |data| ==> RowId(data[j], kind, names, side) != RowId(data[i], kind, names, side)
    ensures RowId(data[i], kind, names, side) in Objects(data, kind, names, side).value
    ensures Objects(data, kind, names, side).value[RowId(data[i], kind, names, side)]
            == RowObject(data[i], kind, names, side).value
    decreases |data|
  {
    if i < |data| - 1 {
      var init := data[..|data| - 1];
      assert forall j :: 0 <= j < |init| ==> init[j] == data[j];
      ObjectsLastWins(init, i, kind, names, side);
    }
  }

  /** Every id in the map is the id of some row. */
  lemma {:induction false} ObjectsKeys(data: seq<Row>, kind: Kind, names: seq<string>, side: Side)
    requires Objects(data, kind, names, side).Ok?
    ensures forall id :: id in Objects(data, kind, names, side).value ==>
              exists i :: 0 <= i < |data| && RowId(data[i], kind, names, side) == id
    decreases |data|
  {
    if data != [] {
      var init := data[..|data| - 1];
      assert forall j :: 0 <= j < |init| ==> init[j] == data[j];
      ObjectsKeys(init, kind, names, side);
    }
  }

  /** Once a prefix of the rows fails, the whole mapping fails the same. */
  lemma {:induction false} ObjectsPrefixFails(data: seq<Row>, n: nat, kind: Kind, names: seq<string>, side: Side)
    requires n <= |data| && Objects(data[..n], kind, names, side).Err?
    ensures Objects(data, kind, names, side) == Objects(data[..n], kind, names, side)
    decreases |data| - n
  {
    if n < |data| {
      assert data[..|data| - 1][..n] == data[..n];
      ObjectsPrefixFails(data[..|data| - 1], n, kind, names, side);
    } else {
      assert data[..n] == data;
    }
  }

  // ---------------------------------------------------------------------
  // The mappers

  /** The inner loop of both mappers: a fresh object, and each column pops
      the next field name and is set under it, normalised. */
  method FillObject(columns: Row, kind: Kind, names: seq<string>, side: Side) returns (r: Result<Obj>)
    ensures r == RowObject(columns, kind, names, side)
  {
    var fields := names;
    var table := New(kind);
    for j := 0 to |columns|
      invariant RowObject(columns, kind, names, side) == Assign(table, fields, columns[j..], side)
    {
      assert columns[j..][1..] == columns[j + 1..];
      if fields == [] {
        return Err(IndexError);
      }
      var fieldName := fields[0];
      fields := fields[1..];
      var v := Normalise(side, fieldName, columns[j]);
      if v.Err? {
        return Err(v.error);
      }
      table := SetAttr(table, fieldName, v.value);
    }
    assert columns[|columns|..] == [];
    r := Ok(table);
  }

  /** The outer loop of both mappers: each row's object is stored under
      its id; the first row that fails ends the mapping. */
  method FillObjects(data: seq<Row>, kind: Kind, names: seq<string>, side: Side)
    returns (r: Result<map<Value, Obj>>)
    ensures r == Objects(data, kind, names, side)
  {
    var result: map<Value, Obj> := map[];
    for i := 0 to |data|
      invariant Objects(data[..i], kind, names, side) == Ok(result)
    {
      var table := FillObject(data[i], kind, names, side);
      assert data[..i + 1][..i] == data[..i] && data[..i + 1][i] == data[i];
      if table.Err? {
        ObjectsPrefixFails(data, i + 1, kind, names, side);
        return Err(table.error);
      }
      result := result[table.value.attrs["id"] := table.value];
    }
    assert data[..|data|] == data;
    r := Ok(result);
  }

  /** `fill_sqlite_dataclass`. */
  method FillSqliteDataclass(data: seq<Row>, kind: Kind) returns (r: Result<map<Value, Obj>>)
    ensures r == Objects(data, kind, SqliteFields(kind), Sqlite)
  {
    r := FillObjects(data, kind, SqliteFields(kind), Sqlite);
  }

  /** `fill_pg_dataclass`. */
  method FillPgDataclass(data: seq<Row>, kind: Kind, fmt: int -> string) returns (r: Result<map<Value, Obj>>)
    ensures r == Objects(data, kind, PgFields(kind), Pg(fmt))
  {
    r := FillObjects(data, kind, PgFields(kind), Pg(fmt));
  }

  // ---------------------------------------------------------------------
  // The two tests

  /** A source table, its target table and the record class both map to. */
  datatype Pair = Pair(source: string, target: string, kind: Kind)

  /** The tables the tests visit, in the order of their dictionary. */
  const Pairs: seq<Pair> :=
    [ Pair("film_work", "content.filmwork", FilmworkKind),
      Pair("genre", "content.genre", GenreKind),
      Pair("genre_film_work", "content.genre_filmwork", GenreFilmworkKind),
      Pair("person", "content.person", PersonKind),
      Pair("person_film_work", "content.person_filmwork", PersonFilmWorkKind) ]

  /** `count_records_in_table`: `SELECT COUNT(*)` and the first column of
      its one row. */
  method CountRecordsInTable(table: string, cursor: Cursor) returns (r: Result<Value>)
    modifies cursor
    ensures table in cursor.tables ==> r == Ok(Int(|cursor.tables[table].rows|))
    ensures table !in cursor.tables ==> r == Err(QueryError)
  {
    var ok := cursor.Execute(SelectCount(table));
    if ok.Fail? {
      return Err(ok.error);
    }
    var row := cursor.FetchOne();
    assert row == Present([Int(|cursor.tables[table].rows|)]);
    r := Ok(row.value[0]);
  }

  /** One table of the count test: both counts read, then compared. */
  function CountOne(p: Pair, s: map<string, Table>, t: map<string, Table>): Outcome
  {
    if p.source !in s || p.target !in t then Fail(QueryError)
    else if |s[p.source].rows| != |t[p.target].rows| then Fail(AssertionFailed(p.source))
    else Pass
  }

  /** The count test over a list of tables: the first failure, if any. */
  function CountChecks(pairs: seq<Pair>, s: map<string, Table>, t: map<string, Table>): Outcome
  {
    if pairs == [] then Pass
    else match CountOne(pairs[0], s, t)
      case Fail(e) => Fail(e)
      case Pass => CountChecks(pairs[1..], s, t)
  }

  /** The count test passes exactly when every source table and its
      target exist and hold as many rows. */
  lemma {:induction false} CountChecksPass(pairs: seq<Pair>, s: map<string, Table>, t: map<string, Table>)
    ensures CountChecks(pairs, s, t) == Pass <==>
              forall k :: 0 <= k < |pairs| ==>
                pairs[k].source in s && pairs[k].target in t && |s[pairs[k].source].rows| == |t[pairs[k].target].rows|
  {
    if pairs != [] {
      CountChecksPass(pairs[1..], s, t);
      assert forall k :: 1 <= k < |pairs| ==> pairs[k] == pairs[1..][k - 1];
    }
  }

  /** `test_number_of_records_are_same_in_both_tables`. */
  method TestNumberOfRecords(sqlite: Cursor, pg: Cursor) returns (r: Outcome)
    modifies sqlite, pg
    ensures r == CountChecks(Pairs, sqlite.tables, pg.tables)
  {
    for i := 0 to |Pairs|
      invariant CountChecks(Pairs, sqlite.tables, pg.tables) == CountChecks(Pairs[i..], sqlite.tables, pg.tables)
    {
      var p := Pairs[i];
      assert Pairs[i..][1..] == Pairs[i + 1..];
      var sqliteRecords := CountRecordsInTable(p.source, sqlite);
      if sqliteRecords.Err? {
        return Fail(sqliteRecords.error);
      }
      var pgRecords := CountRecordsInTable(p.target, pg);
      if pgRecords.Err? {
        return Fail(pgRecords.error);
      }
      if sqliteRecords.value != pgRecords.value {
        return Fail(AssertionFailed(p.source));
      }
    }
    r := Pass;
  }

  /** What `get_all_ids_from_table` returns: the first row of
      `SELECT id`, a one-element tuple, or `None` for an empty table. */
  function FirstIdRow(tables: map<string, Table>, table: string): Result<Option<Row>>
  {
    match Answer(tables, SelectId(table))
    case Err(e) => Err(e)
    case Ok(rows) => Ok(if rows == [] then Absent else Present(rows[0]))
  }

  /** `get_all_ids_from_table`: `SELECT id`, then `fetchone()`. */
  method GetAllIdsFromTable(table: string, cursor: Cursor) returns (r: Result<Option<Row>>)
    modifies cursor
    ensures r == FirstIdRow(cursor.tables, table)
  {
    var ok := cursor.Execute(SelectId(table));
    if ok.Fail? {
      return Err(ok.error);
    }
    var row := cursor.FetchOne();
    r := Ok(row);
  }

  /** The field list of a side. */
  function FieldsOf(side: Side, kind: Kind): seq<string>
  {
    if side.Sqlite? then SqliteFields(kind) else PgFields(kind)
  }

  /** A table read in full and mapped onto objects by id. */
  function ReadObjects(tables: map<string, Table>, table: string, kind: Kind, side: Side): Result<map<Value, Obj>>
  {
    match Answer(tables, SelectAll(table))
    case Err(e) => Err(e)
    case Ok(rows) => Objects(rows, kind, FieldsOf(side, kind), side)
  }

  /** The inner loop of the content test: for each id, both objects are
      looked up (KeyError when missing) and compared. */
  function CompareIds(ids: seq<Value>, so: map<Value, Obj>, po: map<Value, Obj>, source: string): Outcome
  {
    if ids == [] then Pass
    else if ids[0] !in so || ids[0] !in po then Fail(KeyError)
    else match Eq(so[ids[0]], po[ids[0]])
      case Err(e) => Fail(e)
      case Ok(same) => if !same then Fail(AssertionFailed(source)) else CompareIds(ids[1..], so, po, source)
  }

  /** The comparison passes exactly when every id has an object on both
      sides and the two are equal. */
  lemma {:induction false} CompareIdsPass(ids: seq<Value>, so: map<Value, Obj>, po: map<Value, Obj>, source: string)
    ensures CompareIds(ids, so, po, source) == Pass <==>
              forall k :: 0 <= k < |ids| ==> ids[k] in so && ids[k] in po && Eq(so[ids[k]], po[ids[k]]) == Ok(true)
  {
    if ids != [] {
      CompareIdsPass(ids[1..], so, po, source);
      assert forall k :: 1 <= k < |ids| ==> ids[k] == ids[1..][k - 1];
    }
  }

  /** One table of the content test, as written: both tables read and
      mapped, then the ids of the single row `fetchone` returned compared;
      an empty source table makes `for id in None` a TypeError. */
  function CompareTable(p: Pair, s: map<string, Table>, t: map<string, Table>, fmt: int -> string): Outcome
  {
    match ReadObjects(s, p.source, p.kind, Sqlite)
    case Err(e) => Fail(e)
    case Ok(so) =>
      match ReadObjects(t, p.target, p.kind, Pg(fmt))
      case Err(e) => Fail(e)
      case Ok(po) =>
        match FirstIdRow(s, p.source)
        case Err(e) => Fail(e)
        case Ok(Absent) => Fail(TypeError)
        case Ok(Present(ids)) => CompareIds(ids, so, po, p.source)
  }

  /** The content test over a list of tables: the first failure, if any. */
  function ContentChecks(pairs: seq<Pair>, s: map<string, Table>, t: map<string, Table>, fmt: int -> string): Outcome
  {
    if pairs == [] then Pass
    else match CompareTable(pairs[0], s, t, fmt)
      case Fail(e) => Fail(e)
      case Pass => ContentChecks(pairs[1..], s, t, fmt)
  }

  /** The content test passes exactly when every table's comparison
      does. */
  lemma {:induction false} ContentChecksPass(pairs: seq<Pair>, s: map<string, Table>, t: map<string, Table>, fmt: int -> string)
    ensures ContentChecks(pairs, s, t, fmt) == Pass <==>
              forall k :: 0 <= k < |pairs| ==> CompareTable(pairs[k], s, t, fmt) == Pass
  {
    if pairs != [] {
      ContentChecksPass(pairs[1..], s, t, fmt);
      assert forall k :: 1 <= k < |pairs| ==> pairs[k] == pairs[1..][k - 1];
    }
  }

  /** The body of the content test's loop for one table. The generators
      are drained by the mappers one after the other, so reading each
      table whole before mapping it raises the same errors in the same
      order. */
  method CheckTable(p: Pair, sqlite: Cursor, pg: Cursor, fmt: int -> string) returns (r: Outcome)
    modifies sqlite, pg
    ensures r == CompareTable(p, sqlite.tables, pg.tables, fmt)
  {
    var sqlData;
    ghost var sqlFetches;
    sqlData, sqlFetches := LoadData.GetDataFromTable(p.source, sqlite);
    if sqlData.Err? {
      return Fail(sqlData.error);
    }
    var so := FillSqliteDataclass(sqlData.value, p.kind);
    if so.Err? {
      return Fail(so.error);
    }
    var pgData;
    ghost var pgFetches;
    pgData, pgFetches := LoadData.GetDataFromTable(p.target, pg);
    if pgData.Err? {
      return Fail(pgData.error);
    }
    var po := FillPgDataclass(pgData.value, p.kind, fmt);
    if po.Err? {
      return Fail(po.error);
    }
    var ids := GetAllIdsFromTable(p.source, sqlite);
    if ids.Err? {
      return Fail(ids.error);
    }
    if ids.value.Absent? {
      return Fail(TypeError);
    }
    var row := ids.value.value;
    for k := 0 to |row|
      invariant CompareIds(row, so.value, po.value, p.source) == CompareIds(row[k..], so.value, po.value, p.source)
    {
      assert row[k..][1..] == row[k + 1..];
      var id := row[k];
      if id !in so.value || id !in po.value {
        return Fail(KeyError);
      }
      var same := Eq(so.value[id], po.value[id]);
      if same.Err? {
        return Fail(same.error);
      }
      if !same.value {
        return Fail(AssertionFailed(p.source));
      }
    }
    r := Pass;
  }

  /** `test_column_content_is_same`. */
  method TestColumnContentIsSame(sqlite: Cursor, pg: Cursor, fmt: int -> string) returns (r: Outcome)
    modifies sqlite, pg
    ensures r == ContentChecks(Pairs, sqlite.tables, pg.tables, fmt)
  {
    for i := 0 to |Pairs|
      invariant ContentChecks(Pairs, sqlite.tables, pg.tables, fmt) == ContentChecks(Pairs[i..], sqlite.tables, pg.tables, fmt)
    {
      assert Pairs[i..][1..] == Pairs[i + 1..];
      r := CheckTable(Pairs[i], sqlite, pg, fmt);
      if r.Fail? {
        return;
      }
    }
    r := Pass;
  }

  // ---------------------------------------------------------------------
  // `fetchone` in the content test compares a single record

  /** The id of every row of a table, in scan order: what iterating over
      the whole result of `SELECT id` gives. */
  function AllIds(tables: map<string, Table>, table: string): (r: Result<seq<Value>>)
    ensures r.Ok? <==> FirstIdRow(tables, table).Ok?
    ensures r.Ok? ==> |r.value| == |tables[table].rows|
  {
    match Answer(tables, SelectId(table))
    case Err(e) => Err(e)
    case Ok(rows) => Ok(seq(|rows|, i requires 0 <= i < |rows| => Column(rows[i], 0)))
  }

  /** As written, the row `fetchone` returns holds one value, the id of the
      first source row, so the loop over it compares that record alone. */
  lemma FirstIdRowIsFirstId(tables: map<string, Table>, table: string)
    requires FirstIdRow(tables, table).Ok?
    ensures FirstIdRow(tables, table).value.Present? <==> AllIds(tables, table).value != []
    ensures FirstIdRow(tables, table).value.Present? ==>
              FirstIdRow(tables, table).value.value == [AllIds(tables, table).value[0]]
  {
  }

  /** The comparison of one table as written, for a non-empty source
      table: only the first id is looked up. */
  lemma CompareTableFirstOnly(p: Pair, s: map<string, Table>, t: map<string, Table>, fmt: int -> string)
    requires ReadObjects(s, p.source, p.kind, Sqlite).Ok? && ReadObjects(t, p.target, p.kind, Pg(fmt)).Ok?
    requires AllIds(s, p.source).Ok? && AllIds(s, p.source).value != []
    ensures CompareTable(p, s, t, fmt) ==
              CompareIds([AllIds(s, p.source).value[0]], ReadObjects(s, p.source, p.kind, Sqlite).value,
                         ReadObjects(t, p.target, p.kind, Pg(fmt)).value, p.source)
  {
    FirstIdRowIsFirstId(s, p.source);
  }

  /** As written, an empty source table makes the content test fail with a
      TypeError (`for id in None`) although there is nothing to compare;
      the corrected comparison passes. */
  lemma EmptySourceFailsContentCheck(p: Pair, s: map<string, Table>, t: map<string, Table>, fmt: int -> string)
    requires p.source in s && s[p.source].rows == [] && "id" in s[p.source].columns
    requires ReadObjects(t, p.target, p.kind, Pg(fmt)).Ok?
    ensures CompareTable(p, s, t, fmt) == Fail(TypeError)
    ensures CorrectedCompareTable(p, s, t, fmt) == Pass
  {
  }

  lemma IdAndNameAreNotStamps()
    ensures !Stamp("id") && !Stamp("name")
  {
  }

  /** A SQLite `genre` row with no description and no timestamps. */
  function SqliteGenre(id: string, name: string): Row
  {
    [Str(id), Str(name), None, None, None]
  }

  /** A `content.genre` row with no description. */
  function PgGenre(id: string, name: string): Row
  {
    [Str(id), Str(name), None]
  }

  /** A SQLite genre row maps onto a genre carrying its id and name. */
  lemma SqliteGenreRow(id: string, name: string)
    ensures var o := RowObject(SqliteGenre(id, name), GenreKind, SqliteFields(GenreKind), Sqlite);
            o.Ok? && o.value.kind == GenreKind && GetAttr(o.value, "id") == Ok(Str(id)) &&
            GetAttr(o.value, "name") == Ok(Str(name)) && GetAttr(o.value, "description") == Ok(None)
  {
    var row := SqliteGenre(id, name);
    var n := SqliteFields(GenreKind);
    assert n == ["id", "name", "description", "created", "updated"];
    var o0 := New(GenreKind);
    var o1 := SetAttr(o0, "id", Str(id));
    var o2 := SetAttr(o1, "name", Str(name));
    var o3 := SetAttr(o2, "description", None);
    var o4 := SetAttr(o3, "created", None);
    var o5 := SetAttr(o4, "updated", None);
    IdAndNameAreNotStamps();
    assert Normalise(Sqlite, "id", Str(id)) == Ok(Str(id));
    assert Normalise(Sqlite, "name", Str(name)) == Ok(Str(name));
    assert Assign(o4, n[4..], row[4..], Sqlite) == Ok(o5);
    assert Assign(o3, n[3..], row[3..], Sqlite) == Ok(o5);
    assert Assign(o2, n[2..], row[2..], Sqlite) == Ok(o5);
    assert Assign(o1, n[1..], row[1..], Sqlite) == Ok(o5);
    assert Assign(o0, n, row, Sqlite) == Ok(o5);
  }

  /** A PostgreSQL genre row maps onto a genre carrying its id and name. */
  lemma PgGenreRow(id: string, name: string, fmt: int -> string)
    ensures var o := RowObject(PgGenre(id, name), GenreKind, PgFields(GenreKind), Pg(fmt));
            o.Ok? && o.value.kind == GenreKind && GetAttr(o.value, "id") == Ok(Str(id)) &&
            GetAttr(o.value, "name") == Ok(Str(name)) && GetAttr(o.value, "description") == Ok(None)
  {
    var row := PgGenre(id, name);
    var n := PgFields(GenreKind);
    assert n == ["id", "name", "description"];
    var o0 := New(GenreKind);
    var o1 := SetAttr(o0, "id", Str(id));
    var o2 := SetAttr(o1, "name", Str(name));
    var o3 := SetAttr(o2, "description", None);
    IdAndNameAreNotStamps();
    assert Assign(o2, n[2..], row[2..], Pg(fmt)) == Ok(o3);
    assert Assign(o1, n[1..], row[1..], Pg(fmt)) == Ok(o3);
    assert Assign(o0, n, row, Pg(fmt)) == Ok(o3);
  }

  /** Two rows map onto their two objects, the second stored last. */
  lemma TwoRows(r1: Row, r2: Row, names: seq<string>, side: Side)
    requires RowObject(r1, GenreKind, names, side).Ok? && RowObject(r2, GenreKind, names, side).Ok?
    ensures Objects([r1, r2], GenreKind, names, side) ==
              Ok(map[RowId(r1, GenreKind, names, side) := RowObject(r1, GenreKind, names, side).value]
                    [RowId(r2, GenreKind, names, side) := RowObject(r2, GenreKind, names, side).value])
  {
    assert [r1, r2][..1] == [r1];
    assert [r1][..0] == [];
    assert Objects([r1], GenreKind, names, side) ==
             Ok(map[RowId(r1, GenreKind, names, side) := RowObject(r1, GenreKind, names, side).value]);
  }

  /** Two genres whose names agree in the source and the target compare
      equal. */
  lemma GenresEqual(id: string, name: string, name': string, fmt: int -> string)
    ensures var so := RowObject(SqliteGenre(id, name), GenreKind, SqliteFields(GenreKind), Sqlite);
            var po := RowObject(PgGenre(id, name'), GenreKind, PgFields(GenreKind), Pg(fmt));
            so.Ok? && po.Ok? && Eq(so.value, po.value) == Ok(name == name')
  {
    SqliteGenreRow(id, name);
    PgGenreRow(id, name', fmt);
    var so := RowObject(SqliteGenre(id, name), GenreKind, SqliteFields(GenreKind), Sqlite).value;
    var po := RowObject(PgGenre(id, name'), GenreKind, PgFields(GenreKind), Pg(fmt)).value;
    var c := Compared(GenreKind);
    assert c == ["id", "name", "description"];
    assert forall k :: 0 <= k < |c| ==> c[k] in so.attrs && c[k] in po.attrs;
    assert so.attrs["id"] == po.attrs["id"] && so.attrs["description"] == po.attrs["description"];
    assert PyEq(so.attrs[c[1]], po.attrs[c[1]]) <==> name == name';
  }

  /** The ids of a two-row SQLite genre table. */
  lemma GenreIds(s: map<string, Table>, id1: string, id2: string, n1: string, n2: string)
    requires s == map["genre" := Table(["id", "name", "description", "created", "updated"],
                                       [SqliteGenre(id1, n1), SqliteGenre(id2, n2)])]
    ensures AllIds(s, "genre") == Ok([Str(id1), Str(id2)])
  {
    var cols := s["genre"].columns;
    assert IndexOf(cols, "id") == Ok(0);
    var ids := AllIds(s, "genre").value;
    assert |ids| == 2 && ids[0] == Str(id1) && ids[1] == Str(id2);
    assert ids == [Str(id1), Str(id2)];
  }

  /** A two-row SQLite genre table read and mapped. */
  lemma SqliteGenreObjects(s: map<string, Table>, id1: string, id2: string, n1: string, n2: string)
    requires s == map["genre" := Table(["id", "name", "description", "created", "updated"],
                                       [SqliteGenre(id1, n1), SqliteGenre(id2, n2)])]
    ensures var o1 := RowObject(SqliteGenre(id1, n1), GenreKind, SqliteFields(GenreKind), Sqlite);
            var o2 := RowObject(SqliteGenre(id2, n2), GenreKind, SqliteFields(GenreKind), Sqlite);
            o1.Ok? && o2.Ok? &&
            ReadObjects(s, "genre", GenreKind, Sqlite) == Ok(map[Str(id1) := o1.value][Str(id2) := o2.value])
  {
    SqliteGenreRow(id1, n1);
    SqliteGenreRow(id2, n2);
    TwoRows(SqliteGenre(id1, n1), SqliteGenre(id2, n2), SqliteFields(GenreKind), Sqlite);
  }

  /** A two-row PostgreSQL genre table read and mapped. */
  lemma PgGenreObjects(t: map<string, Table>, id1: string, id2: string, m1: string, m2: string, fmt: int -> string)
    requires t == map["content.genre" := Table(["id", "name", "description"],
                                               [PgGenre(id1, m1), PgGenre(id2, m2)])]
    ensures var o1 := RowObject(PgGenre(id1, m1), GenreKind, PgFields(GenreKind), Pg(fmt));
            var o2 := RowObject(PgGenre(id2, m2), GenreKind, PgFields(GenreKind), Pg(fmt));
            o1.Ok? && o2.Ok? &&
            ReadObjects(t, "content.genre", GenreKind, Pg(fmt)) == Ok(map[Str(id1) := o1.value][Str(id2) := o2.value])
  {
    PgGenreRow(id1, m1, fmt);
    PgGenreRow(id2, m2, fmt);
    TwoRows(PgGenre(id1, m1), PgGenre(id2, m2), PgFields(GenreKind), Pg(fmt));
  }

  /** Comparing two ids over two-entry maps whose entries compare as
      `e1` and `e2`. */
  lemma CompareTwo(id1: Value, id2: Value, so1: Obj, so2: Obj, po1: Obj, po2: Obj, e1: bool, e2: bool, source: string)
    requires id1 != id2 && Eq(so1, po1) == Ok(e1) && Eq(so2, po2) == Ok(e2)
    ensures var so := map[id1 := so1][id2 := so2];
            var po := map[id1 := po1][id2 := po2];
            && CompareIds([id1], so, po, source) == (if e1 then Pass else Fail(AssertionFailed(source)))
            && CompareIds([id1, id2], so, po, source) == (if e1 && e2 then Pass else Fail(AssertionFailed(source)))
  {
    var so := map[id1 := so1][id2 := so2];
    var po := map[id1 := po1][id2 := po2];
    assert so[id1] == so1 && po[id1] == po1;
    assert [id1, id2][1..] == [id2] && [id1][1..] == [] && [id2][1..] == [];
  }

  /** Two genres in the source and the target, with the content test as
      written and as evidently intended: the test as written looks at the
      first genre alone, the corrected one at both. */
  lemma TwoGenres(id1: string, id2: string, n1: string, n2: string, m1: string, m2: string, fmt: int -> string)
    requires id1 != id2
    ensures var s := map["genre" := Table(["id", "name", "description", "created", "updated"],
                                          [SqliteGenre(id1, n1), SqliteGenre(id2, n2)])];
            var t := map["content.genre" := Table(["id", "name", "description"],
                                                  [PgGenre(id1, m1), PgGenre(id2, m2)])];
            && CompareTable(Pairs[1], s, t, fmt) == (if n1 == m1 then Pass else Fail(AssertionFailed("genre")))
            && CorrectedCompareTable(Pairs[1], s, t, fmt) ==
                 (if n1 == m1 && n2 == m2 then Pass else Fail(AssertionFailed("genre")))
  {
    var s := map["genre" := Table(["id", "name", "description", "created", "updated"],
                                  [SqliteGenre(id1, n1), SqliteGenre(id2, n2)])];
    var t := map["content.genre" := Table(["id", "name", "description"],
                                          [PgGenre(id1, m1), PgGenre(id2, m2)])];
    var p := Pairs[1];
    assert p == Pair("genre", "content.genre", GenreKind);
    SqliteGenreObjects(s, id1, id2, n1, n2);
    PgGenreObjects(t, id1, id2, m1, m2, fmt);
    GenreIds(s, id1, id2, n1, n2);
    GenresEqual(id1, n1, m1, fmt);
    GenresEqual(id2, n2, m2, fmt);
    CompareTableFirstOnly(p, s, t, fmt);
    CompareTwo(Str(id1), Str(id2),
               RowObject(SqliteGenre(id1, n1), GenreKind, SqliteFields(GenreKind), Sqlite).value,
               RowObject(SqliteGenre(id2, n2), GenreKind, SqliteFields(GenreKind), Sqlite).value,
               RowObject(PgGenre(id1, m1), GenreKind, PgFields(GenreKind), Pg(fmt)).value,
               RowObject(PgGenre(id2, m2), GenreKind, PgFields(GenreKind), Pg(fmt)).value,
               n1 == m1, n2 == m2, "genre");
  }

  /** A genre whose second row was migrated with the wrong name: the
      content test as written passes, the corrected one reports it. */
  lemma SecondRowUnchecked(fmt: int -> string)
    ensures var s := map["genre" := Table(["id", "name", "description", "created", "updated"],
                                          [SqliteGenre("g1", "Drama"), SqliteGenre("g2", "Comedy")])];
            var t := map["content.genre" := Table(["id", "name", "description"],
                                                  [PgGenre("g1", "Drama"), PgGenre("g2", "Horror")])];
            CompareTable(Pairs[1], s, t, fmt) == Pass &&
            CorrectedCompareTable(Pairs[1], s, t, fmt) == Fail(AssertionFailed("genre"))
  {
    TwoGenres("g1", "g2", "Drama", "Comedy", "Drama", "Horror", fmt);
  }

  /** One table of the content test as evidently intended: every id of the
      source table is compared, and an empty table passes. */
  function CorrectedCompareTable(p: Pair, s: map<string, Table>, t: map<string, Table>, fmt: int -> string): Outcome
  {
    match ReadObjects(s, p.source, p.kind, Sqlite)
    case Err(e) => Fail(e)
    case Ok(so) =>
      match ReadObjects(t, p.target, p.kind, Pg(fmt))
      case Err(e) => Fail(e)
      case Ok(po) =>
        match AllIds(s, p.source)
        case Err(e) => Fail(e)
        case Ok(ids) => CompareIds(ids, so, po, p.source)
  }

  /** The corrected comparison passes exactly when both tables read and map,
      and every source row's id has an object on both sides and the two are
      equal. */
  lemma CorrectedCompareTablePass(p: Pair, s: map<string, Table>, t: map<string, Table>, fmt: int -> string)
    ensures CorrectedCompareTable(p, s, t, fmt) == Pass <==>
              var so := ReadObjects(s, p.source, p.kind, Sqlite);
              var po := ReadObjects(t, p.target, p.kind, Pg(fmt));
              var ids := AllIds(s, p.source);
              so.Ok? && po.Ok? && ids.Ok? &&
              forall k :: 0 <= k < |ids.value| ==>
                ids.value[k] in so.value && ids.value[k] in po.value && Eq(so.value[ids.value[k]], po.value[ids.value[k]]) == Ok(true)
  {
    var so := ReadObjects(s, p.source, p.kind, Sqlite);
    var po := ReadObjects(t, p.target, p.kind, Pg(fmt));
    var ids := AllIds(s, p.source);
    if so.Ok? && po.Ok? && ids.Ok? {
      CompareIdsPass(ids.value, so.value, po.value, p.source);
    }
  }

  /** The corrected comparison is stronger than the one as written on every
      non-empty source table. */
  lemma CorrectedImpliesAsWritten(p: Pair, s: map<string, Table>, t: map<string, Table>, fmt: int -> string)
    requires CorrectedCompareTable(p, s, t, fmt) == Pass
    requires p.source in s && s[p.source].rows != []
    ensures CompareTable(p, s, t, fmt) == Pass
  {
    CorrectedCompareTablePass(p, s, t, fmt);
    var so := ReadObjects(s, p.source, p.kind, Sqlite).value;
    var po := ReadObjects(t, p.target, p.kind, Pg(fmt)).value;
    var ids := AllIds(s, p.source).value;
    CompareTableFirstOnly(p, s, t, fmt);
    CompareIdsPass([ids[0]], so, po, p.source);
  }

  /** The content test as evidently intended, over a list of tables. */
  function CorrectedContentChecks(pairs: seq<Pair>, s: map<string, Table>, t: map<string, Table>, fmt: int -> string): Outcome
  {
    if pairs == [] then Pass
    else match CorrectedCompareTable(pairs[0], s, t, fmt)
      case Fail(e) => Fail(e)
      case Pass => CorrectedContentChecks(pairs[1..], s, t, fmt)
  }

  /** The corrected content test passes exactly when every table's corrected
      comparison does. */
  lemma {:induction false} CorrectedContentChecksPass(pairs: seq<Pair>, s: map<string, Table>, t: map<string, Table>, fmt: int -> string)
    ensures CorrectedContentChecks(pairs, s, t, fmt) == Pass <==>
              forall k :: 0 <= k < |pairs| ==> CorrectedCompareTable(pairs[k], s, t, fmt) == Pass
  {
    if pairs != [] {
      CorrectedContentChecksPass(pairs[1..], s, t, fmt);
      assert forall k :: 1 <= k < |pairs| ==> pairs[k] == pairs[1..][k - 1];
    }
  }
}
