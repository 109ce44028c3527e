/** The one-shot SQLite to PostgreSQL load: the paged reader, the positional
    row mapper and its five frozen record types. The rendering of the bulk
    insert is in module Target and the load plan in module Load. */
module LoadData {
  import opened Values
  import opened Cursors

  /** The five frozen record dataclasses, fields in declaration order. */
  datatype Record =
    | Person(id: Value, fullName: Value, created: Value, modified: Value)
    | Genre(id: Value, name: Value, description: Value)
    | GenreFilmwork(id: Value, filmWork: Value, genre: Value, created: Value)
    | PersonFilmWork(id: Value, filmWork: Value, person: Value, role: Value, created: Value)
    | Filmwork(id: Value, title: Value, description: Value, creationDate: Value,
               rating: Value, workType: Value, created: Value, modified: Value)

  /** The class object handed to the mapper: one of the five record classes,
      or any other class. */
  datatype TableClass =
    | PersonClass | GenreClass | GenreFilmworkClass | PersonFilmWorkClass | FilmworkClass
    | OtherClass

  function ClassOf(r: Record): TableClass
  {
    match r
    case Person(_, _, _, _) => PersonClass
    case Genre(_, _, _) => GenreClass
    case GenreFilmwork(_, _, _, _) => GenreFilmworkClass
    case PersonFilmWork(_, _, _, _, _) => PersonFilmWorkClass
    case Filmwork(_, _, _, _, _, _, _, _) => FilmworkClass
  }

  /** A record's fields in declaration order. */
  function Fields(r: Record): seq<Value>
  {
    match r
    case Person(i, n, c, m) => [i, n, c, m]
    case Genre(i, n, d) => [i, n, d]
    case GenreFilmwork(i, f, g, c) => [i, f, g, c]
    case PersonFilmWork(i, f, p, ro, c) => [i, f, p, ro, c]
    case Filmwork(i, t, d, cd, ra, ty, c, m) => [i, t, d, cd, ra, ty, c, m]
  }

  /** Which raw column feeds each field of a record of class `c`: the
      reference layout the mapper is checked against. The film_work table's
      column 4 (`file_path`) has no field. */
  function SourceColumns(c: TableClass): (cols: seq<nat>)
    ensures forall k :: 0 <= k < |cols| ==> cols[k] < Width(c)
    ensures c != OtherClass ==> Width(c) - 1 in cols
  {
    match c
    case PersonClass => [0, 1, 2, 3]
    case GenreFilmworkClass => [0, 1, 2, 3]
    case GenreClass => [0, 1, 2]
    case PersonFilmWorkClass => [0, 1, 2, 3, 4]
    case FilmworkClass => [0, 1, 2, 3, 5, 6, 7, 8]
    case OtherClass => []
  }

  /** The number of columns a row must have for the mapper to index it. */
  function Width(c: TableClass): nat
  {
    match c
    case PersonClass => 4
    case GenreFilmworkClass => 4
    case GenreClass => 3
    case PersonFilmWorkClass => 5
    case FilmworkClass => 9
    case OtherClass => 0
  }

  /** The values of `row` at the positions `cols`, in that order. */
  function Select(row: Row, cols: seq<nat>): seq<Value>
    requires forall k :: 0 <= k < |cols| ==> cols[k] < |row|
  {
    seq(|cols|, i requires 0 <= i < |cols| => row[cols[i]])
  }

  /** One constructor call of the mapper: `table(fields[0], fields[1], ...)`.
      A row too short for the indices used raises IndexError; trailing
      columns are ignored. */
  function MapRow(row: Row, c: TableClass): (r: Result<Record>)
    requires c != OtherClass
    ensures r.Ok? <==> |row| >= Width(c)
    ensures r.Err? ==> r.error == IndexError
    ensures r.Ok? ==> ClassOf(r.value) == c && Fields(r.value) == Select(row, SourceColumns(c))
  {
    match c
    case PersonClass =>
      if |row| < 4 then Err(IndexError) else Ok(Person(row[0], row[1], row[2], row[3]))
    case GenreFilmworkClass =>
      if |row| < 4 then Err(IndexError) else Ok(GenreFilmwork(row[0], row[1], row[2], row[3]))
    case GenreClass =>
      if |row| < 3 then Err(IndexError) else Ok(Genre(row[0], row[1], row[2]))
    case PersonFilmWorkClass =>
      if |row| < 5 then Err(IndexError) else Ok(PersonFilmWork(row[0], row[1], row[2], row[3], row[4]))
    case FilmworkClass =>
      if |row| < 9 then Err(IndexError)
      else Ok(Filmwork(row[0], row[1], row[2], row[3], row[5], row[6], row[7], row[8]))
  }

  /** What `fill_dataclass` returns: one record per row in row order, an
      IndexError as soon as a row is too short, and an empty list for a class
      that is none of the five. */
  function Fill(data: seq<Row>, c: TableClass): (r: Result<seq<Record>>)
    ensures c == OtherClass ==> r == Ok([])
    ensures c != OtherClass ==> (r.Ok? <==> forall i :: 0 <= i < |data| ==> |data[i]| >= Width(c))
    ensures r.Err? ==> r.error == IndexError
    ensures r.Ok? && c != OtherClass ==>
              |r.value| == |data| && forall i :: 0 <= i < |data| ==> MapRow(data[i], c) == Ok(r.value[i])
  {
    if c == OtherClass || data == [] then Ok([])
    else match MapRow(data[0], c)
      case Err(e) => Err(e)
      case Ok(rec) =>
        match Fill(data[1..], c)
        case Err(e) => Err(e)
        case Ok(recs) =>
          assert forall i :: 1 <= i < |data| ==> data[i] == data[1..][i - 1];
          Ok([rec] + recs)
  }

  /** The first `n` rows have all been mapped, in order, into `result`. */
  ghost predicate Mapped(data: seq<Row>, c: TableClass, n: nat, result: seq<Record>)
    requires c != OtherClass && n <= |data|
  {
    && (forall j :: 0 <= j < n ==> |data[j]| >= Width(c))
    && |result| == n
    && (forall j :: 0 <= j < n ==> MapRow(data[j], c) == Ok(result[j]))
  }

  lemma MappedNext(data: seq<Row>, c: TableClass, i: nat, result: seq<Record>, rec: Record)
    requires c != OtherClass && i < |data| && Mapped(data, c, i, result)
    requires MapRow(data[i], c) == Ok(rec)
    ensures Mapped(data, c, i + 1, result + [rec])
  {
  }

  lemma MappedAll(data: seq<Row>, c: TableClass, result: seq<Record>)
    requires c != OtherClass && Mapped(data, c, |data|, result)
    ensures Fill(data, c) == Ok(result)
  {
    var r := Fill(data, c);
    assert r.Ok?;
    assert forall j :: 0 <= j < |data| ==> r.value[j] == result[j];
    assert r.value == result;
  }

  /** `fill_dataclass`: one branch per record class, each a loop appending
      one record per row. */
  method FillDataclass(data: seq<Row>, table: TableClass) returns (r: Result<seq<Record>>)
    ensures r == Fill(data, table)
  {
    var result: seq<Record> := [];
    if table == PersonClass || table == GenreFilmworkClass {
      for i := 0 to |data|
        invariant Mapped(data, table, i, result)
      {
        var fields := data[i];
        if |fields| < 4 {
          return Err(IndexError);
        }
        var t := if table == PersonClass then Person(fields[0], fields[1], fields[2], fields[3])
                 else GenreFilmwork(fields[0], fields[1], fields[2], fields[3]);
        MappedNext(data, table, i, result, t);
        result := result + [t];
      }
      MappedAll(data, table, result);
    }
    if table == GenreClass {
      for i := 0 to |data|
        invariant Mapped(data, table, i, result)
      {
        var fields := data[i];
        if |fields| < 3 {
          return Err(IndexError);
        }
        var t := Genre(fields[0], fields[1], fields[2]);
        MappedNext(data, table, i, result, t);
        result := result + [t];
      }
      MappedAll(data, table, result);
    }
    if table == PersonFilmWorkClass {
      for i := 0 to |data|
        invariant Mapped(data, table, i, result)
      {
        var fields := data[i];
        if |fields| < 5 {
          return Err(IndexError);
        }
        var t := PersonFilmWork(fields[0], fields[1], fields[2], fields[3], fields[4]);
        MappedNext(data, table, i, result, t);
        result := result + [t];
      }
      MappedAll(data, table, result);
    }
    if table == FilmworkClass {
      for i := 0 to |data|
        invariant Mapped(data, table, i, result)
      {
        var fields := data[i];
        if |fields| < 9 {
          return Err(IndexError);
        }
        var t := Filmwork(fields[0], fields[1], fields[2], fields[3], fields[5], fields[6], fields[7], fields[8]);
        MappedNext(data, table, i, result, t);
        result := result + [t];
      }
      MappedAll(data, table, result);
    }
    r := Ok(result);
  }

  /** The film_work mapping never looks at column 4 (`file_path`) nor past
      column 8. */
  lemma FilmworkSkipsFilePath(row: Row, filePath: Value, extra: seq<Value>)
    requires |row| >= 9
    ensures MapRow(row[4 := filePath] + extra, FilmworkClass) == MapRow(row, FilmworkClass)
  {
    var row' := row[4 := filePath] + extra;
    assert forall k :: 0 <= k < 9 && k != 4 ==> row'[k] == row[k];
  }

  /** Columns past a class's width never reach the record. */
  lemma TrailingColumnsIgnored(row: Row, c: TableClass, extra: seq<Value>)
    requires c != OtherClass && |row| >= Width(c)
    ensures MapRow(row + extra, c) == MapRow(row, c)
  {
    assert forall k :: 0 <= k < |row| ==> (row + extra)[k] == row[k];
  }

  // ---------------------------------------------------------------------
  // The paged reader

  /** Rows asked for by each `fetchmany`. */
  const PageSize: nat := 1000

  /** The pages a DB-API cursor hands out for the result `rows` when asked
      for `size` rows at a time: full pages, then the remainder. */
  function Pages(rows: seq<Row>, size: nat): seq<seq<Row>>
    requires size > 0
    decreases |rows|
  {
    if rows == [] then []
    else if |rows| <= size then [rows]
    else [rows[..size]] + Pages(rows[size..], size)
  }

  /** What the generator yields for the successive results of `fetchmany`:
      the rows of each page in order, up to the first empty page. */
  function Yielded(fetches: seq<seq<Row>>): seq<Row>
  {
    if fetches == [] || fetches[0] == [] then [] else fetches[0] + Yielded(fetches[1..])
  }

  lemma {:induction false} PagesAreBounded(rows: seq<Row>, size: nat)
    requires size > 0
    ensures forall k :: 0 <= k < |Pages(rows, size)| ==> 0 < |Pages(rows, size)[k]| <= size
    decreases |rows|
  {
    if |rows| > size {
      PagesAreBounded(rows[size..], size);
    }
  }

  lemma {:induction false} PagesFlatten(rows: seq<Row>, size: nat)
    requires size > 0
    ensures Flatten(Pages(rows, size)) == rows
    decreases |rows|
  {
    if rows == [] {
    } else if |rows| <= size {
      assert Flatten([rows]) == rows + Flatten([rows][1..]);
    } else {
      var ps := Pages(rows, size);
      PagesFlatten(rows[size..], size);
      assert ps[1..] == Pages(rows[size..], size);
      assert rows == rows[..size] + rows[size..];
    }
  }

  /** Pages as a cursor hands them out: none empty, none over `size`, and
      only the last one short. */
  ghost predicate FullPages(fs: seq<seq<Row>>, size: nat)
  {
    forall k :: 0 <= k < |fs| ==> 0 < |fs[k]| <= size && (k < |fs| - 1 ==> |fs[k]| == size)
  }

  lemma {:induction false} FullPagesArePages(fs: seq<seq<Row>>, size: nat)
    requires size > 0 && FullPages(fs, size)
    ensures Pages(Flatten(fs), size) == fs
  {
    if fs != [] {
      FullPagesArePages(fs[1..], size);
      var rows := Flatten(fs);
      assert rows == fs[0] + Flatten(fs[1..]);
      if |fs| == 1 {
        assert Flatten(fs[1..]) == [];
        assert rows == fs[0];
      } else {
        assert |Flatten(fs[1..])| > 0 by {
          assert Flatten(fs[1..]) == fs[1] + Flatten(fs[2..]);
        }
        assert rows[..size] == fs[0] && rows[size..] == Flatten(fs[1..]);
      }
    }
  }

  /** One `fetchmany` keeps the pages read so far in cursor shape. */
  lemma NextPage(fetches: seq<seq<Row>>, page: seq<Row>, before: seq<Row>, after: seq<Row>, size: nat)
    requires FullPages(fetches, size)
    requires fetches != [] && |fetches[|fetches| - 1]| < size ==> before == []
    requires before == page + after
    requires |page| == (if size < |before| then size else |before|)
    ensures page != [] ==> FullPages(fetches + [page], size)
    ensures |page| < size ==> after == []
  {
  }

  /** Once a fetch comes back empty, the pages read are the cursor's pages
      of the whole result and the rows yielded are that result. */
  lemma ReadDone(fetches: seq<seq<Row>>, all: seq<Row>)
    requires FullPages(fetches, PageSize) && Flatten(fetches) == all
    ensures Pages(all, PageSize) + [[]] == fetches + [[]] && Yielded(fetches + [[]]) == all
  {
    FullPagesArePages(fetches, PageSize);
    YieldedStopsAtFirstEmpty(fetches, []);
    assert fetches + [[]] + [] == fetches + [[]];
  }

  /** Iteration stops at the first empty page: whatever a cursor would hand
      out after it is never read, and up to it every page is read whole. */
  lemma {:induction false} YieldedStopsAtFirstEmpty(pages: seq<seq<Row>>, rest: seq<seq<Row>>)
    requires forall k :: 0 <= k < |pages| ==> pages[k] != []
    ensures Yielded(pages + [[]] + rest) == Flatten(pages)
  {
    if pages == [] {
      assert (pages + [[]] + rest)[0] == [];
    } else {
      assert (pages + [[]] + rest)[1..] == pages[1..] + [[]] + rest;
      YieldedStopsAtFirstEmpty(pages[1..], rest);
    }
  }

  /** Reader exhaustiveness: paging a full scan and reading to the first
      empty page gives back exactly the scanned rows, in scan order. */
  lemma ReadIsExhaustive(rows: seq<Row>, size: nat, rest: seq<seq<Row>>)
    requires size > 0
    ensures Yielded(Pages(rows, size) + [[]] + rest) == rows
  {
    PagesAreBounded(rows, size);
    YieldedStopsAtFirstEmpty(Pages(rows, size), rest);
    PagesFlatten(rows, size);
  }

  /** `get_data_from_table`: execute `SELECT * FROM table`, then fetch pages
      of `PageSize` rows and yield their rows until a page comes back empty.
      `fetches` records the result of every fetch. */
  method GetDataFromTable(table: string, cursor: Cursor) returns (r: Result<seq<Row>>, ghost fetches: seq<seq<Row>>)
    modifies cursor
    ensures r.Ok? <==> table in cursor.tables
    ensures r.Err? ==> r.error == QueryError && fetches == []
    ensures r.Ok? ==> r.value == cursor.tables[table].rows && cursor.pending == []
    ensures r.Ok? ==> fetches == Pages(r.value, PageSize) + [[]] && r.value == Yielded(fetches)
    ensures forall k :: 0 <= k < |fetches| ==> |fetches[k]| <= PageSize
  {
    var ok := cursor.Execute(SelectAll(table));
    if ok.Fail? {
      return Err(ok.error), [];
    }
    ghost var all := cursor.pending;
    assert all == cursor.tables[table].rows;
    var rows: seq<Row> := [];
    fetches := [];
    var results := cursor.FetchMany(PageSize);
    while results != []
      invariant rows + results + cursor.pending == all
      invariant rows == Flatten(fetches)
      invariant FullPages(fetches, PageSize)
      invariant results != [] ==> FullPages(fetches + [results], PageSize)
      invariant |results| < PageSize ==> cursor.pending == []
      decreases |cursor.pending| + |results|
    {
      FlattenAppend(fetches, results);
      fetches := fetches + [results];
      ghost var start := rows;
      for i := 0 to |results|
        invariant rows == start + results[..i]
      {
        rows := rows + [results[i]];
      }
      assert results[..|results|] == results;
      ghost var before := cursor.pending;
      results := cursor.FetchMany(PageSize);
      NextPage(fetches, results, before, cursor.pending, PageSize);
    }
    ReadDone(fetches, all);
    fetches := fetches + [[]];
    r := Ok(rows);
  }
}
