/** The earlier stand-alone copy of the reader and the mapper: the same
    paged loop over a module-level cursor, and a mapper into the script's
    own five record classes. */
module MigrationsScript {
  import opened Values
  import opened Cursors
  import LoadData

  /** The script's records. Their annotations say `str`, which Python does
      not enforce, so the fields hold whatever the cursor returned. */
  datatype Record =
    | Person(id: Value, fullName: Value, created: Value, modified: Value)
    | Genre(id: Value, name: Value, description: Value)
    | GenreFilmwork(id: Value, filmWork: Value, genre: Value, created: Value)
    | PersonFilmWork(id: Value, filmWork: Value, person: Value, role: Value, created: Value)
    | Filmwork(id: Value, title: Value, description: Value, creationDate: Value,
               rating: Value, workType: Value, created: Value, modified: Value)

  /** The record of the loader's class with the same name and fields. */
  function AsLoaderRecord(r: Record): (l: LoadData.Record)
    ensures l.id == r.id
  {
    match r
    case Person(i, n, c, m) => LoadData.Person(i, n, c, m)
    case Genre(i, n, d) => LoadData.Genre(i, n, d)
    case GenreFilmwork(i, f, g, c) => LoadData.GenreFilmwork(i, f, g, c)
    case PersonFilmWork(i, f, p, ro, c) => LoadData.PersonFilmWork(i, f, p, ro, c)
    case Filmwork(i, t, d, cd, ra, ty, c, m) => LoadData.Filmwork(i, t, d, cd, ra, ty, c, m)
  }

  /** The first `n` rows have been mapped into `result`, record for record
      as the loader's mapper maps them. */
  ghost predicate MappedAsLoader(data: seq<Row>, c: LoadData.TableClass, n: nat, result: seq<Record>)
    requires c != LoadData.OtherClass && n <= |data|
  {
    && (forall j :: 0 <= j < n ==> |data[j]| >= LoadData.Width(c))
    && |result| == n
    && (forall j :: 0 <= j < n ==> LoadData.MapRow(data[j], c) == Ok(AsLoaderRecord(result[j])))
  }

  lemma MappedAsLoaderNext(data: seq<Row>, c: LoadData.TableClass, i: nat, result: seq<Record>, rec: Record)
    requires c != LoadData.OtherClass && i < |data| && MappedAsLoader(data, c, i, result)
    requires LoadData.MapRow(data[i], c) == Ok(AsLoaderRecord(rec))
    ensures MappedAsLoader(data, c, i + 1, result + [rec])
  {
  }

  lemma MappedAsLoaderDone(data: seq<Row>, c: LoadData.TableClass, result: seq<Record>)
    requires c != LoadData.OtherClass && MappedAsLoader(data, c, |data|, result)
    ensures LoadData.Fill(data, c).Ok?
    ensures |LoadData.Fill(data, c).value| == |result|
    ensures forall j :: 0 <= j < |result| ==> LoadData.Fill(data, c).value[j] == AsLoaderRecord(result[j])
  {
  }

  /** The script's `fill_dataclass`: the loader's branches and loops over
      its own classes. It maps every input as the loader's mapper does:
      the same error, or the same records in the same order. */
  method FillDataclass(data: seq<Row>, table: LoadData.TableClass) returns (r: Result<seq<Record>>)
    ensures r.Ok? <==> LoadData.Fill(data, table).Ok?
    ensures r.Err? ==> r.error == LoadData.Fill(data, table).error
    ensures r.Ok? ==> |r.value| == |LoadData.Fill(data, table).value|
    ensures r.Ok? ==> forall j :: 0 <= j < |r.value| ==> AsLoaderRecord(r.value[j]) == LoadData.Fill(data, table).value[j]
  {
    var result: seq<Record> := [];
    if table == LoadData.PersonClass || table == LoadData.GenreFilmworkClass {
      for i := 0 to |data|
        invariant MappedAsLoader(data, table, i, result)
      {
        var fields := data[i];
        if |fields| < 4 {
          return Err(IndexError);
        }
        var t := if table == LoadData.PersonClass then Person(fields[0], fields[1], fields[2], fields[3])
                 else GenreFilmwork(fields[0], fields[1], fields[2], fields[3]);
        MappedAsLoaderNext(data, table, i, result, t);
        result := result + [t];
      }
      MappedAsLoaderDone(data, table, result);
    }
    if table == LoadData.GenreClass {
      for i := 0 to |data|
        invariant MappedAsLoader(data, table, i, result)
      {
        var fields := data[i];
        if |fields| < 3 {
          return Err(IndexError);
        }
        var t := Genre(fields[0], fields[1], fields[2]);
        MappedAsLoaderNext(data, table, i, result, t);
        result := result + [t];
      }
      MappedAsLoaderDone(data, table, result);
    }
    if table == LoadData.PersonFilmWorkClass {
      for i := 0 to |data|
        invariant MappedAsLoader(data, table, i, result)
      {
        var fields := data[i];
        if |fields| < 5 {
          return Err(IndexError);
        }
        var t := PersonFilmWork(fields[0], fields[1], fields[2], fields[3], fields[4]);
        MappedAsLoaderNext(data, table, i, result, t);
        result := result + [t];
      }
      MappedAsLoaderDone(data, table, result);
    }
    if table == LoadData.FilmworkClass {
      for i := 0 to |data|
        invariant MappedAsLoader(data, table, i, result)
      {
        var fields := data[i];
        if |fields| < 9 {
          return Err(IndexError);
        }
        var t := Filmwork(fields[0], fields[1], fields[2], fields[3], fields[5], fields[6], fields[7], fields[8]);
        MappedAsLoaderNext(data, table, i, result, t);
        result := result + [t];
      }
      MappedAsLoaderDone(data, table, result);
    }
    r := Ok(result);
  }

  /** The script's module state: the cursor opened at import time. */
  class Script {
    const cur: Cursor

    constructor (cur: Cursor)
      ensures this.cur == cur
    {
      this.cur := cur;
    }

    /** The script's `get_data_from_table`, over the module-level cursor:
        the loader's paged loop, so it yields exactly the table's rows in
        scan order, fetched in pages of at most 1000. */
    method GetDataFromTable(table: string) returns (r: Result<seq<Row>>, ghost fetches: seq<seq<Row>>)
      modifies cur
      ensures r.Ok? <==> table in cur.tables
      ensures r.Err? ==> r.error == QueryError
      ensures r.Ok? ==> r.value == cur.tables[table].rows && r.value == LoadData.Yielded(fetches)
      ensures forall k :: 0 <= k < |fetches| ==> |fetches[k]| <= LoadData.PageSize
    {
      r, fetches := LoadData.GetDataFromTable(table, cur);
    }
  }
}
