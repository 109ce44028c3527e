/** The read side of a DB-API cursor (sqlite3 or psycopg2) over a fixed set of
    tables: `execute` runs a query and `fetchmany`/`fetchone` hand out the rows
    of its result in order. */
module Cursors {
  import opened Values

  /** A table as a query sees it: its column names in physical order and the
      rows of a full scan in scan order. */
  datatype Table = Table(columns: seq<string>, rows: seq<Row>)

  /** The three query shapes the migration and its verifier send. */
  datatype Query =
    | SelectAll(table: string)     // SELECT * FROM table
    | SelectCount(table: string)   // SELECT COUNT(*) FROM table
    | SelectId(table: string)      // SELECT id FROM table

  /** Column `k` of `row`; rows of a table have one value per column. */
  function Column(row: Row, k: nat): Value
  {
    if k < |row| then row[k] else None
  }

  /** The result set of a query, or the error the store raises for an
      unknown table or column. */
  function Answer(tables: map<string, Table>, q: Query): Result<seq<Row>>
  {
    if q.table !in tables then Err(QueryError)
    else
      var t := tables[q.table];
      match q
      case SelectAll(_) => Ok(t.rows)
      case SelectCount(_) => Ok([[Int(|t.rows|)]])
      case SelectId(_) =>
        match IndexOf(t.columns, "id")
        case Err(_) => Err(QueryError)
        case Ok(k) => Ok(seq(|t.rows|, i requires 0 <= i < |t.rows| => [Column(t.rows[i], k)]))
  }

  class Cursor {
    /** The tables visible through this cursor's connection; the modelled
        passes never write through a read cursor. */
    const tables: map<string, Table>
    /** The rows of the last query's result not yet fetched. */
    var pending: seq<Row>

    constructor (tables: map<string, Table>)
      ensures this.tables == tables && pending == []
    {
      this.tables := tables;
      pending := [];
    }

    /** `execute(query)`: the cursor first drops what its last query left
        unfetched, then holds the new query's whole result; a query the
        store rejects leaves nothing to fetch. */
    method Execute(q: Query) returns (r: Outcome)
      modifies this
      ensures r.Pass? <==> Answer(tables, q).Ok?
      ensures r.Fail? ==> r.error == Answer(tables, q).error && pending == []
      ensures r.Pass? ==> pending == Answer(tables, q).value
    {
      pending := [];
      var a := Answer(tables, q);
      if a.Err? {
        return Fail(a.error);
      }
      pending := a.value;
      r := Pass;
    }

    /** `fetchmany(size)`: the next `size` rows, fewer only at the end of
        the result, none once it is exhausted. */
    method FetchMany(size: nat) returns (page: seq<Row>)
      modifies this
      ensures |page| == if size < |old(pending)| then size else |old(pending)|
      ensures old(pending) == page + pending
    {
      var n := if size < |pending| then size else |pending|;
      page := pending[..n];
      pending := pending[n..];
    }

    /** `fetchone()`: the next row, or `None` once the result is exhausted. */
    method FetchOne() returns (row: Option<Row>)
      modifies this
      ensures old(pending) == [] ==> row == Absent && pending == []
      ensures old(pending) != [] ==> row == Present(old(pending)[0]) && pending == old(pending)[1..]
    {
      if pending == [] {
        return Absent;
      }
      row := Present(pending[0]);
      pending := pending[1..];
    }
  }
}
