/** `load_from_sqlite`: read the five source tables, map them to records,
    empty the target tables and send one conflict-skipping bulk insert per
    record kind. */
module Load {
  import opened Values
  import opened Cursors
  import opened LoadData
  import opened Target

  // ---------------------------------------------------------------------
  // Column lists

  const PersonNames: seq<string> := ["id", "full_name", "created", "modified"]
  const FilmworkNames: seq<string> :=
    ["id", "title", "description", "creation_date", "rating", "type", "created", "modified"]
  const GenreNames: seq<string> := ["id", "name", "description"]
  const PersonFilmworkNames: seq<string> := ["id", "film_work_id", "person_id", "role", "created"]
  const GenreFilmworkNames: seq<string> := ["id", "film_work_id", "genre_id", "created"]

  /** The column list text of each of the five inserts. */
  datatype ColumnLists = ColumnLists(person: string, filmwork: string, genre: string,
                                     personFilmwork: string, genreFilmwork: string)

  /** The column lists `load_from_sqlite` writes, joined with ", ". */
  const LoadColumns: ColumnLists :=
    ColumnLists(Join(", ", PersonNames), Join(", ", FilmworkNames), Join(", ", GenreNames),
                Join(", ", PersonFilmworkNames), Join(", ", GenreFilmworkNames))

  // ---------------------------------------------------------------------
  // Extract

  /** The records read from the five source tables. */
  datatype Batch = Batch(persons: seq<Record>, genres: seq<Record>, filmWorks: seq<Record>,
                         personFilmWorks: seq<Record>, genreFilmWorks: seq<Record>)

  /** `fill_dataclass(get_data_from_table(name, cursor), c)` over the source
      tables. The generator runs its query only when first iterated, and
      `fill_dataclass` iterates it only for the five record classes, so for
      any other class nothing is queried and the result is `[]`. */
  function ReadRecords(tables: map<string, Table>, name: string, c: TableClass): Result<seq<Record>>
  {
    if c == OtherClass then Ok([])
    else if name !in tables then Err(QueryError)
    else Fill(tables[name].rows, c)
  }

  /** The extract half of `load_from_sqlite`: the five tables read and
      mapped in the source's order, stopping at the first error. */
  function Extract(tables: map<string, Table>): Result<Batch>
  {
    match ReadRecords(tables, "person", PersonClass)
    case Err(e) => Err(e)
    case Ok(persons) =>
      match ReadRecords(tables, "genre", GenreClass)
      case Err(e) => Err(e)
      case Ok(genres) =>
        match ReadRecords(tables, "film_work", FilmworkClass)
        case Err(e) => Err(e)
        case Ok(filmWorks) =>
          match ReadRecords(tables, "person_film_work", PersonFilmWorkClass)
          case Err(e) => Err(e)
          case Ok(personFilmWorks) =>
            match ReadRecords(tables, "genre_film_work", GenreFilmworkClass)
            case Err(e) => Err(e)
            case Ok(genreFilmWorks) => Ok(Batch(persons, genres, filmWorks, personFilmWorks, genreFilmWorks))
  }

  /** The tuple comprehension of each kind: the record's fields in
      declaration order. */
  function Tuples(records: seq<Record>): seq<Row>
  {
    seq(|records|, i requires 0 <= i < |records| => Fields(records[i]))
  }

  // ---------------------------------------------------------------------
  // The plan and its execution

  function Truncates(): seq<Statement>
  {
    [ TruncateCascade("person"), TruncateCascade("filmwork"), TruncateCascade("genre") ]
  }

  /** One bulk insert per record kind; the column texts are a parameter
      because only rendering reads them, and `load_from_sqlite` passes
      `LoadColumns`. */
  function Inserts(b: Batch, cols: ColumnLists): seq<Statement>
  {
    [ InsertIgnore("Person", cols.person, Tuples(b.persons)),
      InsertIgnore("filmwork", cols.filmwork, Tuples(b.filmWorks)),
      InsertIgnore("genre", cols.genre, Tuples(b.genres)),
      InsertIgnore("person_filmwork", cols.personFilmwork, Tuples(b.personFilmWorks)),
      InsertIgnore("genre_filmwork", cols.genreFilmwork, Tuples(b.genreFilmWorks)) ]
  }

  /** The statements `load_from_sqlite` sends, in order. */
  function Plan(b: Batch, cols: ColumnLists): seq<Statement>
  {
    Truncates() + Inserts(b, cols)
  }

  /** What sending statements one after the other does: the final store,
      how many statements were sent, and the first failure, if any, which
      ends the run as the raised exception does. */
  datatype Trace = Trace(store: Store, sent: nat, outcome: Outcome)

  function Exec(stmts: seq<Statement>, store: Store, cascade: map<string, set<string>>): (t: Trace)
    ensures t.sent <= |stmts|
    ensures t.outcome == Pass ==> t.sent == |stmts|
  {
    if stmts == [] then Trace(store, 0, Pass)
    else match Apply(stmts[0], store, cascade)
      case Err(e) => Trace(store, 1, Fail(e))
      case Ok(s) =>
        var t := Exec(stmts[1..], s, cascade);
        Trace(t.store, t.sent + 1, t.outcome)
  }

  /** A failed run ends at the statement that raised: every statement
      before it passed, the store is what they left, and the failing
      statement is the one the store rejected with that error. */
  lemma {:induction false} ExecStopsAtFailure(stmts: seq<Statement>, store: Store, cascade: map<string, set<string>>)
    ensures var t := Exec(stmts, store, cascade);
            t.outcome.Fail? ==>
              1 <= t.sent
              && var before := Exec(stmts[..t.sent - 1], store, cascade);
                 before.outcome == Pass && before.store == t.store
                 && Apply(stmts[t.sent - 1], before.store, cascade) == Err(t.outcome.error)
  {
    if stmts != [] {
      var t := Exec(stmts, store, cascade);
      match Apply(stmts[0], store, cascade)
      case Err(e) =>
        assert stmts[..0] == [];
      case Ok(s) =>
        ExecStopsAtFailure(stmts[1..], s, cascade);
        var u := Exec(stmts[1..], s, cascade);
        if t.outcome.Fail? {
          assert stmts[1..][..u.sent - 1] == stmts[..t.sent - 1][1..];
          assert stmts[1..][u.sent - 1] == stmts[t.sent - 1];
        }
    }
  }

  // ---------------------------------------------------------------------
  // Every planned insert renders

  /** Splitting a column list at ',' gives one piece per column name. */
  lemma ColumnCount(names: seq<string>)
    requires names != [] && forall k :: 0 <= k < |names| ==> ',' !in names[k]
    ensures |Split(Join(", ", names), ',')| == |names|
  {
    SplitJoinedNames(names);
  }

  // Each column list names as many columns as the mapper fills fields.

  lemma PersonArity()
    ensures |Split(LoadColumns.person, ',')| == |SourceColumns(PersonClass)|
  {
    ColumnCount(PersonNames);
  }

  lemma FilmworkArity()
    ensures |Split(LoadColumns.filmwork, ',')| == |SourceColumns(FilmworkClass)|
  {
    ColumnCount(FilmworkNames);
  }

  lemma GenreArity()
    ensures |Split(LoadColumns.genre, ',')| == |SourceColumns(GenreClass)|
  {
    ColumnCount(GenreNames);
  }

  lemma PersonFilmworkArity()
    ensures |Split(LoadColumns.personFilmwork, ',')| == |SourceColumns(PersonFilmWorkClass)|
  {
    ColumnCount(PersonFilmworkNames);
  }

  lemma GenreFilmworkArity()
    ensures |Split(LoadColumns.genreFilmwork, ',')| == |SourceColumns(GenreFilmworkClass)|
  {
    ColumnCount(GenreFilmworkNames);
  }

  /** Every record is of class `c`, with one field per source column. */
  ghost predicate Shaped(records: seq<Record>, c: TableClass)
  {
    forall i :: 0 <= i < |records| ==> ClassOf(records[i]) == c && |Fields(records[i])| == |SourceColumns(c)|
  }

  lemma ReadRecordsShaped(tables: map<string, Table>, name: string, c: TableClass)
    requires c != OtherClass && ReadRecords(tables, name, c).Ok?
    ensures Shaped(ReadRecords(tables, name, c).value, c)
  {
    var rows := tables[name].rows;
    var recs := ReadRecords(tables, name, c).value;
    forall i | 0 <= i < |recs| ensures ClassOf(recs[i]) == c && |Fields(recs[i])| == |SourceColumns(c)| {
      assert MapRow(rows[i], c) == Ok(recs[i]);
    }
  }

  /** Every record kind of an extracted batch has the shape of its class. */
  ghost predicate WellShaped(b: Batch)
  {
    Shaped(b.persons, PersonClass) && Shaped(b.genres, GenreClass) && Shaped(b.filmWorks, FilmworkClass)
    && Shaped(b.personFilmWorks, PersonFilmWorkClass) && Shaped(b.genreFilmWorks, GenreFilmworkClass)
  }

  lemma ExtractWellShaped(tables: map<string, Table>)
    requires Extract(tables).Ok?
    ensures WellShaped(Extract(tables).value)
  {
    ReadRecordsShaped(tables, "person", PersonClass);
    ReadRecordsShaped(tables, "genre", GenreClass);
    ReadRecordsShaped(tables, "film_work", FilmworkClass);
    ReadRecordsShaped(tables, "person_film_work", PersonFilmWorkClass);
    ReadRecordsShaped(tables, "genre_film_work", GenreFilmworkClass);
  }

  lemma ShapedConforms(records: seq<Record>, c: TableClass, columns: string)
    requires Shaped(records, c) && |Split(columns, ',')| == |SourceColumns(c)|
    ensures Conforms(columns, Tuples(records))
  {
  }

  /** Every insert of the batch has one value per column `cols` names. */
  ghost predicate ConformsTo(b: Batch, cols: ColumnLists)
  {
    && Conforms(cols.person, Tuples(b.persons))
    && Conforms(cols.filmwork, Tuples(b.filmWorks))
    && Conforms(cols.genre, Tuples(b.genres))
    && Conforms(cols.personFilmwork, Tuples(b.personFilmWorks))
    && Conforms(cols.genreFilmwork, Tuples(b.genreFilmWorks))
  }

  /** Every insert planned for a well-shaped batch has one value per
      named column. */
  lemma InsertsConform(b: Batch)
    requires WellShaped(b)
    ensures ConformsTo(b, LoadColumns)
  {
    PersonArity();
    ShapedConforms(b.persons, PersonClass, LoadColumns.person);
    FilmworkArity();
    ShapedConforms(b.filmWorks, FilmworkClass, LoadColumns.filmwork);
    GenreArity();
    ShapedConforms(b.genres, GenreClass, LoadColumns.genre);
    PersonFilmworkArity();
    ShapedConforms(b.personFilmWorks, PersonFilmWorkClass, LoadColumns.personFilmwork);
    GenreFilmworkArity();
    ShapedConforms(b.genreFilmWorks, GenreFilmworkClass, LoadColumns.genreFilmwork);
  }

  /** Every insert the load plans for an extracted batch has one value
      per named column, so mogrify's arity check never fires. */
  lemma ExtractedBatchConforms(tables: map<string, Table>)
    requires Extract(tables).Ok?
    ensures ConformsTo(Extract(tables).value, LoadColumns)
  {
    ExtractWellShaped(tables);
    InsertsConform(Extract(tables).value);
  }

  // ---------------------------------------------------------------------
  // load_from_sqlite

  /** A run continued by one more statement: a failed run stays as it is,
      as the raised exception skips the rest of the load. */
  function Then(t: Trace, s: Statement, cascade: map<string, set<string>>): (u: Trace)
    ensures t.sent <= u.sent <= t.sent + 1
  {
    if t.outcome.Fail? then t
    else match Apply(s, t.store, cascade)
      case Err(e) => Trace(t.store, t.sent + 1, Fail(e))
      case Ok(next) => Trace(next, t.sent + 1, Pass)
  }

  /** `Then` folded over a sequence of statements. */
  function Steps(stmts: seq<Statement>, t: Trace, cascade: map<string, set<string>>): (u: Trace)
    ensures t.sent <= u.sent <= t.sent + |stmts|
  {
    if stmts == [] then t else Steps(stmts[1..], Then(t, stmts[0], cascade), cascade)
  }

  lemma {:induction false} StepsAfterFailure(stmts: seq<Statement>, t: Trace, cascade: map<string, set<string>>)
    requires t.outcome.Fail?
    ensures Steps(stmts, t, cascade) == t
  {
    if stmts != [] {
      StepsAfterFailure(stmts[1..], t, cascade);
    }
  }

  /** A statement sent from a run that has not failed continues it as the
      target's answer says. */
  lemma Step(t: Trace, s: Statement, cascade: map<string, set<string>>, after: Store, r: Outcome)
    requires t.outcome == Pass
    requires Apply(s, t.store, cascade).Ok? ==> r == Pass && after == Apply(s, t.store, cascade).value
    requires Apply(s, t.store, cascade).Err? ==> r == Fail(Apply(s, t.store, cascade).error) && after == t.store
    ensures Then(t, s, cascade) == Trace(after, t.sent + 1, r)
  {
  }

  /** The fold over an eight-statement plan, spelled out. */
  lemma StepsOfEight(plan: seq<Statement>, t: Trace, cascade: map<string, set<string>>)
    requires |plan| == 8
    ensures Steps(plan, t, cascade)
            == Then(Then(Then(Then(Then(Then(Then(Then(t, plan[0], cascade), plan[1], cascade), plan[2], cascade),
                    plan[3], cascade), plan[4], cascade), plan[5], cascade), plan[6], cascade), plan[7], cascade)
  {
    var q0, t0 := plan, t;
    var q1, t1 := q0[1..], Then(t0, q0[0], cascade);
    assert q0[0] == plan[0] && Steps(q0, t0, cascade) == Steps(q1, t1, cascade);
    var q2, t2 := q1[1..], Then(t1, q1[0], cascade);
    assert q1[0] == plan[1] && Steps(q1, t1, cascade) == Steps(q2, t2, cascade);
    var q3, t3 := q2[1..], Then(t2, q2[0], cascade);
    assert q2[0] == plan[2] && Steps(q2, t2, cascade) == Steps(q3, t3, cascade);
    var q4, t4 := q3[1..], Then(t3, q3[0], cascade);
    assert q3[0] == plan[3] && Steps(q3, t3, cascade) == Steps(q4, t4, cascade);
    var q5, t5 := q4[1..], Then(t4, q4[0], cascade);
    assert q4[0] == plan[4] && Steps(q4, t4, cascade) == Steps(q5, t5, cascade);
    var q6, t6 := q5[1..], Then(t5, q5[0], cascade);
    assert q5[0] == plan[5] && Steps(q5, t5, cascade) == Steps(q6, t6, cascade);
    var q7, t7 := q6[1..], Then(t6, q6[0], cascade);
    assert q6[0] == plan[6] && Steps(q6, t6, cascade) == Steps(q7, t7, cascade);
    var q8, t8 := q7[1..], Then(t7, q7[0], cascade);
    assert q7[0] == plan[7] && Steps(q7, t7, cascade) == Steps(q8, t8, cascade);
    assert q8 == [];
  }

  /** Running statements one by one from a run that has sent `n` of them
      is running them afresh, shifted by `n`. */
  lemma {:induction false} StepsIsExec(stmts: seq<Statement>, store: Store, n: nat, cascade: map<string, set<string>>)
    ensures var e := Exec(stmts, store, cascade);
            Steps(stmts, Trace(store, n, Pass), cascade) == Trace(e.store, e.sent + n, e.outcome)
  {
    if stmts != [] {
      match Apply(stmts[0], store, cascade)
      case Err(err) =>
        StepsAfterFailure(stmts[1..], Trace(store, n + 1, Fail(err)), cascade);
      case Ok(next) =>
        StepsIsExec(stmts[1..], next, n + 1, cascade);
    }
  }

  /** The three truncates render as the statements the source sends. */
  lemma TruncateTexts(quote: Value -> string)
    ensures Text(TruncateCascade("person"), quote) == Ok("TRUNCATE content.person CASCADE")
    ensures Text(TruncateCascade("filmwork"), quote) == Ok("TRUNCATE content.filmwork CASCADE")
    ensures Text(TruncateCascade("genre"), quote) == Ok("TRUNCATE content.genre CASCADE")
  {
    assert "TRUNCATE content." + "person" + " CASCADE" == "TRUNCATE content.person CASCADE";
    assert "TRUNCATE content." + "filmwork" + " CASCADE" == "TRUNCATE content.filmwork CASCADE";
    assert "TRUNCATE content." + "genre" + " CASCADE" == "TRUNCATE content.genre CASCADE";
  }

  /** `get_data_from_table` followed by `fill_dataclass`. */
  method ReadTable(name: string, c: TableClass, sqlite: Cursor) returns (r: Result<seq<Record>>)
    modifies sqlite
    ensures r == ReadRecords(sqlite.tables, name, c)
    ensures c == OtherClass ==> r == Ok([]) && sqlite.pending == old(sqlite.pending)
  {
    if c == OtherClass {
      return Ok([]);
    }
    var rows;
    ghost var fetches;
    rows, fetches := GetDataFromTable(name, sqlite);
    if rows.Err? {
      return Err(rows.error);
    }
    r := FillDataclass(rows.value, c);
  }

  /** The five reads of `load_from_sqlite`, in the source's order. */
  method ReadBatch(sqlite: Cursor) returns (r: Result<Batch>)
    modifies sqlite
    ensures r == Extract(sqlite.tables)
  {
    var persons := ReadTable("person", PersonClass, sqlite);
    if persons.Err? {
      return Err(persons.error);
    }
    var genres := ReadTable("genre", GenreClass, sqlite);
    if genres.Err? {
      return Err(genres.error);
    }
    var filmWorks := ReadTable("film_work", FilmworkClass, sqlite);
    if filmWorks.Err? {
      return Err(filmWorks.error);
    }
    var personFilmWorks := ReadTable("person_film_work", PersonFilmWorkClass, sqlite);
    if personFilmWorks.Err? {
      return Err(personFilmWorks.error);
    }
    var genreFilmWorks := ReadTable("genre_film_work", GenreFilmworkClass, sqlite);
    if genreFilmWorks.Err? {
      return Err(genreFilmWorks.error);
    }
    r := Ok(Batch(persons.value, genres.value, filmWorks.value, personFilmWorks.value, genreFilmWorks.value));
  }

  /** The write half of `load_from_sqlite`: three truncates, then one
      bulk insert per record kind, stopping at the first statement the
      target rejects. */
  method WriteBatch(b: Batch, cols: ColumnLists, pg: PgCursor) returns (r: Outcome)
    requires ConformsTo(b, cols)
    modifies pg
    ensures var t := Steps(Plan(b, cols), Trace(old(pg.store), 0, Pass), pg.cascade);
            r == t.outcome && pg.store == t.store
  {
    TruncateTexts(pg.quote);
    StepsOfEight(Plan(b, cols), Trace(pg.store, 0, Pass), pg.cascade);
    ghost var t := Trace(pg.store, 0, Pass);
    r := pg.Execute("TRUNCATE content.person CASCADE", TruncateCascade("person"));
    Step(t, TruncateCascade("person"), pg.cascade, pg.store, r);
    t := Trace(pg.store, t.sent + 1, r);
    if r.Fail? {
      return;
    }
    r := pg.Execute("TRUNCATE content.filmwork CASCADE", TruncateCascade("filmwork"));
    Step(t, TruncateCascade("filmwork"), pg.cascade, pg.store, r);
    t := Trace(pg.store, t.sent + 1, r);
    if r.Fail? {
      return;
    }
    r := pg.Execute("TRUNCATE content.genre CASCADE", TruncateCascade("genre"));
    Step(t, TruncateCascade("genre"), pg.cascade, pg.store, r);
    t := Trace(pg.store, t.sent + 1, r);
    if r.Fail? {
      return;
    }

    r := ExecuteMigration("Person", cols.person, Tuples(b.persons), pg);
    Step(t, InsertIgnore("Person", cols.person, Tuples(b.persons)), pg.cascade, pg.store, r);
    t := Trace(pg.store, t.sent + 1, r);
    if r.Fail? {
      return;
    }
    r := ExecuteMigration("filmwork", cols.filmwork, Tuples(b.filmWorks), pg);
    Step(t, InsertIgnore("filmwork", cols.filmwork, Tuples(b.filmWorks)), pg.cascade, pg.store, r);
    t := Trace(pg.store, t.sent + 1, r);
    if r.Fail? {
      return;
    }
    r := ExecuteMigration("genre", cols.genre, Tuples(b.genres), pg);
    Step(t, InsertIgnore("genre", cols.genre, Tuples(b.genres)), pg.cascade, pg.store, r);
    t := Trace(pg.store, t.sent + 1, r);
    if r.Fail? {
      return;
    }
    r := ExecuteMigration("person_filmwork", cols.personFilmwork, Tuples(b.personFilmWorks), pg);
    Step(t, InsertIgnore("person_filmwork", cols.personFilmwork, Tuples(b.personFilmWorks)), pg.cascade, pg.store, r);
    t := Trace(pg.store, t.sent + 1, r);
    if r.Fail? {
      return;
    }
    r := ExecuteMigration("genre_filmwork", cols.genreFilmwork, Tuples(b.genreFilmWorks), pg);
    Step(t, InsertIgnore("genre_filmwork", cols.genreFilmwork, Tuples(b.genreFilmWorks)), pg.cascade, pg.store, r);
    t := Trace(pg.store, t.sent + 1, r);
    if r.Fail? {
      return;
    }
  }

  /** The whole load: a failed read leaves the target untouched; otherwise
      the target sees the planned statements in order up to the first that
      fails, and ends as running the plan says. */
  method LoadFromSqlite(sqlite: Cursor, pg: PgCursor) returns (r: Outcome)
    modifies sqlite, pg
    ensures Extract(sqlite.tables).Err? ==>
              r == Fail(Extract(sqlite.tables).error) && pg.store == old(pg.store)
    ensures Extract(sqlite.tables).Ok? ==>
              var t := Exec(Plan(Extract(sqlite.tables).value, LoadColumns), old(pg.store), pg.cascade);
              r == t.outcome && pg.store == t.store
  {
    var batch := ReadBatch(sqlite);
    if batch.Err? {
      return Fail(batch.error);
    }
    ExtractedBatchConforms(sqlite.tables);
    r := WriteBatch(batch.value, LoadColumns, pg);
    StepsIsExec(Plan(batch.value, LoadColumns), old(pg.store), 0, pg.cascade);
  }

  // ---------------------------------------------------------------------
  // What a load leaves in the target

  /** The five target tables, by their folded names. */
  const Targets: set<string> := {"person", "filmwork", "genre", "person_filmwork", "genre_filmwork"}

  lemma FoldedNames()
    ensures FoldIdentifier("Person") == "person"
    ensures FoldIdentifier("person") == "person"
    ensures FoldIdentifier("filmwork") == "filmwork"
    ensures FoldIdentifier("genre") == "genre"
    ensures FoldIdentifier("person_filmwork") == "person_filmwork"
    ensures FoldIdentifier("genre_filmwork") == "genre_filmwork"
  {
  }

  /** Running two statement lists back to back. */
  lemma {:induction false} ExecAppend(xs: seq<Statement>, ys: seq<Statement>, store: Store, cascade: map<string, set<string>>)
    ensures var a := Exec(xs, store, cascade);
            var b := Exec(ys, a.store, cascade);
            Exec(xs + ys, store, cascade)
            == if a.outcome.Fail? then a else Trace(b.store, a.sent + b.sent, b.outcome)
  {
    if xs == [] {
      assert xs + ys == ys;
    } else {
      assert (xs + ys)[1..] == xs[1..] + ys;
      match Apply(xs[0], store, cascade)
      case Err(_) =>
      case Ok(next) => ExecAppend(xs[1..], ys, next, cascade);
    }
  }

  /** Every statement is an insert into a table the store has. */
  ghost predicate InsertsIntoPresent(stmts: seq<Statement>, store: Store)
  {
    forall k :: 0 <= k < |stmts| ==> stmts[k].InsertIgnore? && FoldIdentifier(stmts[k].table) in store
  }

  /** A run of inserts into existing tables succeeds exactly when no insert
      has an empty VALUES list, and otherwise fails on the syntax error;
      it never adds or removes a table. */
  lemma {:induction false} ExecInserts(stmts: seq<Statement>, store: Store, cascade: map<string, set<string>>)
    requires InsertsIntoPresent(stmts, store)
    ensures Exec(stmts, store, cascade).outcome == Pass <==> forall k :: 0 <= k < |stmts| ==> stmts[k].tuples != []
    ensures Exec(stmts, store, cascade).outcome.Fail? ==> Exec(stmts, store, cascade).outcome == Fail(SyntaxError)
    ensures Exec(stmts, store, cascade).store.Keys == store.Keys
  {
    if stmts != [] {
      var s := stmts[0];
      if s.tuples != [] {
        var next := store[FoldIdentifier(s.table) := InsertAll(store[FoldIdentifier(s.table)], s.tuples)];
        assert InsertsIntoPresent(stmts[1..], next) by {
          forall k | 0 <= k < |stmts[1..]|
            ensures stmts[1..][k].InsertIgnore? && FoldIdentifier(stmts[1..][k].table) in next
          {
            assert stmts[1..][k] == stmts[k + 1];
          }
        }
        ExecInserts(stmts[1..], next, cascade);
        assert (forall k :: 0 <= k < |stmts| ==> stmts[k].tuples != [])
               <==> (forall k :: 0 <= k < |stmts[1..]| ==> stmts[1..][k].tuples != []) by {
          forall k | 0 <= k < |stmts[1..]| ensures stmts[1..][k] == stmts[k + 1] { }
        }
      }
    }
  }

  /** The tuples a list of statements inserts into the table `name`, in
      order. */
  function TuplesFor(stmts: seq<Statement>, name: string): seq<Row>
  {
    if stmts == [] then [] else Aimed(stmts[0], name) + TuplesFor(stmts[1..], name)
  }

  /** The tuples one statement inserts into the table `name`. */
  function Aimed(s: Statement, name: string): seq<Row>
  {
    if s.InsertIgnore? && FoldIdentifier(s.table) == name then s.tuples else []
  }

  /** Inserts that all carry tuples, into tables the store has, leave each
      table holding the conflict-skipping insert of everything aimed at it. */
  lemma {:induction false} ExecInsertsResult(stmts: seq<Statement>, store: Store, cascade: map<string, set<string>>)
    requires InsertsIntoPresent(stmts, store)
    requires forall k :: 0 <= k < |stmts| ==> stmts[k].tuples != []
    ensures Exec(stmts, store, cascade).outcome == Pass
    ensures Exec(stmts, store, cascade).store.Keys == store.Keys
    ensures forall name :: name in store ==>
              Exec(stmts, store, cascade).store[name] == InsertAll(store[name], TuplesFor(stmts, name))
  {
    ExecInserts(stmts, store, cascade);
    if stmts != [] {
      var s := stmts[0];
      var n := FoldIdentifier(s.table);
      var next := store[n := InsertAll(store[n], s.tuples)];
      assert InsertsIntoPresent(stmts[1..], next) by {
        forall k | 0 <= k < |stmts[1..]|
          ensures stmts[1..][k].InsertIgnore? && FoldIdentifier(stmts[1..][k].table) in next
        {
          assert stmts[1..][k] == stmts[k + 1];
        }
      }
      assert forall k :: 0 <= k < |stmts[1..]| ==> stmts[1..][k].tuples != [] by {
        forall k | 0 <= k < |stmts[1..]| ensures stmts[1..][k].tuples != [] {
          assert stmts[1..][k] == stmts[k + 1];
        }
      }
      ExecInsertsResult(stmts[1..], next, cascade);
      forall name | name in store
        ensures Exec(stmts, store, cascade).store[name] == InsertAll(store[name], TuplesFor(stmts, name))
      {
        if name == n {
          InsertAllAppend(store[n], s.tuples, TuplesFor(stmts[1..], n));
        } else {
          assert [] + TuplesFor(stmts[1..], name) == TuplesFor(stmts[1..], name);
        }
      }
    }
  }

  /** The target tables as the load is meant to leave them: each holds the
      conflict-skipping insert of its record kind's tuples into an empty
      table. */
  function Loaded(b: Batch): map<string, Relation>
  {
    map[ "person" := InsertAll(map[], Tuples(b.persons)),
         "filmwork" := InsertAll(map[], Tuples(b.filmWorks)),
         "genre" := InsertAll(map[], Tuples(b.genres)),
         "person_filmwork" := InsertAll(map[], Tuples(b.personFilmWorks)),
         "genre_filmwork" := InsertAll(map[], Tuples(b.genreFilmWorks)) ]
  }

  /** The schema's foreign keys: truncating `filmwork` with CASCADE also
      empties both junction tables. */
  ghost predicate ClearsJunctions(cascade: map<string, set<string>>)
  {
    "filmwork" in cascade && "person_filmwork" in cascade["filmwork"] && "genre_filmwork" in cascade["filmwork"]
  }

  /** The three truncates succeed on a store with the target tables and
      leave all five target tables empty. */
  lemma TruncatesClear(store: Store, cascade: map<string, set<string>>)
    requires Targets <= store.Keys && ClearsJunctions(cascade)
    ensures var e := Exec(Truncates(), store, cascade);
            e.outcome == Pass && e.store.Keys == store.Keys && forall t :: t in Targets ==> e.store[t] == map[]
  {
    FoldedNames();
    var s1 := Truncated(store, "person", cascade);
    var s2 := Truncated(s1, "filmwork", cascade);
    var s3 := Truncated(s2, "genre", cascade);
    var p := Truncates();
    assert p[1..][1..][1..] == [];
    assert Exec(p[1..][1..], s2, cascade) == Trace(s3, 1, Pass);
    assert Exec(p[1..], s1, cascade) == Trace(s3, 2, Pass);
    assert Exec(p, store, cascade) == Trace(s3, 3, Pass);
  }

  /** What five statements insert into one table, statement by statement. */
  lemma TuplesForFive(p: seq<Statement>, name: string)
    requires |p| == 5
    ensures TuplesFor(p, name)
            == Aimed(p[0], name) + (Aimed(p[1], name) + (Aimed(p[2], name) + (Aimed(p[3], name) + Aimed(p[4], name))))
  {
    var q1, q2, q3, q4 := p[1..], p[2..], p[3..], p[4..];
    assert q1[1..] == q2 && q2[1..] == q3 && q3[1..] == q4 && q4[1..] == [];
    assert TuplesFor(q4, name) == Aimed(p[4], name) by {
      assert Aimed(p[4], name) + [] == Aimed(p[4], name);
    }
    assert TuplesFor(q3, name) == Aimed(p[3], name) + TuplesFor(q4, name);
    assert TuplesFor(q2, name) == Aimed(p[2], name) + TuplesFor(q3, name);
    assert TuplesFor(q1, name) == Aimed(p[1], name) + TuplesFor(q2, name);
  }

  /** The folded table names of the five inserts, in plan order. */
  lemma InsertTargets(b: Batch, cols: ColumnLists)
    ensures |Inserts(b, cols)| == 5
    ensures forall k :: 0 <= k < 5 ==> Inserts(b, cols)[k].InsertIgnore?
    ensures FoldIdentifier(Inserts(b, cols)[0].table) == "person"
    ensures FoldIdentifier(Inserts(b, cols)[1].table) == "filmwork"
    ensures FoldIdentifier(Inserts(b, cols)[2].table) == "genre"
    ensures FoldIdentifier(Inserts(b, cols)[3].table) == "person_filmwork"
    ensures FoldIdentifier(Inserts(b, cols)[4].table) == "genre_filmwork"
  {
    FoldedNames();
  }

  /** The inserts of a batch aim each record kind's tuples at its own
      table. */
  lemma TuplesForInserts(b: Batch, cols: ColumnLists)
    ensures TuplesFor(Inserts(b, cols), "person") == Tuples(b.persons)
    ensures TuplesFor(Inserts(b, cols), "filmwork") == Tuples(b.filmWorks)
    ensures TuplesFor(Inserts(b, cols), "genre") == Tuples(b.genres)
    ensures TuplesFor(Inserts(b, cols), "person_filmwork") == Tuples(b.personFilmWorks)
    ensures TuplesFor(Inserts(b, cols), "genre_filmwork") == Tuples(b.genreFilmWorks)
  {
    InsertTargets(b, cols);
    var p := Inserts(b, cols);
    TuplesForFive(p, "person");
    TuplesForFive(p, "filmwork");
    TuplesForFive(p, "genre");
    TuplesForFive(p, "person_filmwork");
    TuplesForFive(p, "genre_filmwork");
  }

  /** Each insert of a batch aims at a table of a store that has the
      target tables. */
  lemma InsertsAimAtTargets(b: Batch, cols: ColumnLists, store: Store)
    requires Targets <= store.Keys
    ensures InsertsIntoPresent(Inserts(b, cols), store)
  {
    InsertTargets(b, cols);
  }

  /** Each insert of a batch with five non-empty record lists carries
      tuples. */
  lemma InsertsCarryTuples(b: Batch, cols: ColumnLists)
    requires b.persons != [] && b.genres != [] && b.filmWorks != []
    requires b.personFilmWorks != [] && b.genreFilmWorks != []
    ensures forall k :: 0 <= k < |Inserts(b, cols)| ==> Inserts(b, cols)[k].tuples != []
  {
    assert |Tuples(b.persons)| > 0 && |Tuples(b.genres)| > 0 && |Tuples(b.filmWorks)| > 0;
    assert |Tuples(b.personFilmWorks)| > 0 && |Tuples(b.genreFilmWorks)| > 0;
  }

  /** The inserts of such a batch, run on emptied target tables, leave each
      target table holding exactly its record kind's tuples. */
  lemma InsertsFill(b: Batch, cols: ColumnLists, store: Store, cascade: map<string, set<string>>)
    requires Targets <= store.Keys && forall t :: t in Targets ==> store[t] == map[]
    requires b.persons != [] && b.genres != [] && b.filmWorks != []
    requires b.personFilmWorks != [] && b.genreFilmWorks != []
    ensures var e := Exec(Inserts(b, cols), store, cascade);
            e.outcome == Pass && e.store.Keys == store.Keys &&
            forall t :: t in Targets ==> e.store[t] == Loaded(b)[t]
  {
    var p := Inserts(b, cols);
    InsertsAimAtTargets(b, cols, store);
    InsertsCarryTuples(b, cols);
    ExecInsertsResult(p, store, cascade);
    TuplesForInserts(b, cols);
    TargetsReceive(p, b, store, Exec(p, store, cascade).store);
  }

  /** A store whose target tables went from empty to holding what `p`
      aims at them holds `Loaded(b)` when `p` aims each kind's tuples at
      its table. */
  lemma TargetsReceive(p: seq<Statement>, b: Batch, store: Store, after: Store)
    requires Targets <= store.Keys && store.Keys == after.Keys
    requires forall t :: t in Targets ==> store[t] == map[]
    requires forall name :: name in store ==> after[name] == InsertAll(store[name], TuplesFor(p, name))
    requires TuplesFor(p, "person") == Tuples(b.persons)
    requires TuplesFor(p, "filmwork") == Tuples(b.filmWorks)
    requires TuplesFor(p, "genre") == Tuples(b.genres)
    requires TuplesFor(p, "person_filmwork") == Tuples(b.personFilmWorks)
    requires TuplesFor(p, "genre_filmwork") == Tuples(b.genreFilmWorks)
    ensures forall t :: t in Targets ==> after[t] == Loaded(b)[t]
  {
  }

  /** A batch whose five record lists are all non-empty, loaded into a
      store that has the target tables and the schema's cascade, succeeds
      and leaves each target table holding exactly that table's records,
      first occurrence per id; no table is created or dropped. */
  lemma PlanLoadsBatch(b: Batch, cols: ColumnLists, store: Store, cascade: map<string, set<string>>)
    requires Targets <= store.Keys && ClearsJunctions(cascade)
    requires b.persons != [] && b.genres != [] && b.filmWorks != []
    requires b.personFilmWorks != [] && b.genreFilmWorks != []
    ensures var e := Exec(Plan(b, cols), store, cascade);
            e.outcome == Pass && e.store.Keys == store.Keys &&
            forall t :: t in Targets ==> e.store[t] == Loaded(b)[t]
  {
    ExecAppend(Truncates(), Inserts(b, cols), store, cascade);
    TruncatesClear(store, cascade);
    InsertsFill(b, cols, Exec(Truncates(), store, cascade).store, cascade);
  }

  /** Sending the same conflict-skipping inserts again, without a truncate
      in between, succeeds and leaves the store as the first run left it. */
  lemma ExecInsertsRerun(stmts: seq<Statement>, store: Store, cascade: map<string, set<string>>)
    requires InsertsIntoPresent(stmts, store)
    requires forall k :: 0 <= k < |stmts| ==> stmts[k].tuples != []
    ensures var once := Exec(stmts, store, cascade).store;
            Exec(stmts, once, cascade).outcome == Pass && Exec(stmts, once, cascade).store == once
  {
    ExecInsertsResult(stmts, store, cascade);
    var once := Exec(stmts, store, cascade).store;
    assert InsertsIntoPresent(stmts, once);
    ExecInsertsResult(stmts, once, cascade);
    var twice := Exec(stmts, once, cascade).store;
    forall name | name in once ensures twice[name] == once[name] {
      InsertAllIdempotent(store[name], TuplesFor(stmts, name));
    }
  }

  /** Re-running the inserts of a batch whose five record lists are all
      non-empty adds nothing and raises nothing: no duplicate rows and no
      primary-key error. */
  lemma InsertsRerunChangesNothing(b: Batch, cols: ColumnLists, store: Store, cascade: map<string, set<string>>)
    requires Targets <= store.Keys
    requires b.persons != [] && b.genres != [] && b.filmWorks != []
    requires b.personFilmWorks != [] && b.genreFilmWorks != []
    ensures var once := Exec(Inserts(b, cols), store, cascade);
            var twice := Exec(Inserts(b, cols), once.store, cascade);
            once.outcome == Pass && twice.outcome == Pass && twice.store == once.store
  {
    InsertsAimAtTargets(b, cols, store);
    InsertsCarryTuples(b, cols);
    ExecInsertsResult(Inserts(b, cols), store, cascade);
    ExecInsertsRerun(Inserts(b, cols), store, cascade);
  }

  /** Source records with pairwise distinct ids, as primary keys are. */
  ghost predicate UniqueIds(records: seq<Record>)
  {
    forall i, j :: 0 <= i < j < |records| ==> records[i].id != records[j].id
  }

  /** A record's tuple is keyed by the record's id. */
  lemma TupleIds(records: seq<Record>)
    ensures forall i :: 0 <= i < |records| ==> IdOf(Tuples(records)[i]) == records[i].id
  {
    forall i | 0 <= i < |records| ensures IdOf(Tuples(records)[i]) == records[i].id {
      match records[i]
      case Person(_, _, _, _) =>
      case Genre(_, _, _) =>
      case GenreFilmwork(_, _, _, _) =>
      case PersonFilmWork(_, _, _, _, _) =>
      case Filmwork(_, _, _, _, _, _, _, _) =>
    }
  }

  /** Records with distinct ids, inserted into an empty table, give one
      row per record: the target ends with as many rows as the source
      table had. */
  lemma LoadedSize(records: seq<Record>)
    requires UniqueIds(records)
    ensures |InsertAll(map[], Tuples(records))| == |records|
  {
    TupleIds(records);
    InsertAllCount(map[], Tuples(records));
  }

  /** The loaded table's ids are exactly the source records' ids. */
  lemma LoadedKeys(records: seq<Record>)
    ensures forall id :: id in InsertAll(map[], Tuples(records)) <==>
                         exists i :: 0 <= i < |records| && records[i].id == id
  {
    var tuples := Tuples(records);
    TupleIds(records);
    InsertAllKeys(map[], tuples);
    forall id ensures id in InsertAll(map[], tuples) <==> exists i :: 0 <= i < |records| && records[i].id == id {
      if id in Ids(tuples) {
        var i :| 0 <= i < |tuples| && IdOf(tuples[i]) == id;
        assert records[i].id == id;
      }
      if exists i :: 0 <= i < |records| && records[i].id == id {
        var i :| 0 <= i < |records| && records[i].id == id;
        assert IdOf(tuples[i]) == id;
      }
    }
  }

  /** With distinct ids, each record's row holds the record's fields. */
  lemma LoadedRows(records: seq<Record>)
    requires UniqueIds(records)
    ensures forall i :: 0 <= i < |records| ==>
              records[i].id in InsertAll(map[], Tuples(records))
              && InsertAll(map[], Tuples(records))[records[i].id] == Fields(records[i])
  {
    TupleIds(records);
    forall i | 0 <= i < |records|
      ensures records[i].id in InsertAll(map[], Tuples(records))
              && InsertAll(map[], Tuples(records))[records[i].id] == Fields(records[i])
    {
      InsertAllFirstWins(map[], Tuples(records), i);
    }
  }

  // ---------------------------------------------------------------------
  // An empty source table

  /** As written, a batch with any empty record list aborts the load: its
      insert renders `VALUES` with nothing after it, which the target
      rejects as a syntax error, and the raised exception ends the run. */
  lemma EmptySourceTableAbortsLoad(b: Batch, cols: ColumnLists, store: Store, cascade: map<string, set<string>>)
    requires Targets <= store.Keys && ClearsJunctions(cascade)
    requires b.persons == [] || b.genres == [] || b.filmWorks == []
             || b.personFilmWorks == [] || b.genreFilmWorks == []
    ensures Exec(Plan(b, cols), store, cascade).outcome == Fail(SyntaxError)
  {
    ExecAppend(Truncates(), Inserts(b, cols), store, cascade);
    TruncatesClear(store, cascade);
    var cleared := Exec(Truncates(), store, cascade).store;
    var p := Inserts(b, cols);
    InsertsAimAtTargets(b, cols, store);
    InsertsAimAtTargets(b, cols, cleared);
    ExecInserts(p, cleared, cascade);
    InsertTargets(b, cols);
    assert exists k :: 0 <= k < |p| && p[k].tuples == [] by {
      if b.persons == [] { assert p[0].tuples == []; }
      else if b.filmWorks == [] { assert p[1].tuples == []; }
      else if b.genres == [] { assert p[2].tuples == []; }
      else if b.personFilmWorks == [] { assert p[3].tuples == []; }
      else { assert p[4].tuples == []; }
    }
  }

  /** The statements with every insert that carries no tuples dropped:
      what sending an insert only when there is something to insert
      gives. */
  function SkipEmpty(stmts: seq<Statement>): (r: seq<Statement>)
    ensures |r| <= |stmts|
  {
    if stmts == [] then []
    else if stmts[0].InsertIgnore? && stmts[0].tuples == [] then SkipEmpty(stmts[1..])
    else [stmts[0]] + SkipEmpty(stmts[1..])
  }

  /** Skipping empty inserts removes nothing that would reach a table,
      keeps every kept insert aimed at a present table, and leaves only
      inserts that carry tuples. */
  lemma {:induction false} SkipEmptyKeeps(stmts: seq<Statement>, store: Store)
    requires InsertsIntoPresent(stmts, store)
    ensures InsertsIntoPresent(SkipEmpty(stmts), store)
    ensures forall k :: 0 <= k < |SkipEmpty(stmts)| ==> SkipEmpty(stmts)[k].tuples != []
    ensures forall name :: TuplesFor(SkipEmpty(stmts), name) == TuplesFor(stmts, name)
  {
    if stmts != [] {
      assert InsertsIntoPresent(stmts[1..], store) by {
        forall k | 0 <= k < |stmts[1..]|
          ensures stmts[1..][k].InsertIgnore? && FoldIdentifier(stmts[1..][k].table) in store
        {
          assert stmts[1..][k] == stmts[k + 1];
        }
      }
      SkipEmptyKeeps(stmts[1..], store);
      var rest := SkipEmpty(stmts[1..]);
      if stmts[0].tuples == [] {
        forall name ensures TuplesFor(SkipEmpty(stmts), name) == TuplesFor(stmts, name) {
          assert [] + TuplesFor(stmts[1..], name) == TuplesFor(stmts[1..], name);
        }
      } else {
        var r := [stmts[0]] + rest;
        assert r[1..] == rest;
        forall k | 0 <= k < |r| ensures r[k].InsertIgnore? && FoldIdentifier(r[k].table) in store && r[k].tuples != [] {
          if k > 0 { assert r[k] == rest[k - 1]; }
        }
      }
    }
  }

  /** The load with empty inserts skipped. */
  function CorrectedPlan(b: Batch, cols: ColumnLists): seq<Statement>
  {
    Truncates() + SkipEmpty(Inserts(b, cols))
  }

  /** With empty inserts skipped, every batch loads, empty record lists
      included: each target table ends holding exactly its record kind's
      tuples. */
  lemma CorrectedPlanLoadsBatch(b: Batch, cols: ColumnLists, store: Store, cascade: map<string, set<string>>)
    requires Targets <= store.Keys && ClearsJunctions(cascade)
    ensures var e := Exec(CorrectedPlan(b, cols), store, cascade);
            e.outcome == Pass && e.store.Keys == store.Keys &&
            forall t :: t in Targets ==> e.store[t] == Loaded(b)[t]
  {
    var p := Inserts(b, cols);
    var q := SkipEmpty(p);
    ExecAppend(Truncates(), q, store, cascade);
    TruncatesClear(store, cascade);
    var cleared := Exec(Truncates(), store, cascade).store;
    InsertsAimAtTargets(b, cols, cleared);
    SkipEmptyKeeps(p, cleared);
    ExecInsertsResult(q, cleared, cascade);
    TuplesForInserts(b, cols);
    TargetsReceive(q, b, cleared, Exec(q, cleared, cascade).store);
  }
}
