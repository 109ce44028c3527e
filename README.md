# SQLite to PostgreSQL movie-catalog migration, modelled in Dafny

This project models the one-shot migration of the movie catalogue in
`03_sqlite_to_postgres`. It covers four parts.

- **The loader** (`load_data.py`) reads the five SQLite tables with a paged
  reader. It maps the rows positionally onto frozen record classes. It then
  empties the PostgreSQL tables with `TRUNCATE ... CASCADE` and sends one bulk
  `INSERT ... ON CONFLICT (id) DO NOTHING` per record kind.
- **The verifier** (`tests.py`) reads both stores again and maps the rows onto
  mutable record objects, each side by its own field list. It normalises
  timestamps, compares row counts, and compares records by id.
- **The record objects** (`table_objects.py`) have all fields defaulting to
  `None`. Two of the classes have hand-written field-subset equality.
- **The earlier script** (`migrations_script.py`) is a stand-alone copy of the
  reader and the mapper.

Modules, one per file:

- `values.dfy` (`Values`): column values, the exceptions the code raises, and
  string helpers. These are Python's `split`, `join`, `s * n`, `s[:-k]`, and
  `==` on values.
- `cursor.dfy` (`Cursors`): the read side of a DB-API cursor. It is a class
  over named tables with `execute`, `fetchmany` and `fetchone`.
- `load_data.dfy` (`LoadData`): the records, `fill_dataclass`, and
  `get_data_from_table`.
- `target.dfy` (`Target`): the rendering of the bulk insert. It also holds the
  target store's reading of each statement and the PostgreSQL write cursor:
  a table is a map from id to tuple, and an insert adds a tuple only when its
  id is absent.
- `load.dfy` (`Load`): `load_from_sqlite`, with the extract half, the
  statement plan and what the plan leaves in the target.
- `table_objects.dfy` (`TableObjects`): record objects as attribute maps, and
  their equalities.
- `migrations_script.dfy` (`MigrationsScript`): the earlier script. It is
  proved to agree with the loader.
- `verifier.dfy` (`Verifier`): the two mappers, the count test and the content
  test.

Loops in the source are methods with loop invariants. Each method is proved
against a function that states its result. The properties are proved about
those functions.

Three behaviours of the code shape the model:

- `fill_dataclass` ignores trailing columns. The verifier's mappers leave
  fields past a short row at `None`.
- An exception ends the whole `load_from_sqlite`.
- The content check compares only the first id (see Findings).

## Model

| member | source | states |
|---|---|---|
| Cursors.Cursor.Execute | 03_sqlite_to_postgres/load_data.py:61 | a query on an unknown table or column fails and leaves nothing to fetch; otherwise the pending rows are the query's whole result, and rows the previous query left unfetched are dropped |
| Cursors.Cursor.FetchMany | 03_sqlite_to_postgres/load_data.py:63 | returns the next `size` pending rows, fewer only at the end, and the pending rows are the returned page followed by the remaining rows |
| Cursors.Cursor.FetchOne | 03_sqlite_to_postgres/tests.py:19 | returns `None` when nothing is pending, otherwise the first pending row, which it consumes |
| LoadData.SourceColumns | 03_sqlite_to_postgres/load_data.py:72-87 | every column a class reads lies below its width, and the last column of the width is read |
| LoadData.MapRow | 03_sqlite_to_postgres/load_data.py:74-86 | a row maps exactly when it is as wide as the class needs (4, 3, 5 or 9 columns), otherwise IndexError; the record's fields are the row's values at the class's columns, so Filmwork takes 0,1,2,3,5,6,7,8 |
| LoadData.Fill | 03_sqlite_to_postgres/load_data.py:70-88 | a class other than the five gives `[]`; otherwise the result is Ok exactly when every row is wide enough, and then it holds one record per row, in row order, each the mapping of its row |
| LoadData.FillDataclass | 03_sqlite_to_postgres/load_data.py:70-88 | the four append loops return exactly `Fill` of the rows |
| LoadData.FilmworkSkipsFilePath | 03_sqlite_to_postgres/load_data.py:84-86 | changing column 4 (`file_path`) or appending columns never changes the Filmwork record |
| LoadData.TrailingColumnsIgnored | 03_sqlite_to_postgres/load_data.py:72-86 | columns past a class's width never reach the record |
| LoadData.PagesAreBounded | 03_sqlite_to_postgres/load_data.py:63 | every page a cursor hands out is non-empty and holds at most the page size |
| LoadData.PagesFlatten | 03_sqlite_to_postgres/load_data.py:62-67 | concatenating the pages gives back the rows |
| LoadData.FullPagesArePages | 03_sqlite_to_postgres/load_data.py:62-67 | pages that are non-empty, bounded, and short only at the end are exactly the pages of their concatenation |
| LoadData.YieldedStopsAtFirstEmpty | 03_sqlite_to_postgres/load_data.py:64-65 | the generator yields the rows of the pages up to the first empty one, and nothing after it |
| LoadData.ReadIsExhaustive | 03_sqlite_to_postgres/load_data.py:60-67 | paging a scan and reading to the first empty page yields exactly the scanned rows, in scan order |
| LoadData.GetDataFromTable | 03_sqlite_to_postgres/load_data.py:60-67 | an unknown table is a query error; otherwise the rows read are the table's scan, every fetch asks for at most 1000 rows, the fetches are the cursor's pages then one empty page, and the rows are what the generator yields for them |
| Values.SplitJoinedNames | 03_sqlite_to_postgres/load_data.py:92 | splitting comma-free names joined with ", " at ',' gives one piece per name |
| Target.PlaceholderGroup | 03_sqlite_to_postgres/load_data.py:92-93 | the group is `(`, one `%s` per comma-separated column name joined by ", ", then `)` |
| Target.RepeatedSymbolsTrimmed | 03_sqlite_to_postgres/load_data.py:92-93 | `'%s, ' * n` with its last two characters cut is `n` placeholders joined by ", " |
| Target.MogrifyGroup | 03_sqlite_to_postgres/load_data.py:93-94 | mogrifying the group with a tuple gives the tuple's literals in parentheses, joined by ", ", exactly when the tuple has one value per column; a shorter tuple is an IndexError and a longer one a TypeError |
| Target.RenderValuesMisfit | 03_sqlite_to_postgres/load_data.py:93-94 | the VALUES list fails exactly when some tuple does not fit the column list, and then with the error of the first such tuple |
| Target.RenderValuesJoins | 03_sqlite_to_postgres/load_data.py:93-94 | the VALUES text renders exactly when every tuple does, and is then the rendered groups joined by ',' in tuple order |
| Target.RenderedInsertShape | 03_sqlite_to_postgres/load_data.py:91-99 | the statement renders exactly when every tuple fits the column list, and is then the INSERT head, one group per tuple, and the `ON CONFLICT (id) DO NOTHING` clause |
| Target.PgCursor.Execute | 03_sqlite_to_postgres/load_data.py:100 | a statement the store accepts passes and leaves its effect; a rejected one fails with the store's error and changes nothing |
| Target.ExecuteMigration | 03_sqlite_to_postgres/load_data.py:91-100 | a tuple that does not fit the column list raises the first misfit's IndexError or TypeError with nothing sent; otherwise the statement is sent and the store and outcome are its effect |
| Target.InsertAllKeys | 03_sqlite_to_postgres/load_data.py:98 | a conflict-skipping insert adds exactly the ids inserted |
| Target.InsertAllKeeps | 03_sqlite_to_postgres/load_data.py:98 | an existing row is never overwritten |
| Target.InsertAllFirstWins | 03_sqlite_to_postgres/load_data.py:98 | a new id holds the first tuple that carried it |
| Target.InsertAllPresent | 03_sqlite_to_postgres/load_data.py:98 | inserting tuples whose ids are all present changes nothing |
| Target.InsertAllIdempotent | 03_sqlite_to_postgres/load_data.py:95-99 | inserting the same tuples twice gives what inserting them once gives |
| Target.InsertAllCount | 03_sqlite_to_postgres/load_data.py:98 | tuples with distinct, new ids add one row each |
| Target.InsertAllAppend | 03_sqlite_to_postgres/load_data.py:98 | two inserts in a row are one insert of both lists |
| Load.Exec | 03_sqlite_to_postgres/load_data.py:115-143 | a run sends at most all its statements, and all of them when nothing fails |
| Load.ExecStopsAtFailure | 03_sqlite_to_postgres/load_data.py:115-143 | a failed run ends at the statement that raised: the statements before it all passed, the store is what they left, and the store rejected that statement with the reported error |
| Load.PersonArity | 03_sqlite_to_postgres/load_data.py:120-122 | the person column list names 4 columns, one per tuple value |
| Load.FilmworkArity | 03_sqlite_to_postgres/load_data.py:125-128 | the filmwork column list names 8 columns, one per tuple value |
| Load.GenreArity | 03_sqlite_to_postgres/load_data.py:131-133 | the genre column list names 3 columns, one per tuple value |
| Load.PersonFilmworkArity | 03_sqlite_to_postgres/load_data.py:136-138 | the person_filmwork column list names 5 columns, one per tuple value |
| Load.GenreFilmworkArity | 03_sqlite_to_postgres/load_data.py:141-143 | the genre_filmwork column list names 4 columns, one per tuple value |
| Load.ExtractWellShaped | 03_sqlite_to_postgres/load_data.py:105-110 | every record list read is of its table's class, with one field per source column |
| Load.ExtractedBatchConforms | 03_sqlite_to_postgres/load_data.py:119-143 | every planned insert of an extracted batch has one value per named column, so no insert fails to render |
| Load.ReadTable | 03_sqlite_to_postgres/load_data.py:60-88 | reading then mapping a table gives the mapping of its scan, or the query error; for a class other than the five the generator is never iterated, so nothing is queried and the result is `[]` |
| Load.ReadBatch | 03_sqlite_to_postgres/load_data.py:105-110 | the five tables are read in the source's order (person, genre, film_work, person_film_work, genre_film_work), stopping at the first error |
| Load.WriteBatch | 03_sqlite_to_postgres/load_data.py:113-143 | three truncates, then inserts for person, filmwork, genre, person_filmwork, genre_filmwork, are sent one by one, and the first failure ends the run |
| Load.LoadFromSqlite | 03_sqlite_to_postgres/load_data.py:103-143 | a failed read leaves the target untouched; otherwise the target store and the outcome are the result of running the plan: three truncates, then the five inserts, up to the first failure |
| Load.StepsIsExec | 03_sqlite_to_postgres/load_data.py:115-143 | sending statements one at a time, stopping at the first failure, is running the plan |
| Load.TruncateTexts | 03_sqlite_to_postgres/load_data.py:115-117 | the three truncates render as the statements the loader sends |
| Load.TruncatesClear | 03_sqlite_to_postgres/load_data.py:115-117 | with the schema's cascade, the truncates succeed and leave all five target tables empty |
| Load.InsertTargets | 03_sqlite_to_postgres/load_data.py:119-143 | the five inserts aim at person, filmwork, genre, person_filmwork and genre_filmwork, in that order, so the junction tables come after their parents |
| Load.TuplesForInserts | 03_sqlite_to_postgres/load_data.py:119-143 | each target table receives exactly its record kind's tuples |
| Load.ExecInserts | 03_sqlite_to_postgres/load_data.py:95-100 | inserts into existing tables succeed exactly when none has an empty VALUES list, and otherwise fail on the syntax error |
| Load.ExecInsertsResult | 03_sqlite_to_postgres/load_data.py:119-143 | successful inserts leave each table holding the conflict-skipping insert of everything aimed at it |
| Load.PlanLoadsBatch | 03_sqlite_to_postgres/load_data.py:115-143 | a batch with five non-empty record lists loads without error, and each target table then holds its records' tuples, first occurrence per id |
| Load.ExecInsertsRerun | 03_sqlite_to_postgres/load_data.py:95-99 | sending the same inserts again succeeds and changes nothing |
| Load.InsertsRerunChangesNothing | 03_sqlite_to_postgres/load_data.py:119-143 | re-running a batch's inserts without a truncate adds no row and raises no error |
| Load.TupleIds | 03_sqlite_to_postgres/load_data.py:120-141 | each tuple is keyed by its record's id |
| Load.LoadedSize | 03_sqlite_to_postgres/load_data.py:119-143 | records with distinct ids load one row each |
| Load.LoadedKeys | 03_sqlite_to_postgres/load_data.py:119-143 | a loaded table's ids are exactly its source records' ids |
| Load.LoadedRows | 03_sqlite_to_postgres/load_data.py:119-143 | with distinct ids, each record's row holds the record's fields |
| Load.EmptySourceTableAbortsLoad | 03_sqlite_to_postgres/load_data.py:91-100 | as written, a batch with any empty record list ends the load with a syntax error |
| Load.SkipEmptyKeeps | 03_sqlite_to_postgres/load_data.py:91-100 | skipping empty inserts keeps every tuple each table receives |
| Load.CorrectedPlanLoadsBatch | 03_sqlite_to_postgres/load_data.py:115-143 | with empty inserts skipped, every batch loads and each target table holds exactly its record kind's tuples |
| TableObjects.Declared | 03_sqlite_to_postgres/table_objects.py:6-57 | every class declares `id` first |
| TableObjects.New | 03_sqlite_to_postgres/table_objects.py:6-57 | a fresh object has exactly its class's fields, all `None` |
| TableObjects.GetAttr | 03_sqlite_to_postgres/table_objects.py:24-27 | reading a missing attribute is an AttributeError |
| TableObjects.SetAttr | 03_sqlite_to_postgres/tests.py:59-61 | after `setattr` the name reads the new value and every other name reads as before |
| TableObjects.FieldsEqual | 03_sqlite_to_postgres/table_objects.py:24-27 | comparing fields fails exactly when a name is missing on either side, and otherwise is true exactly when every pair is equal |
| TableObjects.GenreEq | 03_sqlite_to_postgres/table_objects.py:22-27 | Genre equality holds exactly when `id`, `name` and `description` are equal |
| TableObjects.GenreEqIgnoresStamps | 03_sqlite_to_postgres/table_objects.py:22-27 | Genre equality ignores `created` and `updated` |
| TableObjects.FilmworkEq | 03_sqlite_to_postgres/table_objects.py:59-65 | Filmwork equality holds exactly when its eight listed fields are equal, and `file_path` is not among them |
| TableObjects.FilmworkEqIgnoresFilePath | 03_sqlite_to_postgres/table_objects.py:59-65 | Filmwork equality ignores `file_path` |
| TableObjects.GeneratedEq | 03_sqlite_to_postgres/table_objects.py:6-44 | the other three classes compare every declared field, and an object of another class is not equal to them |
| TableObjects.EqIsEquivalence | 03_sqlite_to_postgres/table_objects.py:22-65 | on complete objects of one class, `==` is reflexive, symmetric and transitive |
| TableObjects.NewIsDefault | 03_sqlite_to_postgres/table_objects.py:6-57 | a fresh object has every declared field `None`, and two fresh objects are equal |
| MigrationsScript.MappedAsLoaderDone | 03_sqlite_to_postgres/migrations_script.py:67-85 | rows mapped like the loader maps them give the loader's result |
| MigrationsScript.FillDataclass | 03_sqlite_to_postgres/migrations_script.py:67-85 | the script's mapper succeeds and fails exactly when the loader's does, with the same error, the same length and the same records in order |
| MigrationsScript.Script.GetDataFromTable | 03_sqlite_to_postgres/migrations_script.py:8-15 | over the module-level cursor, the rows read are the table's scan, pages are of at most 1000 rows, and an unknown table is a query error |
| Verifier.SqliteFieldsAreDeclared | 03_sqlite_to_postgres/tests.py:47-54 | each SQLite field list is its class's declaration order, so Filmwork's fifth name is `file_path` |
| Verifier.PgFieldsAreDeclared | 03_sqlite_to_postgres/tests.py:73-80 | each PostgreSQL field list names distinct declared fields, `id` among them |
| Verifier.Normalise | 03_sqlite_to_postgres/tests.py:58-61 | `None` and non-timestamp values are stored as read |
| Verifier.SqliteStampTrimmed | 03_sqlite_to_postgres/tests.py:58-59 | a SQLite timestamp string loses exactly its last three characters, and a `None` timestamp stays `None` |
| Verifier.PgStampFormatted | 03_sqlite_to_postgres/tests.py:84-85 | a PostgreSQL timestamp is stored as its formatted text, and a non-datetime there has no `strftime` |
| Verifier.Assign | 03_sqlite_to_postgres/tests.py:56-61 | assigning keeps the class and every attribute already present |
| Verifier.AssignSucceeds | 03_sqlite_to_postgres/tests.py:56-61 | a row maps exactly when it has no more columns than names and every column normalises |
| Verifier.AssignTooLong | 03_sqlite_to_postgres/tests.py:57 | one column more than there are names is the IndexError of `pop(0)` on an empty list |
| Verifier.AssignStores | 03_sqlite_to_postgres/tests.py:56-61 | the i-th column's normalised value is stored under the i-th name; names past a short row, and names not listed, keep their value |
| Verifier.RowObject | 03_sqlite_to_postgres/tests.py:46-61 | a row's object depends on that row alone, since the lists are rebuilt per row; it is of the class and has an `id` |
| Verifier.Objects | 03_sqlite_to_postgres/tests.py:45-64 | the id map has at most one entry per row, and when it is built every row maps |
| Verifier.ObjectsLastWins | 03_sqlite_to_postgres/tests.py:62 | a row's object is stored under its id unless a later row has the same id, which then replaces it |
| Verifier.ObjectsKeys | 03_sqlite_to_postgres/tests.py:62 | every key of the map is the id of some row |
| Verifier.ObjectsPrefixFails | 03_sqlite_to_postgres/tests.py:46-62 | once a prefix of the rows fails to map, the whole mapping fails with the same error, as the loop raises at the first bad row |
| Verifier.FillObject | 03_sqlite_to_postgres/tests.py:55-61 | the inner loop builds exactly the row's object, or raises that row's IndexError, TypeError or AttributeError |
| Verifier.FillObjects | 03_sqlite_to_postgres/tests.py:45-64 | the outer loop builds exactly the id map of the rows, or raises the first failing row's error |
| Verifier.FillSqliteDataclass | 03_sqlite_to_postgres/tests.py:40-64 | the SQLite mapper is the id map under the SQLite field lists with timestamps trimmed |
| Verifier.FillPgDataclass | 03_sqlite_to_postgres/tests.py:67-90 | the PostgreSQL mapper is the id map under its own field lists with timestamps formatted |
| Verifier.CountRecordsInTable | 03_sqlite_to_postgres/tests.py:12-14 | the count is the table's row count, or a query error for an unknown table |
| Verifier.CountChecksPass | 03_sqlite_to_postgres/tests.py:34-37 | the count test passes exactly when every source table and its target exist and hold as many rows |
| Verifier.TestNumberOfRecords | 03_sqlite_to_postgres/tests.py:22-37 | the loop over the five table pairs, in dictionary order, reports the first missing table or unequal count |
| Verifier.GetAllIdsFromTable | 03_sqlite_to_postgres/tests.py:17-19 | returns the first row of `SELECT id`, or `None` for an empty table |
| Verifier.CompareIdsPass | 03_sqlite_to_postgres/tests.py:120-121 | the comparison passes exactly when every id has an object on both sides and the two are equal |
| Verifier.ContentChecksPass | 03_sqlite_to_postgres/tests.py:112-121 | the content test passes exactly when every table's comparison passes |
| Verifier.CheckTable | 03_sqlite_to_postgres/tests.py:113-121 | one table's step reads and maps both sides, then compares the ids `fetchone` returned, raising what the source raises |
| Verifier.TestColumnContentIsSame | 03_sqlite_to_postgres/tests.py:93-121 | the loop over the five tables reports the first failing comparison |
| Verifier.AllIds | 03_sqlite_to_postgres/tests.py:18 | `SELECT id` gives one id per source row |
| Verifier.FirstIdRowIsFirstId | 03_sqlite_to_postgres/tests.py:17-19 | `fetchone` returns `None` exactly for an empty table, and otherwise a one-element tuple holding the first row's id |
| Verifier.CompareTableFirstOnly | 03_sqlite_to_postgres/tests.py:119-121 | as written, a non-empty table's comparison looks up the first id alone |
| Verifier.EmptySourceFailsContentCheck | 03_sqlite_to_postgres/tests.py:119-120 | as written, an empty source table fails with TypeError, where the corrected comparison passes |
| Verifier.TwoGenres | 03_sqlite_to_postgres/tests.py:112-121 | for two-genre tables, the test as written depends only on the first genre's name, and the corrected test depends on both |
| Verifier.SecondRowUnchecked | 03_sqlite_to_postgres/tests.py:119-121 | a genre table whose second row differs in the target passes the test as written and fails the corrected one |
| Verifier.CorrectedCompareTablePass | 03_sqlite_to_postgres/tests.py:119-121 | the corrected comparison passes exactly when both tables read and map, and every source row's id has equal objects on both sides |
| Verifier.CorrectedImpliesAsWritten | 03_sqlite_to_postgres/tests.py:119-121 | on a non-empty table, passing the corrected comparison implies passing the one as written |
| Verifier.CorrectedContentChecksPass | 03_sqlite_to_postgres/tests.py:112-121 | the corrected content test passes exactly when every table's corrected comparison passes |

## Left out

- Connections and their lifecycle are not modelled. This covers
  `sqlite3.connect`, `psycopg2.connect`, `cursor()`, `sqlite_cursor.close()`
  (load_data.py:111) and the `commit` of load_data.py:146. That `commit`
  commits the SQLite connection, not the PostgreSQL one.
- The `__main__` blocks are left out (load_data.py:149-152,
  tests.py:124-128, migrations_script.py:88-97). Their DSNs and prints are
  I/O.
- Load.LoadFromSqlite: after a failing statement, the target is the store as
  the earlier statements left it. The rollback that the connection's `with`
  block performs in `__main__` is not modelled.
- Cursors.Cursor.Execute: after a failed query the cursor has nothing to
  fetch. psycopg2 would instead make a later fetch raise and would abort the
  transaction. No modelled caller fetches after a failed query.
- Target.Mogrify: psycopg2 checks every placeholder against the arguments
  (IndexError when one is missing) before it rejects a directive other than
  `%s` (ValueError). The model scans once, left to right, so for a template
  holding such a directive the error can differ. The load's templates hold
  only `%s`, and for them the errors are the driver's.
- Target.Mogrify: the driver's literal quoting is the uninterpreted
  `quote` of the PostgreSQL cursor. The server's parsing of the text is not
  modelled. `PgCursor.Execute` receives the statement together with the text
  that renders it.
- Verifier.PgStampFormatted: `strftime("%Y-%m-%d %H:%M:%S.%f")` is the
  uninterpreted `fmt`, and datetimes are opaque instants.
- Column values are opaque tokens: uuids and dates as strings, `rating` as a
  real number, datetimes as integers. Only copying, comparing, slicing
  SQLite timestamp strings and formatting are modelled.
- `TRUNCATE ... CASCADE` empties the named table and the tables the
  `cascade` map lists for it. The map is given, not derived from the
  schema. Foreign-key checks on insert are not modelled.
- The generators are read eagerly. Every consumer in the source drains a
  generator before the next query on the same cursor, so the results and
  errors are the same. The one exception is a class other than the five
  record classes: `fill_dataclass` never iterates the generator, so the
  query never runs, and `Load.ReadTable` returns `[]` without querying.
- Record objects are values (attribute maps). The verifier builds a fresh
  object per row and never shares one, so aliasing is not observable.
- Verifier.CountRecordsInTable: the `None` that `fetchone` would return when
  there is no row is not modelled, because `COUNT(*)` always returns one row.
- `psycopg2`'s `DictCursor` rows are treated as tuples. Iterating a `DictRow`
  yields its values in column order.
- `tables_objects.py` is not part of this model: it holds declarations only
  and does not import.
- The Django project (`02_movies_admin`) is not part of this model.

## Findings

| source | as written | input that shows it | evidently intended | confidence | as-written member | corrected member |
|---|---|---|---|---|---|---|
| 03_sqlite_to_postgres/load_data.py:91-100 | with no records, `','.join` gives an empty string and the statement reads `VALUES` followed directly by `ON CONFLICT`, which PostgreSQL rejects; the exception ends the load | an empty `genre` table in the SQLite file | skip the insert of a kind with no records, so the other kinds still load | medium, not executed | Load.EmptySourceTableAbortsLoad | Load.CorrectedPlanLoadsBatch |
| 03_sqlite_to_postgres/tests.py:17-19 | `get_all_ids_from_table` returns `fetchone()`, one `(id,)` tuple, so the loop at tests.py:120-121 compares the first record only | two genres `g1`/`Drama` and `g2`/`Comedy`, migrated as `g1`/`Drama` and `g2`/`Horror`: the test passes | iterate over every id of the source table (`fetchall()`) | high, not executed | Verifier.SecondRowUnchecked | Verifier.CorrectedCompareTablePass |
| 03_sqlite_to_postgres/tests.py:119-120 | for an empty source table `fetchone()` returns `None`, and `for id in None` raises TypeError | an empty `genre` table on both sides | an empty table passes, having nothing to compare | high, not executed | Verifier.EmptySourceFailsContentCheck | Verifier.CorrectedContentChecksPass |
