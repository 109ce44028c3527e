/** The PostgreSQL side of the load: rendering one bulk
    `INSERT ... ON CONFLICT (id) DO NOTHING` per record kind, the target
    store's reading of the statements, and the write cursor. */
module Target {
  import opened Values

  // ---------------------------------------------------------------------
  // Rendering

  /** `n` placeholders. */
  function Slots(n: nat): seq<string>
  {
    seq(n, _ => "%s")
  }

  /** `format_symbols[:-2]` in parentheses, where `format_symbols` is
      `'%s, '` repeated once per comma-separated column name. */
  function PlaceholderGroup(fields: string): (g: string)
    ensures g == "(" + Join(", ", Slots(|Split(fields, ',')|)) + ")"
  {
    var symbols := Repeat("%s, ", |Split(fields, ',')|);
    RepeatedSymbolsTrimmed(|Split(fields, ',')|);
    "(" + symbols[..|symbols| - 2] + ")"
  }

  lemma {:induction false} RepeatedSymbolsTrimmed(n: nat)
    requires n >= 1
    ensures Repeat("%s, ", n)[..4 * n - 2] == Join(", ", Slots(n))
  {
    if n == 1 {
      assert Slots(1) == ["%s"];
    } else {
      RepeatedSymbolsTrimmed(n - 1);
      assert Slots(n) == ["%s"] + Slots(n - 1);
      assert Slots(n)[1..] == Slots(n - 1);
      var r := Repeat("%s, ", n - 1);
      assert Repeat("%s, ", n) == "%s, " + r;
      assert ("%s, " + r)[..4 * n - 2] == "%s, " + r[..4 * (n - 1) - 2];
    }
  }

  /** The literals `mogrify` substitutes for the values of `item`. */
  function QuoteAll(item: Row, quote: Value -> string): seq<string>
  {
    seq(|item|, i requires 0 <= i < |item| => quote(item[i]))
  }

  function Prepend(p: string, r: Result<string>): Result<string>
  {
    match r
    case Ok(s) => Ok(p + s)
    case Err(e) => Err(e)
  }

  /** `cursor.mogrify(template, args)`: each `%s` is replaced, left to
      right, by the driver's literal for the next argument (`quote`, which
      is not modelled), `%%` by `%`. A `%s` with no argument left is the
      IndexError of the tuple lookup, an argument left over at the end is
      the TypeError "not all arguments converted", and any other use of `%`
      is a ValueError. */
  function Mogrify(template: string, args: seq<Value>, quote: Value -> string): Result<string>
    decreases |template|
  {
    if template == [] then
      if args == [] then Ok("") else Err(TypeError)
    else if template[0] == '%' then
      if |template| >= 2 && template[1] == 's' then
        if args == [] then Err(IndexError)
        else Prepend(quote(args[0]), Mogrify(template[2..], args[1..], quote))
      else if |template| >= 2 && template[1] == '%' then
        Prepend("%", Mogrify(template[2..], args, quote))
      else Err(ValueError)
    else Prepend([template[0]], Mogrify(template[1..], args, quote))
  }

  /** The error `mogrify` raises for a tuple that does not fill a group of
      `n` placeholders exactly: too few values is an IndexError, too many a
      TypeError. */
  function ArityError(n: nat, item: Row): Error
  {
    if |item| < n then IndexError else TypeError
  }

  lemma PrependTwice(a: string, b: string, r: Result<string>)
    ensures Prepend(a, Prepend(b, r)) == Prepend(a + b, r)
  {
    if r.Ok? {
      assert a + (b + r.value) == (a + b) + r.value;
    }
  }

  /** Text without `%` is copied through unchanged. */
  lemma {:induction false} MogrifyLiteral(p: string, t: string, args: seq<Value>, quote: Value -> string)
    requires '%' !in p
    ensures Mogrify(p + t, args, quote) == Prepend(p, Mogrify(t, args, quote))
    decreases |p|
  {
    if p == [] {
      assert p + t == t;
      if Mogrify(t, args, quote).Ok? {
        assert p + Mogrify(t, args, quote).value == Mogrify(t, args, quote).value;
      }
    } else {
      var pt := p + t;
      assert p[0] in p;
      assert pt[0] == p[0] && pt[1..] == p[1..] + t;
      assert Mogrify(pt, args, quote) == Prepend([p[0]], Mogrify(p[1..] + t, args, quote));
      MogrifyLiteral(p[1..], t, args, quote);
      PrependTwice([p[0]], p[1..], Mogrify(t, args, quote));
      assert [p[0]] + p[1..] == p;
    }
  }

  lemma {:induction false} MogrifySlots(n: nat, item: Row, quote: Value -> string)
    requires n >= 1
    ensures Mogrify(Join(", ", Slots(n)) + ")", item, quote)
            == if |item| == n then Ok(Join(", ", QuoteAll(item, quote)) + ")") else Err(ArityError(n, item))
  {
    var t := Join(", ", Slots(n)) + ")";
    if n == 1 {
      assert Slots(1) == ["%s"];
      assert t == "%s" + ")";
      if item != [] {
        assert t[2..] == ")" + "";
        MogrifyLiteral(")", "", item[1..], quote);
        assert ")" + "" == ")";
        if |item| == 1 {
          assert QuoteAll(item, quote) == [quote(item[0])];
        }
      }
    } else {
      assert Slots(n)[1..] == Slots(n - 1);
      var t' := Join(", ", Slots(n - 1)) + ")";
      assert t == "%s" + (", " + t');
      assert t[0] == '%' && t[1] == 's' && t[2..] == ", " + t';
      if item != [] {
        MogrifyLiteral(", ", t', item[1..], quote);
        MogrifySlots(n - 1, item[1..], quote);
        if |item| == n {
          var qs := QuoteAll(item, quote);
          assert qs[1..] == QuoteAll(item[1..], quote);
          assert Join(", ", qs) == qs[0] + ", " + Join(", ", qs[1..]);
          assert qs[0] == quote(item[0]);
          assert quote(item[0]) + (", " + (Join(", ", qs[1..]) + ")")) == Join(", ", qs) + ")";
        }
      }
    }
  }

  /** Mogrifying the placeholder group of a column list with one tuple:
      a parenthesised, comma-separated list of the tuple's literals exactly
      when the tuple has one value per column, and otherwise the IndexError
      of a missing value or the TypeError of a surplus one. */
  lemma MogrifyGroup(fields: string, item: Row, quote: Value -> string)
    ensures Mogrify(PlaceholderGroup(fields), item, quote)
            == if |item| == |Split(fields, ',')| then Ok("(" + Join(", ", QuoteAll(item, quote)) + ")")
               else Err(ArityError(|Split(fields, ',')|, item))
  {
    var n := |Split(fields, ',')|;
    assert PlaceholderGroup(fields) == "(" + (Join(", ", Slots(n)) + ")");
    MogrifyLiteral("(", Join(", ", Slots(n)) + ")", item, quote);
    MogrifySlots(n, item, quote);
    if |item| == n {
      assert "(" + (Join(", ", QuoteAll(item, quote)) + ")") == "(" + Join(", ", QuoteAll(item, quote)) + ")";
    }
  }

  /** `','.join(mogrify(group, item) for item in data)`. */
  function RenderValues(group: string, data: seq<Row>, quote: Value -> string): Result<string>
  {
    if data == [] then Ok("")
    else match Mogrify(group, data[0], quote)
      case Err(e) => Err(e)
      case Ok(g) =>
        if |data| == 1 then Ok(g)
        else Prepend(g + ",", RenderValues(group, data[1..], quote))
  }

  /** The VALUES list has one group per tuple, joined by `,`, and fails as
      soon as one tuple fails to render. */
  lemma {:induction false} RenderValuesJoins(group: string, data: seq<Row>, quote: Value -> string)
    ensures RenderValues(group, data, quote).Ok? <==> forall i :: 0 <= i < |data| ==> Mogrify(group, data[i], quote).Ok?
    ensures RenderValues(group, data, quote).Ok? ==>
              RenderValues(group, data, quote).value
              == Join(",", seq(|data|, i requires 0 <= i < |data| && Mogrify(group, data[i], quote).Ok? =>
                                 Mogrify(group, data[i], quote).value))
  {
    if data != [] {
      RenderValuesJoins(group, data[1..], quote);
      assert forall i :: 1 <= i < |data| ==> data[i] == data[1..][i - 1];
      if RenderValues(group, data, quote).Ok? {
        var gs := seq(|data|, i requires 0 <= i < |data| && Mogrify(group, data[i], quote).Ok? =>
                                 Mogrify(group, data[i], quote).value);
        if |data| > 1 {
          assert gs[1..] == seq(|data| - 1, i requires 0 <= i < |data| - 1 && Mogrify(group, data[1..][i], quote).Ok? =>
                                 Mogrify(group, data[1..][i], quote).value);
        }
      }
    }
  }

  /** The statement text around the VALUES list. */
  function InsertHead(table: string, fields: string): string
  {
    "\n        INSERT INTO content." + table + " (" + fields + ")\n        VALUES "
  }

  const ConflictClause: string := "\n        ON CONFLICT (id) DO NOTHING\n        "

  /** The rendered statement of `execute_migration`. */
  function RenderInsert(table: string, fields: string, data: seq<Row>, quote: Value -> string): Result<string>
  {
    match RenderValues(PlaceholderGroup(fields), data, quote)
    case Err(e) => Err(e)
    case Ok(args) => Ok(InsertHead(table, fields) + args + ConflictClause)
  }

  /** The literal group rendered for one tuple. */
  function Group(item: Row, quote: Value -> string): string
  {
    "(" + Join(", ", QuoteAll(item, quote)) + ")"
  }

  /** Every tuple has as many values as the column list has names. */
  ghost predicate Conforms(fields: string, data: seq<Row>)
  {
    forall i :: 0 <= i < |data| ==> |data[i]| == |Split(fields, ',')|
  }

  /** The error of the first tuple that does not have `n` values, or
      `Absent` when every tuple has. */
  function FirstMisfit(n: nat, data: seq<Row>): (e: Option<Error>)
    ensures e == Absent <==> forall i :: 0 <= i < |data| ==> |data[i]| == n
    ensures e.Present? ==> exists i :: 0 <= i < |data| && |data[i]| != n && e.value == ArityError(n, data[i])
  {
    if data == [] then Absent
    else if |data[0]| != n then Present(ArityError(n, data[0]))
    else
      var e := FirstMisfit(n, data[1..]);
      assert forall i :: 1 <= i < |data| ==> data[i] == data[1..][i - 1];
      e
  }

  /** A VALUES list that fails to render fails with the error of the first
      tuple that does not fit the column list. */
  lemma {:induction false} RenderValuesMisfit(fields: string, data: seq<Row>, quote: Value -> string)
    ensures var r := RenderValues(PlaceholderGroup(fields), data, quote);
            var m := FirstMisfit(|Split(fields, ',')|, data);
            (r.Err? <==> m.Present?) && (r.Err? ==> r.error == m.value)
  {
    if data != [] {
      MogrifyGroup(fields, data[0], quote);
      RenderValuesMisfit(fields, data[1..], quote);
    }
  }

  /** The shape of a rendered bulk insert: it renders exactly when every
      tuple has one value per column, and then it is the INSERT head, one
      parenthesised literal group per tuple in tuple order joined by `,`,
      and the conflict-skip clause. */
  lemma RenderedInsertShape(table: string, fields: string, data: seq<Row>, quote: Value -> string)
    ensures RenderInsert(table, fields, data, quote).Ok? <==> Conforms(fields, data)
    ensures RenderInsert(table, fields, data, quote).Ok? ==>
              RenderInsert(table, fields, data, quote).value
              == InsertHead(table, fields)
                 + Join(",", seq(|data|, i requires 0 <= i < |data| => Group(data[i], quote)))
                 + ConflictClause
  {
    var group := PlaceholderGroup(fields);
    RenderValuesJoins(group, data, quote);
    forall i | 0 <= i < |data|
      ensures Mogrify(group, data[i], quote)
              == if |data[i]| == |Split(fields, ',')| then Ok(Group(data[i], quote))
                 else Err(ArityError(|Split(fields, ',')|, data[i]))
    {
      MogrifyGroup(fields, data[i], quote);
    }
    if RenderInsert(table, fields, data, quote).Ok? {
      var gs := seq(|data|, i requires 0 <= i < |data| && Mogrify(group, data[i], quote).Ok? =>
                               Mogrify(group, data[i], quote).value);
      assert gs == seq(|data|, i requires 0 <= i < |data| => Group(data[i], quote));
    }
  }

  // ---------------------------------------------------------------------
  // The target store's reading of the statements

  /** One target table: tuples keyed by their `id`, the first column of
      every column list the load uses. */
  type Relation = map<Value, Row>

  /** The `content` schema: tables by their folded (lower-case) name. */
  type Store = map<string, Relation>

  /** PostgreSQL folds unquoted identifiers to lower case. */
  function FoldIdentifier(name: string): string
  {
    seq(|name|, i requires 0 <= i < |name| =>
      if 'A' <= name[i] <= 'Z' then (name[i] as int + 32) as char else name[i])
  }

  function IdOf(tuple: Row): Value
  {
    if tuple == [] then None else tuple[0]
  }

  /** The ids of a sequence of tuples. */
  function Ids(tuples: seq<Row>): set<Value>
  {
    set i | 0 <= i < |tuples| :: IdOf(tuples[i])
  }

  /** Insert-if-absent, tuple by tuple: the reading of
      `ON CONFLICT (id) DO NOTHING`. */
  function InsertAll(rel: Relation, tuples: seq<Row>): Relation
    decreases |tuples|
  {
    if tuples == [] then rel
    else
      var id := IdOf(tuples[0]);
      InsertAll(if id in rel then rel else rel[id := tuples[0]], tuples[1..])
  }

  datatype Statement =
    | TruncateCascade(table: string)
    | InsertIgnore(table: string, columns: string, tuples: seq<Row>)

  /** The text sent for a statement. */
  function Text(s: Statement, quote: Value -> string): Result<string>
  {
    match s
    case TruncateCascade(t) => Ok("TRUNCATE content." + t + " CASCADE")
    case InsertIgnore(t, c, tuples) => RenderInsert(t, c, tuples, quote)
  }

  /** The tables a truncate empties: the named one and those `cascade`
      lists for it (the tables whose foreign keys lead to it). */
  function Truncated(store: Store, name: string, cascade: map<string, set<string>>): Store
  {
    map k | k in store :: if k == name || (name in cascade && k in cascade[name]) then map[] else store[k]
  }

  /** The effect of one statement on the store, or the error the server
      raises: an unknown table, or an INSERT whose VALUES list is empty,
      which is not valid SQL. */
  function Apply(s: Statement, store: Store, cascade: map<string, set<string>>): Result<Store>
  {
    match s
    case TruncateCascade(t) =>
      if FoldIdentifier(t) !in store then Err(QueryError)
      else Ok(Truncated(store, FoldIdentifier(t), cascade))
    case InsertIgnore(t, _, tuples) =>
      if tuples == [] then Err(SyntaxError)
      else if FoldIdentifier(t) !in store then Err(QueryError)
      else Ok(store[FoldIdentifier(t) := InsertAll(store[FoldIdentifier(t)], tuples)])
  }

  /** The write side of the psycopg2 cursor. The server parses the text it
      receives; the model hands it the statement that text renders. */
  class PgCursor {
    /** mogrify's literal quoting. */
    const quote: Value -> string
    /** For each table, the tables its TRUNCATE ... CASCADE also empties. */
    const cascade: map<string, set<string>>
    var store: Store

    constructor (quote: Value -> string, cascade: map<string, set<string>>, store: Store)
      ensures this.quote == quote && this.cascade == cascade && this.store == store
    {
      this.quote := quote;
      this.cascade := cascade;
      this.store := store;
    }

    method Execute(sql: string, s: Statement) returns (r: Outcome)
      requires Text(s, quote) == Ok(sql)
      modifies this
      ensures Apply(s, old(store), cascade).Ok? ==> r == Pass && store == Apply(s, old(store), cascade).value
      ensures Apply(s, old(store), cascade).Err? ==>
                r == Fail(Apply(s, old(store), cascade).error) && store == old(store)
    {
      var a := Apply(s, store, cascade);
      if a.Err? {
        return Fail(a.error);
      }
      store := a.value;
      r := Pass;
    }
  }

  /** `execute_migration`: render the placeholder group, mogrify every
      tuple, join the groups and send one conflict-skipping INSERT. */
  method ExecuteMigration(table: string, fields: string, data: seq<Row>, pg: PgCursor) returns (r: Outcome)
    modifies pg
    ensures !Conforms(fields, data) ==>
              r == Fail(FirstMisfit(|Split(fields, ',')|, data).value) && pg.store == old(pg.store)
    ensures Conforms(fields, data) ==>
              var a := Apply(InsertIgnore(table, fields, data), old(pg.store), pg.cascade);
              (a.Ok? ==> r == Pass && pg.store == a.value) && (a.Err? ==> r == Fail(a.error) && pg.store == old(pg.store))
  {
    var formatSymbols := PlaceholderGroup(fields);
    var args := RenderValues(formatSymbols, data, pg.quote);
    RenderedInsertShape(table, fields, data, pg.quote);
    if args.Err? {
      assert !Conforms(fields, data) by {
        RenderValuesJoins(formatSymbols, data, pg.quote);
        var i :| 0 <= i < |data| && Mogrify(formatSymbols, data[i], pg.quote).Err?;
        MogrifyGroup(fields, data[i], pg.quote);
      }
      RenderValuesMisfit(fields, data, pg.quote);
      return Fail(args.error);
    }
    var sql := InsertHead(table, fields) + args.value + ConflictClause;
    r := pg.Execute(sql, InsertIgnore(table, fields, data));
  }

  // ---------------------------------------------------------------------
  // Properties of conflict-skipping inserts

  lemma IdsCons(tuples: seq<Row>)
    requires tuples != []
    ensures Ids(tuples) == {IdOf(tuples[0])} + Ids(tuples[1..])
  {
    forall x | x in Ids(tuples) ensures x in {IdOf(tuples[0])} + Ids(tuples[1..]) {
      var i :| 0 <= i < |tuples| && IdOf(tuples[i]) == x;
      if i > 0 { assert IdOf(tuples[1..][i - 1]) == x; }
    }
    forall x | x in Ids(tuples[1..]) ensures x in Ids(tuples) {
      var i :| 0 <= i < |tuples[1..]| && IdOf(tuples[1..][i]) == x;
      assert IdOf(tuples[i + 1]) == x;
    }
  }

  /** A conflict-skipping insert adds exactly the ids inserted. */
  lemma {:induction false} InsertAllKeys(rel: Relation, tuples: seq<Row>)
    ensures InsertAll(rel, tuples).Keys == rel.Keys + Ids(tuples)
    decreases |tuples|
  {
    if tuples != [] {
      var id := IdOf(tuples[0]);
      IdsCons(tuples);
      InsertAllKeys(if id in rel then rel else rel[id := tuples[0]], tuples[1..]);
    }
  }

  /** A conflict-skipping insert never overwrites an existing tuple. */
  lemma {:induction false} InsertAllKeeps(rel: Relation, tuples: seq<Row>, id: Value)
    requires id in rel
    ensures id in InsertAll(rel, tuples) && InsertAll(rel, tuples)[id] == rel[id]
    decreases |tuples|
  {
    if tuples != [] {
      var first := IdOf(tuples[0]);
      InsertAllKeeps(if first in rel then rel else rel[first := tuples[0]], tuples[1..], id);
    }
  }

  /** A new id holds the first tuple that carried it: later duplicates in
      the same statement are skipped. */
  lemma {:induction false} InsertAllFirstWins(rel: Relation, tuples: seq<Row>, i: nat)
    requires i < |tuples| && IdOf(tuples[i]) !in rel
    requires forall j :: 0 <= j < i ==> IdOf(tuples[j]) != IdOf(tuples[i])
    ensures IdOf(tuples[i]) in InsertAll(rel, tuples)
    ensures InsertAll(rel, tuples)[IdOf(tuples[i])] == tuples[i]
    decreases |tuples|
  {
    var first := IdOf(tuples[0]);
    var next := if first in rel then rel else rel[first := tuples[0]];
    if i == 0 {
      InsertAllKeeps(next, tuples[1..], first);
    } else {
      assert tuples[1..][i - 1] == tuples[i];
      assert IdOf(tuples[0]) != IdOf(tuples[i]);
      InsertAllFirstWins(next, tuples[1..], i - 1);
    }
  }

  /** Inserting tuples whose ids are all present changes nothing. */
  lemma {:induction false} InsertAllPresent(rel: Relation, tuples: seq<Row>)
    requires Ids(tuples) <= rel.Keys
    ensures InsertAll(rel, tuples) == rel
    decreases |tuples|
  {
    if tuples != [] {
      IdsCons(tuples);
      InsertAllPresent(rel, tuples[1..]);
    }
  }

  /** Re-running a conflict-skipping insert is a no-op: the load can be
      repeated without duplicating or altering rows. */
  lemma InsertAllIdempotent(rel: Relation, tuples: seq<Row>)
    ensures InsertAll(InsertAll(rel, tuples), tuples) == InsertAll(rel, tuples)
  {
    InsertAllKeys(rel, tuples);
    InsertAllPresent(InsertAll(rel, tuples), tuples);
  }

  /** Pairwise distinct ids. */
  ghost predicate DistinctIds(tuples: seq<Row>)
  {
    forall i, j :: 0 <= i < j < |tuples| ==> IdOf(tuples[i]) != IdOf(tuples[j])
  }

  /** Tuples with distinct ids, none of them already present, each add
      exactly one row. */
  lemma {:induction false} InsertAllCount(rel: Relation, tuples: seq<Row>)
    requires DistinctIds(tuples)
    requires Ids(tuples) !! rel.Keys
    ensures |InsertAll(rel, tuples)| == |rel| + |tuples|
    decreases |tuples|
  {
    if tuples != [] {
      var id := IdOf(tuples[0]);
      IdsCons(tuples);
      assert id !in Ids(tuples[1..]) by {
        forall x | x in Ids(tuples[1..]) ensures x != id {
          var i :| 0 <= i < |tuples[1..]| && IdOf(tuples[1..][i]) == x;
          assert IdOf(tuples[i + 1]) == x;
        }
      }
      assert DistinctIds(tuples[1..]) by {
        forall i, j | 0 <= i < j < |tuples[1..]| ensures IdOf(tuples[1..][i]) != IdOf(tuples[1..][j]) {
          assert tuples[1..][i] == tuples[i + 1] && tuples[1..][j] == tuples[j + 1];
        }
      }
      InsertAllCount(rel[id := tuples[0]], tuples[1..]);
    }
  }

  /** Two conflict-skipping inserts in a row are one insert of both lists. */
  lemma {:induction false} InsertAllAppend(rel: Relation, xs: seq<Row>, ys: seq<Row>)
    ensures InsertAll(InsertAll(rel, xs), ys) == InsertAll(rel, xs + ys)
    decreases |xs|
  {
    if xs == [] {
      assert xs + ys == ys;
    } else {
      assert (xs + ys)[1..] == xs[1..] + ys;
      var id := IdOf(xs[0]);
      InsertAllAppend(if id in rel then rel else rel[id := xs[0]], xs[1..], ys);
    }
  }
}
