/** Values that flow between the two stores, the exceptions the migration code
    can raise, and small string helpers shared by the other modules. */
module Values {

  /** A column value as the Python database drivers hand it over. Floats and
      datetimes are never computed on, only copied, compared and formatted,
      so they are opaque tokens here. */
  datatype Value =
    | None
    | Str(s: string)
    | Int(n: int)
    | Float(f: real)
    | DateTime(instant: int)

  /** A row as returned by a cursor: a tuple of column values. */
  type Row = seq<Value>

  /** The exceptions the modelled code can raise or propagate. */
  datatype Error =
    | IndexError          // tuple index or pop from an empty list
    | KeyError            // dictionary lookup of a missing key
    | TypeError           // operation on a value of the wrong type
    | AttributeError      // missing attribute or method
    | QueryError          // the store rejected a query (unknown table or column)
    | SyntaxError         // the target store rejected the statement text
    | ValueError          // a format directive other than `%s` or `%%`
    | AssertionFailed(what: string)

  datatype Result<T> = Ok(value: T) | Err(error: Error)

  datatype Outcome = Pass | Fail(error: Error)

  datatype Option<T> = Absent | Present(value: T)

  /** Python's `s[:-k]` for `k > 0`: drops the last `k` characters, or
      everything when the string is shorter. */
  function DropLast(s: string, k: nat): (r: string)
    ensures |s| >= k ==> r == s[..|s| - k]
    ensures |s| < k ==> r == ""
  {
    if |s| >= k then s[..|s| - k] else ""
  }

  /** Number of occurrences of `c` in `s`. */
  function Occurrences(s: string, c: char): nat
  {
    if s == [] then 0 else (if s[0] == c then 1 else 0) + Occurrences(s[1..], c)
  }

  /** Python's `s.split(c)` for a one-character separator. */
  function Split(s: string, c: char): (r: seq<string>)
    ensures |r| == Occurrences(s, c) + 1
    ensures forall k :: 0 <= k < |r| ==> c !in r[k]
  {
    if s == [] then [""]
    else
      var rest := Split(s[1..], c);
      if s[0] == c then [""] + rest
      else [[s[0]] + rest[0]] + rest[1..]
  }

  /** Python's `sep.join(parts)`. */
  function Join(sep: string, parts: seq<string>): string
  {
    if parts == [] then ""
    else if |parts| == 1 then parts[0]
    else parts[0] + sep + Join(sep, parts[1..])
  }

  /** Python's `s * n` for a string. */
  function Repeat(s: string, n: nat): (r: string)
    ensures |r| == n * |s|
  {
    if n == 0 then "" else s + Repeat(s, n - 1)
  }

  /** Position of the first occurrence of `x` in `xs`, if any. */
  function IndexOf<T(==)>(xs: seq<T>, x: T): (r: Result<nat>)
    ensures r.Ok? <==> x in xs
    ensures r.Ok? ==> r.value < |xs| && xs[r.value] == x && x !in xs[..r.value]
  {
    if xs == [] then Err(KeyError)
    else if xs[0] == x then Ok(0)
    else match IndexOf(xs[1..], x)
      case Ok(k) => assert xs[1..][..k] == xs[1..k + 1]; Ok(k + 1)
      case Err(e) => Err(e)
  }

  /** Concatenation of a sequence of sequences. */
  function Flatten<T>(xss: seq<seq<T>>): seq<T>
  {
    if xss == [] then [] else xss[0] + Flatten(xss[1..])
  }

  lemma {:induction false} FlattenAppend<T>(xss: seq<seq<T>>, ys: seq<T>)
    ensures Flatten(xss + [ys]) == Flatten(xss) + ys
  {
    if xss == [] {
      assert [] + [ys] == [ys];
    } else {
      assert (xss + [ys])[1..] == xss[1..] + [ys];
      FlattenAppend(xss[1..], ys);
    }
  }

  lemma {:induction false} OccurrencesConcat(a: string, b: string, c: char)
    ensures Occurrences(a + b, c) == Occurrences(a, c) + Occurrences(b, c)
  {
    if a == [] {
      assert a + b == b;
    } else {
      assert (a + b)[1..] == a[1..] + b;
      OccurrencesConcat(a[1..], b, c);
    }
  }

  lemma {:induction false} NoOccurrences(s: string, c: char)
    requires c !in s
    ensures Occurrences(s, c) == 0
  {
    if s != [] {
      assert s == [s[0]] + s[1..];
      NoOccurrences(s[1..], c);
    }
  }

  /** Joining comma-free names with ", " places exactly one comma between
      neighbours, so splitting the result at ',' gives one piece per name. */
  lemma {:induction false} SplitJoinedNames(names: seq<string>)
    requires names != []
    requires forall k :: 0 <= k < |names| ==> ',' !in names[k]
    ensures |Split(Join(", ", names), ',')| == |names|
    ensures Occurrences(Join(", ", names), ',') + 1 == |names|
  {
    NoOccurrences(names[0], ',');
    if |names| > 1 {
      SplitJoinedNames(names[1..]);
      OccurrencesConcat(names[0], ", ", ',');
      OccurrencesConcat(names[0] + ", ", Join(", ", names[1..]), ',');
    }
  }

  /** Python's `==` on column values: an int equals a float of the same
      numeric value; otherwise values are equal when they are the same value
      of the same type. */
  predicate PyEq(a: Value, b: Value)
  {
    match (a, b)
    case (Int(n), Float(f)) => n as real == f
    case (Float(f), Int(n)) => f == n as real
    case _ => a == b
  }

  lemma PyEqIsEquivalence()
    ensures forall a: Value :: PyEq(a, a)
    ensures forall a: Value, b: Value :: PyEq(a, b) ==> PyEq(b, a)
    ensures forall a: Value, b: Value, c: Value :: PyEq(a, b) && PyEq(b, c) ==> PyEq(a, c)
  {
  }
}
