/** The record objects the verifier builds: dataclasses whose every field
    defaults to `None`, filled attribute by attribute, and compared with
    either the generated equality or a hand-written field-subset one. */
module TableObjects {
  import opened Values

  /** The five record classes. */
  datatype Kind = PersonKind | GenreKind | GenreFilmworkKind | PersonFilmWorkKind | FilmworkKind

  /** The fields each class declares, in declaration order. */
  function Declared(k: Kind): (names: seq<string>)
    ensures |names| > 0 && names[0] == "id"
  {
    match k
    case PersonKind => ["id", "full_name", "created", "modified"]
    case GenreKind => ["id", "name", "description", "created", "updated"]
    case GenreFilmworkKind => ["id", "film_work", "genre", "created"]
    case PersonFilmWorkKind => ["id", "film_work", "person", "role", "created"]
    case FilmworkKind =>
      ["id", "title", "description", "creation_date", "file_path", "rating", "type", "created", "modified"]
  }

  /** An instance: its class and its attributes by name. */
  datatype Obj = Obj(kind: Kind, attrs: map<string, Value>)

  /** `table()`: every declared field set to its default, `None`. */
  function New(k: Kind): (o: Obj)
    ensures o.kind == k
    ensures forall name :: name in o.attrs <==> name in Declared(k)
    ensures forall name :: name in o.attrs ==> o.attrs[name] == None
  {
    Obj(k, map name | name in Declared(k) :: None)
  }

  /** Attribute read: AttributeError for a name the object does not have. */
  function GetAttr(o: Obj, name: string): (r: Result<Value>)
    ensures r.Ok? <==> name in o.attrs
    ensures r.Err? ==> r.error == AttributeError
  {
    if name in o.attrs then Ok(o.attrs[name]) else Err(AttributeError)
  }

  /** `setattr(o, name, v)`: dataclasses without slots accept any name. */
  function SetAttr(o: Obj, name: string, v: Value): (r: Obj)
    ensures r.kind == o.kind
    ensures GetAttr(r, name) == Ok(v)
    ensures forall other :: other != name ==> GetAttr(r, other) == GetAttr(o, other)
  {
    o.(attrs := o.attrs[name := v])
  }

  /** The two classes with a hand-written `__eq__`. */
  predicate CustomEq(k: Kind)
  {
    k == GenreKind || k == FilmworkKind
  }

  /** The fields `__eq__` compares: the hand-written ones leave out
      `created`/`updated` for Genre and `file_path` for Filmwork; the
      generated one compares every declared field. */
  function Compared(k: Kind): seq<string>
  {
    match k
    case GenreKind => ["id", "name", "description"]
    case FilmworkKind =>
      ["id", "title", "description", "creation_date", "rating", "type", "created", "modified"]
    case _ => Declared(k)
  }

  /** Reads `self.n` and `other.n` for each name in order; the first
      missing attribute raises, otherwise the result says whether every
      pair is equal. */
  function FieldsEqual(self: Obj, other: Obj, names: seq<string>): (r: Result<bool>)
    ensures r.Err? ==> r.error == AttributeError
    ensures r.Ok? <==> forall k :: 0 <= k < |names| ==> names[k] in self.attrs && names[k] in other.attrs
    ensures r.Ok? ==> (r.value <==> forall k :: 0 <= k < |names| ==> PyEq(self.attrs[names[k]], other.attrs[names[k]]))
  {
    if names == [] then Ok(true)
    else
      match GetAttr(self, names[0])
      case Err(e) => Err(e)
      case Ok(x) =>
        match GetAttr(other, names[0])
        case Err(e) => Err(e)
        case Ok(y) =>
          match FieldsEqual(self, other, names[1..])
          case Err(e) => Err(e)
          case Ok(rest) =>
            assert forall k :: 1 <= k < |names| ==> names[k] == names[1..][k - 1];
            Ok(PyEq(x, y) && rest)
  }

  /** `self == other`. A hand-written `__eq__` reads the other object's
      fields whatever its class; the generated one answers only for an
      object of its own class, and Python then tries the other operand's
      `__eq__` before falling back to identity, which two objects of
      different classes never share. */
  function Eq(self: Obj, other: Obj): Result<bool>
  {
    if CustomEq(self.kind) then FieldsEqual(self, other, Compared(self.kind))
    else if self.kind == other.kind then FieldsEqual(self, other, Declared(self.kind))
    else if CustomEq(other.kind) then FieldsEqual(other, self, Compared(other.kind))
    else Ok(false)
  }

  /** The object has every field its class declares, as every object the
      verifier builds does. */
  predicate Complete(o: Obj)
  {
    forall k :: 0 <= k < |Declared(o.kind)| ==> Declared(o.kind)[k] in o.attrs
  }

  lemma ComparedAreDeclared(k: Kind)
    ensures forall j :: 0 <= j < |Compared(k)| ==> Compared(k)[j] in Declared(k)
  {
  }

  /** Genre equality holds exactly when `id`, `name` and `description`
      are equal. */
  lemma GenreEq(a: Obj, b: Obj)
    requires a.kind == GenreKind
    requires {"id", "name", "description"} <= a.attrs.Keys && {"id", "name", "description"} <= b.attrs.Keys
    ensures Eq(a, b) == Ok(PyEq(a.attrs["id"], b.attrs["id"]) && PyEq(a.attrs["name"], b.attrs["name"])
                          && PyEq(a.attrs["description"], b.attrs["description"]))
  {
    var names := Compared(GenreKind);
    assert names[0] == "id" && names[1] == "name" && names[2] == "description";
  }

  /** Genre equality ignores `created` and `updated`. */
  lemma GenreEqIgnoresStamps(a: Obj, b: Obj, created: Value, updated: Value)
    requires a.kind == GenreKind
    ensures Eq(a, SetAttr(SetAttr(b, "created", created), "updated", updated)) == Eq(a, b)
  {
    var b' := SetAttr(SetAttr(b, "created", created), "updated", updated);
    var names := Compared(GenreKind);
    forall k | 0 <= k < |names| ensures GetAttr(b', names[k]) == GetAttr(b, names[k]) {
    }
    FieldsEqualSameReads(a, b, b', names);
  }

  /** Filmwork equality ignores `file_path`. */
  lemma FilmworkEqIgnoresFilePath(a: Obj, b: Obj, filePath: Value)
    requires a.kind == FilmworkKind
    ensures Eq(a, SetAttr(b, "file_path", filePath)) == Eq(a, b)
  {
    var b' := SetAttr(b, "file_path", filePath);
    var names := Compared(FilmworkKind);
    forall k | 0 <= k < |names| ensures GetAttr(b', names[k]) == GetAttr(b, names[k]) {
    }
    FieldsEqualSameReads(a, b, b', names);
  }

  /** Objects that answer the same to every compared name compare alike. */
  lemma {:induction false} FieldsEqualSameReads(a: Obj, b: Obj, b': Obj, names: seq<string>)
    requires forall k :: 0 <= k < |names| ==> GetAttr(b', names[k]) == GetAttr(b, names[k])
    ensures FieldsEqual(a, b', names) == FieldsEqual(a, b, names)
  {
    if names != [] {
      FieldsEqualSameReads(a, b, b', names[1..]);
    }
  }

  /** Filmwork equality holds exactly when its eight compared fields are
      equal. */
  lemma FilmworkEq(a: Obj, b: Obj)
    requires a.kind == FilmworkKind && b.kind == FilmworkKind && Complete(a) && Complete(b)
    ensures Eq(a, b).Ok?
    ensures Eq(a, b).value <==> forall j :: 0 <= j < |Compared(FilmworkKind)| ==>
              PyEq(a.attrs[Compared(FilmworkKind)[j]], b.attrs[Compared(FilmworkKind)[j]])
    ensures "file_path" !in Compared(FilmworkKind)
  {
    ComparedAreDeclared(FilmworkKind);
  }

  /** The other three classes compare every declared field, and an object
      of another class is never equal to them unless that class's own
      `__eq__` says so. */
  lemma GeneratedEq(a: Obj, b: Obj)
    requires !CustomEq(a.kind) && Complete(a)
    ensures a.kind == b.kind && Complete(b) ==>
              Eq(a, b) == Ok(forall j :: 0 <= j < |Declared(a.kind)| ==>
                              PyEq(a.attrs[Declared(a.kind)[j]], b.attrs[Declared(a.kind)[j]]))
    ensures a.kind != b.kind && !CustomEq(b.kind) ==> Eq(a, b) == Ok(false)
  {
  }

  /** On complete objects of one class, `==` is an equivalence. */
  lemma EqIsEquivalence(a: Obj, b: Obj, c: Obj)
    requires a.kind == b.kind == c.kind && Complete(a) && Complete(b) && Complete(c)
    ensures Eq(a, a) == Ok(true)
    ensures Eq(a, b) == Eq(b, a)
    ensures Eq(a, b) == Ok(true) && Eq(b, c) == Ok(true) ==> Eq(a, c) == Ok(true)
  {
    PyEqIsEquivalence();
    ComparedAreDeclared(a.kind);
  }

  /** A fresh object is complete and has every field `None`; two fresh
      objects of a class are equal. */
  lemma NewIsDefault(k: Kind)
    ensures Complete(New(k))
    ensures forall j :: 0 <= j < |Declared(k)| ==> GetAttr(New(k), Declared(k)[j]) == Ok(None)
    ensures Eq(New(k), New(k)) == Ok(true)
  {
    ComparedAreDeclared(k);
  }
}
