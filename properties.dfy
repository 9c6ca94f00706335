/**
 * Properties of the decoder that relate several of its parts: how an object
 * with a primitive "type" reads, which keys each object form requires, what
 * the smallest accepted object of each named form decodes to (the library's
 * `new` constructors), and how a list decodes to a union.
 */
module Properties {
  import opened Wrappers
  import opened Json
  import opened Avro
  import opened De
  import opened Canonical

  // ---------------------------------------------------------------------
  // Primitive discriminators
  // ---------------------------------------------------------------------

  /**
   * An object whose last "type" entry, at any position, names a primitive
   * decodes to exactly that primitive, whatever other keys it holds.
   */
  lemma {:induction false} PrimitiveObject(p: Schema, entries: seq<(string, Value)>, i: nat)
    requires IsPrimitive(p)
    requires i < |entries| && entries[i] == ("type", Str(PrimitiveName(p)))
    requires forall j :: i < j < |entries| ==> entries[j].0 != "type"
    ensures Decode(Obj(entries)) == Ok(p)
  {
    CollectedLastWins(entries, i);
    DecodeOfObject(entries);
    PrimitiveNameInverse(p);
  }

  /** The bare name of a primitive and the object `{"type": name}` decode alike. */
  lemma {:induction false} StringObjectAgree(name: string)
    requires name in PrimitiveNames
    ensures Decode(Str(name)) == Decode(Obj([("type", Str(name))]))
    ensures Decode(Str(name)).Ok? && PrimitiveName(Decode(Str(name)).value) == name
  {
    var p := ToPrimitive(name).value;
    PrimitiveObject(p, [("type", Str(name))], 0);
  }

  /** Among duplicate keys the last one is read: a later "type" overrides an earlier one. */
  lemma {:induction false} DuplicateTypeLastWins(first: Value, p: Schema)
    requires IsPrimitive(p)
    ensures Decode(Obj([("type", first), ("type", Str(PrimitiveName(p)))])) == Ok(p)
  {
    CollectedPair("type", first, "type", Str(PrimitiveName(p)));
    CollectedFrom([("type", first), ("type", Str(PrimitiveName(p)))]);
  }

  // ---------------------------------------------------------------------
  // Required keys of the object forms
  // ---------------------------------------------------------------------

  /** A map without "values" and an array without "items" are rejected as incomplete. */
  lemma {:induction false} ContainersRequireChild(m: WorkMap, owner: Value)
    requires Owned(m, owner)
    ensures "type" in m && m["type"] == Str("map") && "values" !in m ==>
      DecodeObject(m, owner) == Err(MissingField)
    ensures "type" in m && m["type"] == Str("array") && "items" !in m ==>
      DecodeObject(m, owner) == Err(MissingField)
  {
    if "type" in m && m["type"] == Str("map") {
      DecodeObjectDispatch(m, owner, "map");
    }
    if "type" in m && m["type"] == Str("array") {
      DecodeObjectDispatch(m, owner, "array");
    }
  }

  /** A record or an enum without "name" is rejected as incomplete. */
  lemma {:induction false} NamedRequireName(m: WorkMap, owner: Value)
    requires Owned(m, owner)
    ensures "type" in m && m["type"] == Str("record") && "name" !in m ==>
      DecodeObject(m, owner) == Err(MissingField)
    ensures "type" in m && m["type"] == Str("enum") && "name" !in m ==>
      DecodeObject(m, owner) == Err(MissingField)
  {
    if "type" in m && m["type"] == Str("record") {
      DecodeObjectDispatch(m, owner, "record");
    }
    if "type" in m && m["type"] == Str("enum") {
      DecodeObjectDispatch(m, owner, "enum");
    }
  }

  /**
   * A fixed needs "size" and "name"; the size is read first, so a missing or
   * malformed size is reported even when the name is missing too.
   */
  lemma {:induction false} FixedRequiresSizeThenName(m: WorkMap, owner: Value)
    requires Owned(m, owner)
    requires "type" in m && m["type"] == Str("fixed")
    ensures "size" !in m ==> DecodeObject(m, owner) == Err(MissingField)
    ensures "size" in m && !m["size"].Num? ==> DecodeObject(m, owner) == Err(TypeMismatch)
    ensures "size" in m && m["size"].Num? && m["size"].n < 0 ==>
      DecodeObject(m, owner) == Err(InvalidValue)
    ensures "size" in m && SizeOf(m["size"]).Ok? && "name" !in m ==>
      DecodeObject(m, owner) == Err(MissingField)
  {
    DecodeObjectDispatch(m, owner, "fixed");
  }

  /**
   * A field needs "name" and "type"; a missing "aliases" reads as no aliases
   * and the other optional attributes as absent.
   */
  lemma {:induction false} FieldDefaults(m: WorkMap, owner: Value)
    requires Owned(m, owner)
    ensures "name" !in m || "type" !in m ==> FieldFromMap(m, owner).Err?
    ensures FieldFromMap(m, owner).Ok? && "aliases" !in m ==> FieldFromMap(m, owner).value.aliases == []
    ensures FieldFromMap(m, owner).Ok? && "doc" !in m ==> FieldFromMap(m, owner).value.doc == None
    ensures FieldFromMap(m, owner).Ok? && "order" !in m ==> FieldFromMap(m, owner).value.order == None
  {
  }

  // ---------------------------------------------------------------------
  // The smallest accepted objects and the library's constructors
  // ---------------------------------------------------------------------

  /**
   * `{"type": "enum", "name": n}` is the enum `Enum::new(n, [])`. Any string is
   * accepted as the name, the empty one included.
   */
  lemma {:induction false} MinimalEnum(name: string)
    ensures Decode(Obj([("type", Str("enum")), ("name", Str(name))])) == Ok(FromEnum(NewEnum(name, [])))
  {
    var entries := [("type", Str("enum")), ("name", Str(name))];
    CollectedPair("type", Str("enum"), "name", Str(name));
    DecodeOfObject(entries);
    var m := Collected(entries);
    DecodeObjectDispatch(m, Obj(entries), "enum");
    assert m - {"type"} == map["name" := Str(name)];
    EnumFromNameMap(name, m - {"type"});
  }

  /** The enum step of `MinimalEnum`, once "type" has been removed. */
  lemma {:induction false} EnumFromNameMap(name: string, m: WorkMap)
    requires m == map["name" := Str(name)]
    ensures ToEnum(m) == Ok(Taken(FromEnum(NewEnum(name, [])), map[]))
  {
    assert NamedOk(m);
    assert m - NameKeys - {"symbols", "default"} == map[];
  }

  /** `{"type": "record", "name": n, "fields": fs}` is `Record::new(n, fields)`, the fields in order. */
  lemma {:induction false} MinimalRecord(name: string, fields: seq<Value>, fs: seq<Field>)
    requires ToFields(fields) == Ok(fs)
    ensures Decode(Obj([("type", Str("record")), ("name", Str(name)), ("fields", Arr(fields))]))
      == Ok(FromRecord(NewRecord(name, fs)))
  {
    var entries := [("type", Str("record")), ("name", Str(name)), ("fields", Arr(fields))];
    CollectedTriple("type", Str("record"), "name", Str(name), "fields", Arr(fields));
    DecodeOfObject(entries);
    RecordObject(name, fields, fs, Collected(entries), Obj(entries));
  }

  /** The dispatch step of `MinimalRecord`. */
  lemma {:induction false} RecordObject(name: string, fields: seq<Value>, fs: seq<Field>,
                                        m: WorkMap, owner: Value)
    requires Owned(m, owner)
    requires m == map["type" := Str("record")]["name" := Str(name)]["fields" := Arr(fields)]
    requires ToFields(fields) == Ok(fs)
    ensures DecodeObject(m, owner) == Ok(FromRecord(NewRecord(name, fs)))
  {
    var rest := m - {"type"};
    assert rest == map["name" := Str(name)]["fields" := Arr(fields)];
    RecordFromMinimalMap(name, fields, fs, rest, owner);
    DecodeObjectDispatch(m, owner, "record");
  }

  /** The record step of `MinimalRecord`, once "type" has been removed. */
  lemma {:induction false} RecordFromMinimalMap(name: string, fields: seq<Value>, fs: seq<Field>,
                                                m: WorkMap, owner: Value)
    requires Owned(m, owner)
    requires m == map["name" := Str(name)]["fields" := Arr(fields)]
    requires ToFields(fields) == Ok(fs)
    ensures ToRecord(m, owner) == Ok(Taken(FromRecord(NewRecord(name, fs)), map[]))
  {
    assert NamedOk(m);
    assert m - NameKeys - {"fields"} == map[];
  }

  /** `{"type": "record", "name": n}` is `Record::new(n, [])`: "fields" may be left out. */
  lemma {:induction false} RecordWithoutFields(name: string)
    ensures Decode(Obj([("type", Str("record")), ("name", Str(name))])) == Ok(FromRecord(NewRecord(name, [])))
  {
    var entries := [("type", Str("record")), ("name", Str(name))];
    CollectedPair("type", Str("record"), "name", Str(name));
    DecodeOfObject(entries);
    var m := Collected(entries);
    DecodeObjectDispatch(m, Obj(entries), "record");
    assert m - {"type"} == map["name" := Str(name)];
    RecordFromNameMap(name, m - {"type"}, Obj(entries));
  }

  /** The record step of `RecordWithoutFields`, once "type" has been removed. */
  lemma {:induction false} RecordFromNameMap(name: string, m: WorkMap, owner: Value)
    requires Owned(m, owner)
    requires m == map["name" := Str(name)]
    ensures ToRecord(m, owner) == Ok(Taken(FromRecord(NewRecord(name, [])), map[]))
  {
    assert NamedOk(m) && "fields" !in m;
    assert m - NameKeys - {"fields"} == map[];
  }

  /** `{"type": "fixed", "name": n, "size": k}` is `Fixed::new(n, k)`. */
  lemma {:induction false} MinimalFixed(name: string, size: nat)
    ensures Decode(Obj([("type", Str("fixed")), ("name", Str(name)), ("size", Num(size))]))
      == Ok(FromFixed(NewFixed(name, size)))
  {
    var entries := [("type", Str("fixed")), ("name", Str(name)), ("size", Num(size))];
    CollectedTriple("type", Str("fixed"), "name", Str(name), "size", Num(size));
    DecodeOfObject(entries);
    FixedObject(name, size, Collected(entries), Obj(entries));
  }

  /** The dispatch step of `MinimalFixed`. */
  lemma {:induction false} FixedObject(name: string, size: nat, m: WorkMap, owner: Value)
    requires Owned(m, owner)
    requires m == map["type" := Str("fixed")]["name" := Str(name)]["size" := Num(size)]
    ensures DecodeObject(m, owner) == Ok(FromFixed(NewFixed(name, size)))
  {
    var rest := m - {"type"};
    assert rest == map["name" := Str(name)]["size" := Num(size)];
    FixedFromMinimalMap(name, size, rest);
    DecodeObjectDispatch(m, owner, "fixed");
  }

  /** The fixed step of `MinimalFixed`, once "type" has been removed. */
  lemma {:induction false} FixedFromMinimalMap(name: string, size: nat, m: WorkMap)
    requires m == map["name" := Str(name)]["size" := Num(size)]
    ensures ToFixed(m) == Ok(Taken(FromFixed(NewFixed(name, size)), map[]))
  {
    assert SizeOf(m["size"]) == Ok(size);
    assert NamedOk(m);
    assert m - {"size"} - NameKeys == map[];
  }

  /** `{"name": n, "type": t}` is the field `Field::new(n, s)` where `t` decodes to `s`. */
  lemma {:induction false} MinimalField(name: string, t: Value)
    requires Decode(t).Ok?
    ensures ToField(Obj([("name", Str(name)), ("type", t)])) == Ok(NewField(name, Decode(t).value))
  {
    var entries := [("name", Str(name)), ("type", t)];
    CollectedPair("name", Str(name), "type", t);
    ToFieldOfObject(entries);
    var m := Collected(entries);
    assert OptSchema(m, "type", Obj(entries));
  }

  // ---------------------------------------------------------------------
  // Lists
  // ---------------------------------------------------------------------

  /**
   * A list decodes to a union with one variant per element, in order, when
   * every element decodes; otherwise the first element that fails decides
   * the error.
   */
  lemma {:induction false} UnionOfList(items: seq<Value>)
    ensures Decode(Arr(items)).Ok? <==> forall i :: 0 <= i < |items| ==> Decode(items[i]).Ok?
    ensures Decode(Arr(items)).Ok? ==>
      && Decode(Arr(items)).value.Union?
      && |Decode(Arr(items)).value.variants| == |items|
      && forall i :: 0 <= i < |items| ==> Decode(items[i]) == Ok(Decode(Arr(items)).value.variants[i])
    ensures forall i :: 0 <= i < |items| && Decode(items[i]).Err?
                        && (forall j :: 0 <= j < i ==> Decode(items[j]).Ok?) ==>
      Decode(Arr(items)) == Err(Decode(items[i]).error)
  {
    forall i | 0 <= i < |items| && Decode(items[i]).Err? && (forall j :: 0 <= j < i ==> Decode(items[j]).Ok?)
      ensures Decode(Arr(items)) == Err(Decode(items[i]).error)
    {
      DecodeAllFirstError(items, i);
    }
  }

  /** `["null", "int"]`, the usual optional integer, is the union of Null and Int. */
  lemma {:induction false} OptionalIntUnion()
    ensures Decode(Arr([Str("null"), Str("int")])) == Ok(Union([Schema.Null, Int]))
  {
    var items := [Str("null"), Str("int")];
    assert Decode(items[0]) == Ok(Schema.Null);
    assert Decode(items[1]) == Ok(Int);
    UnionOfList(items);
    var u := Decode(Arr(items)).value;
    assert u.variants == [Schema.Null, Int];
  }

  // ---------------------------------------------------------------------
  // Worked examples
  // ---------------------------------------------------------------------

  /** A record named "R" with one string field "f": the field has no doc, default or order, and no aliases. */
  lemma {:induction false} RecordExample()
    ensures Decode(Obj([("type", Str("record")), ("name", Str("R")),
                        ("fields", Arr([Obj([("name", Str("f")), ("type", Str("string"))])]))]))
      == Ok(FromRecord(NewRecord("R", [NewField("f", String)])))
  {
    var fv := Obj([("name", Str("f")), ("type", Str("string"))]);
    assert Decode(Str("string")) == Ok(String);
    MinimalField("f", Str("string"));
    assert ToField(fv) == Ok(NewField("f", String));
    var t := ToFields([fv]);
    assert [fv][0] == fv;
    assert t.Ok? && |t.value| == 1;
    assert t.value[0] == NewField("f", String);
    assert t.value == [NewField("f", String)];
    MinimalRecord("R", [fv], [NewField("f", String)]);
  }

  /** `{"type": "array", "items": "long"}` is an array of longs. */
  lemma {:induction false} ArrayExample()
    ensures Decode(Obj([("type", Str("array")), ("items", Str("long"))])) == Ok(Array(Long))
  {
    assert Encode(Long) == Str("long");
    assert Decode(Encode(Long)) == Ok(Long);
    ArrayRoundTrip(Long);
  }

  /** `{"type": "map", "values": "boolean"}` is a map of booleans. */
  lemma {:induction false} MapExample()
    ensures Decode(Obj([("type", Str("map")), ("values", Str("boolean"))])) == Ok(Schema.Map(Boolean))
  {
    assert Encode(Boolean) == Str("boolean");
    assert Decode(Encode(Boolean)) == Ok(Boolean);
    MapRoundTrip(Boolean);
  }
}
