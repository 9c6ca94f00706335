/**
 * A canonical JSON form of every schema, and the proof that the decoder reads
 * it back unchanged. The library has no encoder; this one exists only so that
 * the decoder has an inverse to be checked against: every schema the data
 * model can hold is reachable, with every optional attribute and every list
 * preserved exactly.
 */
module Canonical {
  import opened Wrappers
  import opened Json
  import opened Avro
  import opened De

  type Entries = seq<(string, Value)>

  /** Append one entry. */
  function With(e: Entries, key: string, v: Value): (r: Entries)
    ensures |r| == |e| + 1 && r[..|e|] == e && r[|e|] == (key, v)
  {
    e + [(key, v)]
  }

  /** Append an entry only when the attribute is present. */
  function WithString(e: Entries, key: string, o: Option<string>): (r: Entries)
    ensures o.None? ==> r == e
    ensures o.Some? ==> r == With(e, key, Str(o.value))
  {
    if o.Some? then With(e, key, Str(o.value)) else e
  }

  /** A list of strings as a JSON array. */
  function Strings(ss: seq<string>): (v: Value)
    ensures v.Arr? && |v.items| == |ss|
    ensures forall i :: 0 <= i < |ss| ==> v.items[i] == Str(ss[i])
  {
    Arr(seq(|ss|, i requires 0 <= i < |ss| => Str(ss[i])))
  }

  /** "name", then the optional "namespace", "aliases" and the optional "doc". */
  function WithNamed(e: Entries, name: string, namespace: Option<string>,
                     aliases: seq<string>, doc: Option<string>): Entries
  {
    WithString(With(WithString(With(e, "name", Str(name)), "namespace", namespace),
                    "aliases", Strings(aliases)), "doc", doc)
  }

  function EnumEntries(e: Enum): Entries {
    WithString(With(WithNamed([("type", Str("enum"))], e.name, e.namespace, e.aliases, e.doc),
                    "symbols", Strings(e.symbols)), "default", e.default)
  }

  function FixedEntries(f: Fixed): Entries {
    WithNamed([("type", Str("fixed")), ("size", Num(f.size))], f.name, f.namespace, f.aliases, f.doc)
  }

  function RecordEntries(r: Record, fields: seq<Value>): Entries {
    With(WithNamed([("type", Str("record"))], r.name, r.namespace, r.aliases, r.doc),
         "fields", Arr(fields))
  }

  function Encode(s: Schema): Value
    decreases s, 1
  {
    match s
    case Record(r) => Obj(RecordEntries(r, EncodeFields(r.fields)))
    case Enum(e) => Obj(EnumEntries(e))
    case Fixed(f) => Obj(FixedEntries(f))
    case Array(t) => Obj([("type", Str("array")), ("items", Encode(t))])
    case Map(t) => Obj([("type", Str("map")), ("values", Encode(t))])
    case Union(vs) => Arr(EncodeAll(vs))
    case _ => Str(PrimitiveName(s))
  }

  function EncodeAll(vs: seq<Schema>): (r: seq<Value>)
    decreases vs, 0
    ensures |r| == |vs|
    ensures forall i :: 0 <= i < |vs| ==> r[i] == Encode(vs[i])
  {
    seq(|vs|, i requires 0 <= i < |vs| => Encode(vs[i]))
  }

  function FieldEntries(f: Field, schema: Value, default: Option<Value>): Entries {
    var e := WithString(With([], "name", Str(f.name)), "doc", f.doc);
    var e := With(e, "type", schema);
    var e := if default.Some? then With(e, "default", default.value) else e;
    var e := if f.order.Some? then With(e, "order", Str(OrderName(f.order.value))) else e;
    With(e, "aliases", Strings(f.aliases))
  }

  function EncodeField(f: Field): Value
    decreases f, 1
  {
    Obj(FieldEntries(f, Encode(f.schema),
                     if f.default.Some? then Some(Encode(f.default.value)) else None))
  }

  function EncodeFields(fs: seq<Field>): (r: seq<Value>)
    decreases fs, 0
    ensures |r| == |fs|
    ensures forall i :: 0 <= i < |fs| ==> r[i] == EncodeField(fs[i])
  {
    seq(|fs|, i requires 0 <= i < |fs| => EncodeField(fs[i]))
  }

  // ---------------------------------------------------------------------
  // The working map of a canonical object
  // ---------------------------------------------------------------------

  lemma {:induction false} CollectedWith(e: Entries, key: string, v: Value)
    ensures Collected(With(e, key, v)) == Collected(e)[key := v]
  {
  }

  lemma {:induction false} CollectedWithString(e: Entries, key: string, o: Option<string>)
    ensures o.None? ==> Collected(WithString(e, key, o)) == Collected(e)
    ensures o.Some? ==> Collected(WithString(e, key, o)) == Collected(e)[key := Str(o.value)]
  {
    if o.Some? {
      CollectedWith(e, key, Str(o.value));
    }
  }

  /** The strings of an encoded list are the list itself. */
  lemma {:induction false} PayloadsOfStrings(ss: seq<string>)
    ensures AllStrings(Strings(ss).items) && Payloads(Strings(ss).items) == ss
  {
  }

  /** The named-type attributes of a canonical object read back as written. */
  lemma {:induction false} CollectedWithNamed(e: Entries, name: string, namespace: Option<string>,
                                              aliases: seq<string>, doc: Option<string>)
    requires forall k :: k in NameKeys ==> k !in Collected(e)
    ensures var m := Collected(WithNamed(e, name, namespace, aliases, doc));
      && NamedOk(m) && m["name"] == Str(name)
      && StringAt(m, "namespace") == namespace && StringAt(m, "doc") == doc
      && StringsAt(m, "aliases") == aliases
      && m - NameKeys == Collected(e)
  {
    var e1 := With(e, "name", Str(name));
    var e2 := WithString(e1, "namespace", namespace);
    var e3 := With(e2, "aliases", Strings(aliases));
    CollectedWith(e, "name", Str(name));
    CollectedWithString(e1, "namespace", namespace);
    CollectedWith(e2, "aliases", Strings(aliases));
    CollectedWithString(e3, "doc", doc);
    PayloadsOfStrings(aliases);
    var m := Collected(WithNamed(e, name, namespace, aliases, doc));
    assert m.Keys - NameKeys == Collected(e).Keys;
  }

  // ---------------------------------------------------------------------
  // Round trips
  // ---------------------------------------------------------------------

  /** The working map of a canonical record, once "type" is removed. */
  lemma {:induction false} RecordMap(r: Record, fields: seq<Value>)
    ensures var m := Collected(RecordEntries(r, fields));
      && "type" in m && m["type"] == Str("record")
      && NamedOk(m - {"type"}) && (m - {"type"})["name"] == Str(r.name)
      && StringAt(m - {"type"}, "namespace") == r.namespace
      && StringAt(m - {"type"}, "doc") == r.doc
      && StringsAt(m - {"type"}, "aliases") == r.aliases
      && "fields" in m - {"type"} && (m - {"type"})["fields"] == Arr(fields)
  {
    var e0: Entries := [("type", Str("record"))];
    var e1 := WithNamed(e0, r.name, r.namespace, r.aliases, r.doc);
    assert e0 == With([], "type", Str("record"));
    CollectedWith([], "type", Str("record"));
    CollectedWithNamed(e0, r.name, r.namespace, r.aliases, r.doc);
    CollectedWith(e1, "fields", Arr(fields));
    var m := Collected(RecordEntries(r, fields));
    assert "type" !in NameKeys && Collected(e0)["type"] == Str("record");
    assert m["type"] == Collected(e1)["type"];
    NamedAgree(Collected(e1), m - {"type"});
  }

  /** The record step of a canonical record's map, once "type" is removed. */
  lemma {:induction false} RecordFromCanonicalMap(r: Record, fields: seq<Value>, m: WorkMap, owner: Value)
    requires Owned(m, owner)
    requires NamedOk(m) && m["name"] == Str(r.name)
    requires StringAt(m, "namespace") == r.namespace && StringAt(m, "doc") == r.doc
    requires StringsAt(m, "aliases") == r.aliases
    requires "fields" in m && m["fields"] == Arr(fields)
    requires ToFields(fields) == Ok(r.fields)
    ensures ToRecord(m, owner).Ok? && ToRecord(m, owner).value.value == Schema.Record(r)
  {
  }

  /** The fields of a record read back from their encodings when each one does. */
  lemma {:induction false} FieldsRoundTrip(fs: seq<Field>)
    requires forall i :: 0 <= i < |fs| ==> ToField(EncodeField(fs[i])) == Ok(fs[i])
    ensures ToFields(EncodeFields(fs)) == Ok(fs)
  {
    var t := ToFields(EncodeFields(fs));
    assert t.Ok?;
    assert t.value == fs;
  }

  lemma {:induction false} RecordRoundTrip(r: Record)
    requires forall i :: 0 <= i < |r.fields| ==> ToField(EncodeField(r.fields[i])) == Ok(r.fields[i])
    ensures Decode(Encode(Schema.Record(r))) == Ok(Schema.Record(r))
  {
    var fields := EncodeFields(r.fields);
    var e := RecordEntries(r, fields);
    assert Encode(Schema.Record(r)) == Obj(e);
    RecordMap(r, fields);
    DecodeOfObject(e);
    var m := Collected(e);
    FieldsRoundTrip(r.fields);
    DecodeObjectDispatch(m, Obj(e), "record");
    RecordFromCanonicalMap(r, fields, m - {"type"}, Obj(e));
  }

  /** Two maps that agree on the name keys read the same named-type attributes. */
  lemma {:induction false} NamedAgree(m: WorkMap, m': WorkMap)
    requires forall k :: k in NameKeys ==> (k in m <==> k in m') && (k in m ==> m[k] == m'[k])
    ensures NamedOk(m) == NamedOk(m')
    ensures StringAt(m, "namespace") == StringAt(m', "namespace")
    ensures StringAt(m, "doc") == StringAt(m', "doc")
    ensures StringsAt(m, "aliases") == StringsAt(m', "aliases")
    ensures "name" in m ==> m["name"] == m'["name"]
  {
    assert "name" in NameKeys && "namespace" in NameKeys && "aliases" in NameKeys && "doc" in NameKeys;
  }

  /** The working map of a canonical enum after its "type" and named-type entries. */
  lemma {:induction false} EnumHeadMap(en: Enum)
    ensures var m := Collected(WithNamed([("type", Str("enum"))], en.name, en.namespace, en.aliases, en.doc));
      && "type" in m && m["type"] == Str("enum") && "symbols" !in m && "default" !in m
      && NamedOk(m) && m["name"] == Str(en.name)
      && StringAt(m, "namespace") == en.namespace && StringAt(m, "doc") == en.doc
      && StringsAt(m, "aliases") == en.aliases
  {
    var e0: Entries := [("type", Str("enum"))];
    assert e0 == With([], "type", Str("enum"));
    CollectedWith([], "type", Str("enum"));
    CollectedWithNamed(e0, en.name, en.namespace, en.aliases, en.doc);
    var m := Collected(WithNamed(e0, en.name, en.namespace, en.aliases, en.doc));
    assert Collected(e0) == map["type" := Str("enum")];
    assert "type" !in NameKeys && "symbols" !in NameKeys && "default" !in NameKeys;
    assert "symbols" !in m - NameKeys && "default" !in m - NameKeys && "type" in m - NameKeys;
  }

  /** The working map of a canonical enum, once "type" is removed. */
  lemma {:induction false} EnumMap(en: Enum)
    ensures var m := Collected(EnumEntries(en));
      && "type" in m && m["type"] == Str("enum")
      && NamedOk(m - {"type"}) && OptStrings(m - {"type"}, "symbols") && OptString(m - {"type"}, "default")
      && (m - {"type"})["name"] == Str(en.name)
      && StringAt(m - {"type"}, "namespace") == en.namespace
      && StringAt(m - {"type"}, "doc") == en.doc
      && StringsAt(m - {"type"}, "aliases") == en.aliases
      && StringsAt(m - {"type"}, "symbols") == en.symbols
      && StringAt(m - {"type"}, "default") == en.default
  {
    var e1 := WithNamed([("type", Str("enum"))], en.name, en.namespace, en.aliases, en.doc);
    var e2 := With(e1, "symbols", Strings(en.symbols));
    EnumHeadMap(en);
    CollectedWith(e1, "symbols", Strings(en.symbols));
    CollectedWithString(e2, "default", en.default);
    PayloadsOfStrings(en.symbols);
    assert EnumEntries(en) == WithString(e2, "default", en.default);
    var c1 := Collected(e1);
    var m := Collected(EnumEntries(en));
    assert m == if en.default.Some? then c1["symbols" := Strings(en.symbols)]["default" := Str(en.default.value)]
                else c1["symbols" := Strings(en.symbols)];
    var rest := m - {"type"};
    assert "symbols" in rest && rest["symbols"] == Strings(en.symbols);
    assert en.default.Some? <==> "default" in rest;
    assert en.default.Some? ==> rest["default"] == Str(en.default.value);
    NamedAgree(c1, rest);
  }

  lemma {:induction false} EnumRoundTrip(en: Enum)
    ensures Decode(Encode(Schema.Enum(en))) == Ok(Schema.Enum(en))
  {
    var e := EnumEntries(en);
    assert Encode(Schema.Enum(en)) == Obj(e);
    EnumMap(en);
    DecodeOfObject(e);
    var m := Collected(e);
    var t := ToEnum(m - {"type"});
    assert t.Ok? && t.value.value == Schema.Enum(en);
    DecodeObjectDispatch(m, Obj(e), "enum");
  }

  /** The working map of a canonical fixed, once "type" is removed. */
  lemma {:induction false} FixedMap(f: Fixed)
    ensures var m := Collected(FixedEntries(f));
      && "type" in m && m["type"] == Str("fixed")
      && "size" in m - {"type"} && (m - {"type"})["size"] == Num(f.size)
      && NamedOk(m - {"type"}) && (m - {"type"})["name"] == Str(f.name)
      && StringAt(m - {"type"}, "namespace") == f.namespace
      && StringAt(m - {"type"}, "doc") == f.doc
      && StringsAt(m - {"type"}, "aliases") == f.aliases
  {
    var e0: Entries := [("type", Str("fixed")), ("size", Num(f.size))];
    var e00 := With([], "type", Str("fixed"));
    assert e0 == With(e00, "size", Num(f.size));
    CollectedWith([], "type", Str("fixed"));
    CollectedWith(e00, "size", Num(f.size));
    CollectedWithNamed(e0, f.name, f.namespace, f.aliases, f.doc);
    var m := Collected(FixedEntries(f));
    assert "type" !in NameKeys && "size" !in NameKeys;
    assert Collected(e0)["type"] == Str("fixed") && Collected(e0)["size"] == Num(f.size);
    assert m["type"] == Collected(e0)["type"] && m["size"] == Collected(e0)["size"];
    NamedAgree(m, m - {"type"});
  }

  lemma {:induction false} FixedRoundTrip(f: Fixed)
    ensures Decode(Encode(Schema.Fixed(f))) == Ok(Schema.Fixed(f))
  {
    var e := FixedEntries(f);
    assert Encode(Schema.Fixed(f)) == Obj(e);
    FixedMap(f);
    DecodeOfObject(e);
    var m := Collected(e);
    var t := ToFixed(m - {"type"});
    assert t.Ok? && t.value.value == Schema.Fixed(f);
    DecodeObjectDispatch(m, Obj(e), "fixed");
  }

  /** The working map of a canonical field after its "name", "doc" and "type" entries. */
  lemma {:induction false} FieldHeadMap(f: Field, schema: Value)
    ensures var m := Collected(With(WithString(With([], "name", Str(f.name)), "doc", f.doc), "type", schema));
      && "name" in m && m["name"] == Str(f.name)
      && OptString(m, "doc") && StringAt(m, "doc") == f.doc
      && "type" in m && m["type"] == schema
      && "default" !in m && "order" !in m && "aliases" !in m
  {
    var e1 := With([], "name", Str(f.name));
    var e2 := WithString(e1, "doc", f.doc);
    CollectedWith([], "name", Str(f.name));
    CollectedWithString(e1, "doc", f.doc);
    CollectedWith(e2, "type", schema);
  }

  /** The working map of a canonical field. */
  lemma {:induction false} FieldMap(f: Field, schema: Value, default: Option<Value>)
    ensures var m := Collected(FieldEntries(f, schema, default));
      && "name" in m && m["name"] == Str(f.name)
      && OptString(m, "doc") && StringAt(m, "doc") == f.doc
      && "type" in m && m["type"] == schema
      && ("default" in m <==> default.Some?)
      && (default.Some? ==> m["default"] == default.value)
      && ("order" in m <==> f.order.Some?)
      && (f.order.Some? ==> m["order"] == Str(OrderName(f.order.value)))
      && OptStrings(m, "aliases") && StringsAt(m, "aliases") == f.aliases
  {
    var e3 := With(WithString(With([], "name", Str(f.name)), "doc", f.doc), "type", schema);
    var e4 := if default.Some? then With(e3, "default", default.value) else e3;
    var e5 := if f.order.Some? then With(e4, "order", Str(OrderName(f.order.value))) else e4;
    assert FieldEntries(f, schema, default) == With(e5, "aliases", Strings(f.aliases));
    FieldHeadMap(f, schema);
    var c3 := Collected(e3);
    if default.Some? {
      CollectedWith(e3, "default", default.value);
    }
    var c4 := Collected(e4);
    assert c4 == if default.Some? then c3["default" := default.value] else c3;
    if f.order.Some? {
      CollectedWith(e4, "order", Str(OrderName(f.order.value)));
    }
    var c5 := Collected(e5);
    assert c5 == if f.order.Some? then c4["order" := Str(OrderName(f.order.value))] else c4;
    CollectedWith(e5, "aliases", Strings(f.aliases));
    PayloadsOfStrings(f.aliases);
  }

  /** Distinct orders have distinct literals. */
  lemma {:induction false} OrderNameInjective(a: Order, b: Order)
    requires OrderName(a) == OrderName(b)
    ensures a == b
  {
  }

  /** Every field reads back from its canonical form. */
  lemma {:induction false} FieldRoundTrip(f: Field)
    decreases f, 1
    ensures ToField(EncodeField(f)) == Ok(f)
  {
    DecodeEncode(f.schema);
    if f.default.Some? {
      DecodeEncode(f.default.value);
    }
    FieldRoundTripFrom(f);
  }

  /** A field's working map with the canonical entries reads back as that field. */
  lemma {:induction false} FieldFromCanonicalMap(f: Field, m: WorkMap, owner: Value)
    requires Owned(m, owner)
    requires "name" in m && m["name"] == Str(f.name)
    requires OptString(m, "doc") && StringAt(m, "doc") == f.doc
    requires "type" in m && Decode(m["type"]) == Ok(f.schema)
    requires "default" in m <==> f.default.Some?
    requires f.default.Some? ==> Decode(m["default"]) == Ok(f.default.value)
    requires "order" in m <==> f.order.Some?
    requires f.order.Some? ==> m["order"] == Str(OrderName(f.order.value))
    requires OptStrings(m, "aliases") && StringsAt(m, "aliases") == f.aliases
    ensures FieldFromMap(m, owner) == Ok(f)
  {
    assert OptSchema(m, "type", owner);
    assert OptSchema(m, "default", owner);
    var r := FieldFromMap(m, owner);
    assert r.Ok?;
    var g := r.value;
    assert g.default == f.default;
    if f.order.Some? {
      OrderNameInjective(g.order.value, f.order.value);
    }
    assert g.order == f.order;
  }

  lemma {:induction false} FieldRoundTripFrom(f: Field)
    requires Decode(Encode(f.schema)) == Ok(f.schema)
    requires f.default.Some? ==> Decode(Encode(f.default.value)) == Ok(f.default.value)
    ensures ToField(EncodeField(f)) == Ok(f)
  {
    var default := if f.default.Some? then Some(Encode(f.default.value)) else None;
    var e := FieldEntries(f, Encode(f.schema), default);
    assert EncodeField(f) == Obj(e);
    FieldMap(f, Encode(f.schema), default);
    ToFieldOfObject(e);
    FieldFromCanonicalMap(f, Collected(e), Obj(e));
  }

  /** An array's canonical map decodes to the array. */
  lemma {:induction false} ArrayItems(t: Schema, m: WorkMap, owner: Value)
    requires Owned(m, owner) && m == map["type" := Str("array")]["items" := Encode(t)]
    requires Decode(Encode(t)) == Ok(t)
    ensures DecodeObject(m, owner) == Ok(Array(t))
  {
    var rest := m - {"type"};
    assert rest == map["items" := Encode(t)];
    assert ToArray(rest, owner) == Ok(Taken(Array(t), map[]));
    DecodeObjectDispatch(m, owner, "array");
  }

  lemma {:induction false} ArrayRoundTrip(t: Schema)
    requires Decode(Encode(t)) == Ok(t)
    ensures Decode(Encode(Array(t))) == Ok(Array(t))
  {
    var e: Entries := [("type", Str("array")), ("items", Encode(t))];
    assert Encode(Array(t)) == Obj(e);
    CollectedPair("type", Str("array"), "items", Encode(t));
    DecodeOfObject(e);
    ArrayItems(t, Collected(e), Obj(e));
  }

  /** A map's canonical map decodes to the map. */
  lemma {:induction false} MapValues(t: Schema, m: WorkMap, owner: Value)
    requires Owned(m, owner) && m == map["type" := Str("map")]["values" := Encode(t)]
    requires Decode(Encode(t)) == Ok(t)
    ensures DecodeObject(m, owner) == Ok(Schema.Map(t))
  {
    var rest := m - {"type"};
    assert rest == map["values" := Encode(t)];
    assert ToMap(rest, owner) == Ok(Taken(Schema.Map(t), map[]));
    DecodeObjectDispatch(m, owner, "map");
  }

  lemma {:induction false} MapRoundTrip(t: Schema)
    requires Decode(Encode(t)) == Ok(t)
    ensures Decode(Encode(Schema.Map(t))) == Ok(Schema.Map(t))
  {
    var e: Entries := [("type", Str("map")), ("values", Encode(t))];
    assert Encode(Schema.Map(t)) == Obj(e);
    CollectedPair("type", Str("map"), "values", Encode(t));
    DecodeOfObject(e);
    MapValues(t, Collected(e), Obj(e));
  }

  lemma {:induction false} UnionRoundTrip(vs: seq<Schema>)
    requires forall i :: 0 <= i < |vs| ==> Decode(Encode(vs[i])) == Ok(vs[i])
    ensures Decode(Encode(Union(vs))) == Ok(Union(vs))
  {
    var d := DecodeAll(EncodeAll(vs));
    assert d.Ok? && d.value == vs;
  }

  /** The decoder inverts the canonical encoding: every schema is reachable. */
  lemma {:induction false} DecodeEncode(s: Schema)
    decreases s, 2
    ensures Decode(Encode(s)) == Ok(s)
  {
    match s
    case Record(r) =>
      forall i | 0 <= i < |r.fields|
        ensures ToField(EncodeField(r.fields[i])) == Ok(r.fields[i])
      {
        FieldRoundTrip(r.fields[i]);
      }
      RecordRoundTrip(r);
    case Enum(e) => EnumRoundTrip(e);
    case Fixed(f) => FixedRoundTrip(f);
    case Array(t) =>
      DecodeEncode(t);
      ArrayRoundTrip(t);
    case Map(t) =>
      DecodeEncode(t);
      MapRoundTrip(t);
    case Union(vs) =>
      forall i | 0 <= i < |vs|
        ensures Decode(Encode(vs[i])) == Ok(vs[i])
      {
        DecodeEncode(vs[i]);
      }
      UnionRoundTrip(vs);
    case _ =>
  }
}
