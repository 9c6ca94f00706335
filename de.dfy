/**
 * The schema decoder: from a generic JSON value to an Avro schema.
 *
 * The source's helpers take the object being decoded as a mutable hash map
 * and delete the key they consume. Here each helper is a function from the
 * working map to `Result<Taken<T>>`: on success the extracted value and the
 * map that remains after the removal. On an error the source drops the map
 * and propagates the error, so an error carries no map.
 *
 * Decoding recurses into values read from a working map. Every function that
 * can reach `Decode` from a map takes the object that map was built from as a
 * ghost `owner`, and `Owned` says the map holds only entries of that object;
 * this is what makes the recursion well founded.
 */
module De {
  import opened Wrappers
  import opened Json
  import opened Avro

  /** What went wrong; the source's message texts are not modelled. */
  datatype ErrorKind =
    | MissingField          // a required key is absent
    | TypeMismatch          // a value has the wrong JSON shape
    | InvalidValue          // a value has the right shape but is not an accepted one
    | Unsupported(tag: string)  // an unknown "type" discriminator (a `todo!` in the source)

  datatype Result<+T> = Ok(value: T) | Err(error: ErrorKind) {
    predicate IsFailure() { Err? }

    function PropagateFailure<U>(): Result<U>
      requires Err?
    {
      Err(error)
    }

    function Extract(): T
      requires Ok?
    {
      value
    }
  }

  /** The key/value working map of one object being decoded. */
  type WorkMap = map<string, Value>

  /** A value extracted from a working map, and what is left of the map. */
  datatype Taken<+T> = Taken(value: T, rest: WorkMap)

  /** Every entry of `m` is one of the entries of the object `owner`. */
  ghost predicate Owned(m: WorkMap, owner: Value) {
    owner.Obj? && forall k :: k in m ==> (k, m[k]) in owner.entries
  }

  // ---------------------------------------------------------------------
  // Building the working map (the insertion loop of both visit_map methods)
  // ---------------------------------------------------------------------

  /** The map obtained by inserting the entries one after another. */
  function Collected(entries: seq<(string, Value)>): WorkMap
    decreases |entries|
  {
    if entries == [] then map[]
    else
      var last := entries[|entries| - 1];
      Collected(entries[..|entries| - 1])[last.0 := last.1]
  }

  /** The keys of the working map are the keys of the entries, and every value is an entry's. */
  lemma {:induction false} CollectedFrom(entries: seq<(string, Value)>)
    ensures forall k :: k in Collected(entries) <==> exists i :: 0 <= i < |entries| && entries[i].0 == k
    ensures Owned(Collected(entries), Obj(entries))
    decreases |entries|
  {
    if entries != [] {
      var n := |entries|;
      var init := entries[..n - 1];
      CollectedFrom(init);
      forall k | k in Collected(init)
        ensures (k, Collected(init)[k]) in entries
      {
        assert (k, Collected(init)[k]) in init;
      }
      forall i | 0 <= i < n - 1
        ensures entries[i] == init[i]
      {
      }
    }
  }

  /** A later entry with the same key overwrites an earlier one: the last entry for a key wins. */
  lemma {:induction false} CollectedLastWins(entries: seq<(string, Value)>, i: nat)
    requires i < |entries|
    requires forall j :: i < j < |entries| ==> entries[j].0 != entries[i].0
    ensures entries[i].0 in Collected(entries)
    ensures Collected(entries)[entries[i].0] == entries[i].1
  {
    var n := |entries|;
    if i < n - 1 {
      var init := entries[..n - 1];
      forall j | i < j < |init|
        ensures init[j].0 != init[i].0
      {
        assert init[j] == entries[j];
      }
      CollectedLastWins(init, i);
    }
  }

  /** The working map of two entries. */
  lemma {:induction false} CollectedPair(k1: string, v1: Value, k2: string, v2: Value)
    ensures Collected([(k1, v1), (k2, v2)]) == map[k1 := v1][k2 := v2]
  {
    var e := [(k1, v1), (k2, v2)];
    assert e[..1] == [(k1, v1)];
    assert [(k1, v1)][..0] == [];
    assert Collected([(k1, v1)]) == Collected([])[k1 := v1];
    assert Collected(e) == Collected(e[..1])[k2 := v2];
  }

  /** The working map of three entries. */
  lemma {:induction false} CollectedTriple(k1: string, v1: Value, k2: string, v2: Value, k3: string, v3: Value)
    ensures Collected([(k1, v1), (k2, v2), (k3, v3)]) == map[k1 := v1][k2 := v2][k3 := v3]
  {
    assert [(k1, v1), (k2, v2), (k3, v3)][..2] == [(k1, v1), (k2, v2)];
    CollectedPair(k1, v1, k2, v2);
  }

  /** The loop that fills the working map from the object's entries. */
  method CollectEntries(entries: seq<(string, Value)>) returns (m: WorkMap)
    ensures m == Collected(entries)
  {
    m := map[];
    var i := 0;
    while i < |entries|
      invariant 0 <= i <= |entries|
      invariant m == Collected(entries[..i])
    {
      assert entries[..i + 1][..i] == entries[..i];
      m := m[entries[i].0 := entries[i].1];
      i := i + 1;
    }
    assert entries[..i] == entries;
  }

  // ---------------------------------------------------------------------
  // Primitive names
  // ---------------------------------------------------------------------

  const PrimitiveNames: set<string> :=
    {"null", "boolean", "string", "bytes", "int", "long", "float", "double"}

  /** `to_primitive`: the primitive a type name denotes, if any. */
  function ToPrimitive(name: string): (r: Option<Schema>)
    ensures r.Some? <==> name in PrimitiveNames
    ensures r.Some? ==> IsPrimitive(r.value) && PrimitiveName(r.value) == name
  {
    match name
    case "null" => Some(Schema.Null)
    case "boolean" => Some(Boolean)
    case "string" => Some(String)
    case "bytes" => Some(Bytes)
    case "int" => Some(Int)
    case "long" => Some(Long)
    case "float" => Some(Float)
    case "double" => Some(Double)
    case _ => None
  }

  /** The name of a primitive variant. */
  function PrimitiveName(s: Schema): (name: string)
    requires IsPrimitive(s)
    ensures name in PrimitiveNames
  {
    match s
    case Null => "null"
    case Boolean => "boolean"
    case String => "string"
    case Bytes => "bytes"
    case Int => "int"
    case Long => "long"
    case Float => "float"
    case Double => "double"
  }

  /** `ToPrimitive` maps the name of each primitive back to that primitive. */
  lemma {:induction false} PrimitiveNameInverse(s: Schema)
    requires IsPrimitive(s)
    ensures ToPrimitive(PrimitiveName(s)) == Some(s)
  {
  }

  // ---------------------------------------------------------------------
  // Scalar helpers
  // ---------------------------------------------------------------------

  /** `get_type`: remove the required string discriminator "type". */
  function GetType(m: WorkMap): (r: Result<Taken<string>>)
    ensures "type" !in m <==> r == Err(MissingField)
    ensures r.Ok? <==> "type" in m && m["type"].Str?
    ensures r.Err? && "type" in m ==> r.error == TypeMismatch
    ensures r.Ok? ==> r.value.value == m["type"].s && r.value.rest == m - {"type"}
  {
    if "type" in m then
      var v := m["type"];
      if v.Str? then Ok(Taken(v.s, m - {"type"})) else Err(TypeMismatch)
    else
      Err(MissingField)
  }

  /** `as_string`: the payload of a string value. */
  function AsString(v: Value): (r: Result<string>)
    ensures r.Ok? <==> v.Str?
    ensures r.Ok? ==> r.value == v.s
    ensures r.Err? ==> r.error == TypeMismatch
  {
    if v.Str? then Ok(v.s) else Err(TypeMismatch)
  }

  /** `remove_string`: remove an optional string under `key`. */
  function RemoveString(m: WorkMap, key: string): (r: Result<Taken<Option<string>>>)
    ensures key !in m ==> r == Ok(Taken(None, m))
    ensures key in m ==> (r.Ok? <==> m[key].Str?)
    ensures r.Ok? ==> r.value.value == StringAt(m, key) && r.value.rest == m - {key}
    ensures r.Err? ==> r.error == TypeMismatch
  {
    if key in m then
      var s :- AsString(m[key]);
      Ok(Taken(Some(s), m - {key}))
    else
      Ok(Taken(None, m))
  }

  /** The string under `key`, if the key holds one. */
  function StringAt(m: WorkMap, key: string): Option<string> {
    if key in m && m[key].Str? then Some(m[key].s) else None
  }

  /** `key` is absent or holds a string. */
  predicate OptString(m: WorkMap, key: string) {
    key !in m || m[key].Str?
  }

  predicate AllStrings(vs: seq<Value>) {
    forall i :: 0 <= i < |vs| ==> vs[i].Str?
  }

  /** The payloads of a list of string values, position by position. */
  function Payloads(vs: seq<Value>): (ss: seq<string>)
    ensures |ss| == |vs|
    ensures forall i :: 0 <= i < |vs| && vs[i].Str? ==> ss[i] == vs[i].s
  {
    seq(|vs|, i requires 0 <= i < |vs| => if vs[i].Str? then vs[i].s else "")
  }

  /** The strings of the list under `key`; empty when the key is absent. */
  function StringsAt(m: WorkMap, key: string): seq<string> {
    if key in m && m[key].Arr? then Payloads(m[key].items) else []
  }

  /** `key` is absent or holds a list of strings. */
  predicate OptStrings(m: WorkMap, key: string) {
    key !in m || (m[key].Arr? && AllStrings(m[key].items))
  }

  /** `as_string` mapped over a list and collected: the first non-string fails. */
  function AsStrings(vs: seq<Value>): (r: Result<seq<string>>)
    ensures r.Ok? <==> AllStrings(vs)
    ensures r.Ok? ==> r.value == Payloads(vs)
    ensures r.Err? ==> r.error == TypeMismatch
    decreases |vs|
  {
    if vs == [] then Ok([])
    else
      var init :- AsStrings(vs[..|vs| - 1]);
      var last :- AsString(vs[|vs| - 1]);
      assert forall i :: 0 <= i < |vs| - 1 ==> vs[..|vs| - 1][i] == vs[i];
      Ok(init + [last])
  }

  /** `remove_vec_string`: remove an optional list of strings under `key`. */
  function RemoveVecString(m: WorkMap, key: string): (r: Result<Taken<seq<string>>>)
    ensures key !in m ==> r == Ok(Taken([], m))
    ensures key in m && !m[key].Arr? ==> r == Err(TypeMismatch)
    ensures r.Ok? <==> OptStrings(m, key)
    ensures r.Ok? ==> r.value.value == StringsAt(m, key) && r.value.rest == m - {key}
    ensures r.Ok? && key in m ==> |r.value.value| == |m[key].items|
    ensures r.Err? ==> r.error == TypeMismatch
  {
    if key in m then
      var v := m[key];
      if v.Arr? then
        var ss :- AsStrings(v.items);
        Ok(Taken(ss, m - {key}))
      else
        Err(TypeMismatch)
    else
      Ok(Taken([], m))
  }

  /** `ok_or_else` with a missing-key error. */
  function Required<T>(o: Option<T>): (r: Result<T>)
    ensures r.Ok? <==> o.Some?
    ensures r.Ok? ==> r.value == o.value
    ensures r.Err? ==> r.error == MissingField
  {
    if o.Some? then Ok(o.value) else Err(MissingField)
  }

  /** Drop the working map once an object form is complete. */
  function Finish<T>(r: Result<Taken<T>>): (s: Result<T>)
    ensures s.Ok? <==> r.Ok?
    ensures s.Ok? ==> s.value == r.value.value
    ensures s.Err? ==> s.error == r.error
  {
    var t :- r;
    Ok(t.value)
  }

  // ---------------------------------------------------------------------
  // Sort order
  // ---------------------------------------------------------------------

  const OrderNames: set<string> := {"ascending", "descending", "ignore"}

  /** The literal that denotes an order. */
  function OrderName(o: Order): (name: string)
    ensures name in OrderNames
  {
    match o
    case Ascending => "ascending"
    case Descending => "descending"
    case Ignore => "ignore"
  }

  /** `to_order`: remove an optional order literal under `key`. */
  function ToOrder(m: WorkMap, key: string): (r: Result<Taken<Option<Order>>>)
    ensures key !in m ==> r == Ok(Taken(None, m))
    ensures key in m ==> (r.Ok? <==> m[key].Str? && m[key].s in OrderNames)
    ensures key in m && !m[key].Str? ==> r == Err(TypeMismatch)
    ensures key in m && m[key].Str? && m[key].s !in OrderNames ==> r == Err(InvalidValue)
    ensures r.Ok? && key in m ==> r.value.value.Some? && OrderName(r.value.value.value) == m[key].s
    ensures r.Ok? ==> r.value.rest == m - {key}
  {
    var s :- RemoveString(m, key);
    match s.value
    case None => Ok(Taken(None, s.rest))
    case Some(x) =>
      if x == "ascending" then Ok(Taken(Some(Ascending), s.rest))
      else if x == "descending" then Ok(Taken(Some(Descending), s.rest))
      else if x == "ignore" then Ok(Taken(Some(Ignore), s.rest))
      else Err(InvalidValue)
  }

  // ---------------------------------------------------------------------
  // Named types: the attributes Enum, Record and Fixed share
  // ---------------------------------------------------------------------

  /** The keys every named type reads besides its own. */
  const NameKeys: set<string> := {"name", "namespace", "aliases", "doc"}

  /** A string "name" and well-shaped optional "namespace", "aliases" and "doc". */
  predicate NamedOk(m: WorkMap) {
    "name" in m && m["name"].Str?
    && OptString(m, "namespace") && OptStrings(m, "aliases") && OptString(m, "doc")
  }

  /** The attributes Enum, Record and Fixed share. */
  datatype Named = Named(name: string, namespace: Option<string>, aliases: seq<string>, doc: Option<string>)

  /**
   * The run `to_enum`, `to_record` and `to_fixed` each perform in the same
   * order: the required "name", then "namespace", "aliases" and "doc".
   */
  function RemoveNamed(m: WorkMap): (r: Result<Taken<Named>>)
    ensures "name" !in m ==> r == Err(MissingField)
    ensures r.Ok? <==> NamedOk(m)
    ensures r.Err? && "name" in m ==> r.error == TypeMismatch
    ensures r.Ok? ==> r.value.value == Named(
      m["name"].s, StringAt(m, "namespace"), StringsAt(m, "aliases"), StringAt(m, "doc"))
    ensures r.Ok? ==> r.value.rest == m - NameKeys
  {
    var name :- RemoveString(m, "name");
    var nameValue :- Required(name.value);
    var namespace :- RemoveString(name.rest, "namespace");
    var aliases :- RemoveVecString(namespace.rest, "aliases");
    var doc :- RemoveString(aliases.rest, "doc");
    Ok(Taken(Named(nameValue, namespace.value, aliases.value, doc.value), doc.rest))
  }

  /** `to_enum`. */
  function ToEnum(m: WorkMap): (r: Result<Taken<Schema>>)
    ensures "name" !in m ==> r == Err(MissingField)
    ensures r.Ok? <==> NamedOk(m) && OptStrings(m, "symbols") && OptString(m, "default")
    ensures r.Err? && "name" in m ==> r.error == TypeMismatch
    ensures r.Ok? ==> r.value.value == Schema.Enum(Enum.Enum(
      m["name"].s, StringAt(m, "namespace"), StringsAt(m, "aliases"), StringAt(m, "doc"),
      StringsAt(m, "symbols"), StringAt(m, "default")))
    ensures r.Ok? ==> r.value.rest == m - NameKeys - {"symbols", "default"}
  {
    var named :- RemoveNamed(m);
    assert "symbols" !in NameKeys && "default" !in NameKeys;
    var symbols :- RemoveVecString(named.rest, "symbols");
    var default :- RemoveString(symbols.rest, "default");
    var n := named.value;
    Ok(Taken(
      Schema.Enum(Enum.Enum(n.name, n.namespace, n.aliases, n.doc, symbols.value, default.value)),
      default.rest))
  }

  /** The size under "size": a non-negative integer (`usize` in the source). */
  function SizeOf(v: Value): (r: Result<nat>)
    ensures r.Ok? <==> v.Num? && v.n >= 0
    ensures r.Ok? ==> r.value == v.n
    ensures v.Num? && v.n < 0 ==> r == Err(InvalidValue)
    ensures !v.Num? ==> r == Err(TypeMismatch)
  {
    match v
    case Num(n) => if n >= 0 then Ok(n) else Err(InvalidValue)
    case _ => Err(TypeMismatch)
  }

  /** `to_fixed`: "size" is checked before "name". */
  function ToFixed(m: WorkMap): (r: Result<Taken<Schema>>)
    ensures "size" !in m ==> r == Err(MissingField)
    ensures "size" in m && SizeOf(m["size"]).Err? ==> r == Err(SizeOf(m["size"]).error)
    ensures "size" in m && SizeOf(m["size"]).Ok? && "name" !in m ==> r == Err(MissingField)
    ensures r.Ok? <==> "size" in m && SizeOf(m["size"]).Ok? && NamedOk(m)
    ensures r.Err? && "size" in m && SizeOf(m["size"]).Ok? && "name" in m ==> r.error == TypeMismatch
    ensures r.Ok? ==> r.value.value == Schema.Fixed(Fixed.Fixed(
      m["name"].s, StringAt(m, "namespace"), StringAt(m, "doc"), StringsAt(m, "aliases"),
      SizeOf(m["size"]).value))
    ensures r.Ok? ==> r.value.rest == m - {"size"} - NameKeys
  {
    if "size" !in m then Err(MissingField)
    else
      var size :- SizeOf(m["size"]);
      var named :- RemoveNamed(m - {"size"});
      var n := named.value;
      Ok(Taken(Schema.Fixed(Fixed.Fixed(n.name, n.namespace, n.doc, n.aliases, size)), named.rest))
  }

  // ---------------------------------------------------------------------
  // The recursive decoder
  // ---------------------------------------------------------------------

  /** `to_schema`: remove an optional nested schema under `key` and decode it. */
  function ToSchema(m: WorkMap, key: string, ghost owner: Value): (r: Result<Taken<Option<Schema>>>)
    requires Owned(m, owner)
    decreases owner, 0
    ensures key !in m ==> r == Ok(Taken(None, m))
    ensures key in m ==> (r.Ok? <==> Decode(m[key]).Ok?)
    ensures key in m && r.Ok? ==> r.value.value == Some(Decode(m[key]).value)
    ensures key in m && r.Err? ==> r.error == Decode(m[key]).error
    ensures r.Ok? ==> r.value.rest == m - {key}
  {
    if key in m then
      assert (key, m[key]) in owner.entries;
      var s :- Decode(m[key]);
      Ok(Taken(Some(s), m - {key}))
    else
      Ok(Taken(None, m))
  }

  /** `to_map`: the required value schema under "values". */
  function ToMap(m: WorkMap, ghost owner: Value): (r: Result<Taken<Schema>>)
    requires Owned(m, owner)
    decreases owner, 1
    ensures "values" !in m ==> r == Err(MissingField)
    ensures "values" in m ==> (r.Ok? <==> Decode(m["values"]).Ok?)
    ensures "values" in m && r.Err? ==> r.error == Decode(m["values"]).error
    ensures r.Ok? ==> r.value.value == Schema.Map(Decode(m["values"]).value)
    ensures r.Ok? ==> r.value.rest == m - {"values"}
  {
    if "values" !in m then Err(MissingField)
    else
      assert ("values", m["values"]) in owner.entries;
      var schema :- Decode(m["values"]);
      Ok(Taken(Schema.Map(schema), m - {"values"}))
  }

  /** `to_array`: the required item schema under "items". */
  function ToArray(m: WorkMap, ghost owner: Value): (r: Result<Taken<Schema>>)
    requires Owned(m, owner)
    decreases owner, 1
    ensures "items" !in m ==> r == Err(MissingField)
    ensures "items" in m ==> (r.Ok? <==> Decode(m["items"]).Ok?)
    ensures "items" in m && r.Err? ==> r.error == Decode(m["items"]).error
    ensures r.Ok? ==> r.value.value == Array(Decode(m["items"]).value)
    ensures r.Ok? ==> r.value.rest == m - {"items"}
  {
    var items :- ToSchema(m, "items", owner);
    var schema :- Required(items.value);
    Ok(Taken(Array(schema), items.rest))
  }

  /** `to_field`: a field is decoded from an object only. */
  function ToField(v: Value): (r: Result<Field>)
    decreases v, 3
    ensures !v.Obj? ==> r == Err(TypeMismatch)
  {
    match v
    case Obj(entries) =>
      CollectedFrom(entries);
      FieldFromMap(Collected(entries), v)
    case _ => Err(TypeMismatch)
  }

  /** `key` is absent or holds a value that decodes to a schema. */
  predicate OptSchema(m: WorkMap, key: string, ghost owner: Value)
    requires Owned(m, owner)
    decreases owner, 0
  {
    key !in m || (assert (key, m[key]) in owner.entries; Decode(m[key]).Ok?)
  }

  /** "order", if present, is one of the three order literals. */
  predicate OrderOk(m: WorkMap) {
    OptString(m, "order") && ("order" in m ==> m["order"].s in OrderNames)
  }

  /**
   * The last three reads of `FieldVisitor::visit_map`: "default", "order"
   * and "aliases", once name, doc and type are known.
   */
  function FieldTail(m: WorkMap, ghost owner: Value, name: string, doc: Option<string>, schema: Schema)
    : (r: Result<Field>)
    requires Owned(m, owner)
    decreases owner, 1
    ensures "default" in m && !OptSchema(m, "default", owner) ==> r == Err(Decode(m["default"]).error)
    ensures OptSchema(m, "default", owner) && "order" in m && !m["order"].Str? ==> r == Err(TypeMismatch)
    ensures OptSchema(m, "default", owner) && "order" in m && m["order"].Str? && m["order"].s !in OrderNames ==>
      r == Err(InvalidValue)
    ensures OptSchema(m, "default", owner) && OrderOk(m) && !OptStrings(m, "aliases") ==> r == Err(TypeMismatch)
    ensures r.Ok? <==> OptSchema(m, "default", owner) && OrderOk(m) && OptStrings(m, "aliases")
    ensures r.Ok? ==>
      && r.value.name == name && r.value.doc == doc && r.value.schema == schema
      && ("default" in m <==> r.value.default.Some?)
      && ("default" in m ==> Decode(m["default"]) == Ok(r.value.default.value))
      && ("order" in m <==> r.value.order.Some?)
      && ("order" in m ==> OrderName(r.value.order.value) == m["order"].s)
      && r.value.aliases == StringsAt(m, "aliases")
  {
    var default :- ToSchema(m, "default", owner);
    var order :- ToOrder(default.rest, "order");
    var aliases :- RemoveVecString(order.rest, "aliases");
    Ok(Field(name, doc, schema, default.value, order.value, aliases.value))
  }

  /** The body of `FieldVisitor::visit_map` once its map is built. */
  function FieldFromMap(m: WorkMap, ghost owner: Value): (r: Result<Field>)
    requires Owned(m, owner)
    decreases owner, 2
    ensures "name" !in m ==> r == Err(MissingField)
    ensures "name" in m && !m["name"].Str? ==> r == Err(TypeMismatch)
    ensures "type" !in m ==> r.Err?
    ensures "name" in m && m["name"].Str? && !OptString(m, "doc") ==> r == Err(TypeMismatch)
    ensures ("name" in m && m["name"].Str? && OptString(m, "doc") && "type" !in m) ==> r == Err(MissingField)
    ensures ("name" in m && m["name"].Str? && OptString(m, "doc")
             && "type" in m && !OptSchema(m, "type", owner)) ==>
      r == Err(Decode(m["type"]).error)
    ensures ("name" in m && m["name"].Str? && OptString(m, "doc")
             && "type" in m && OptSchema(m, "type", owner)
             && "default" in m && !OptSchema(m, "default", owner)) ==>
      r == Err(Decode(m["default"]).error)
    ensures ("name" in m && m["name"].Str? && OptString(m, "doc")
             && "type" in m && OptSchema(m, "type", owner) && OptSchema(m, "default", owner)
             && "order" in m && !m["order"].Str?) ==>
      r == Err(TypeMismatch)
    ensures ("name" in m && m["name"].Str? && OptString(m, "doc")
             && "type" in m && OptSchema(m, "type", owner) && OptSchema(m, "default", owner)
             && "order" in m && m["order"].Str? && m["order"].s !in OrderNames) ==>
      r == Err(InvalidValue)
    ensures ("name" in m && m["name"].Str? && OptString(m, "doc")
             && "type" in m && OptSchema(m, "type", owner) && OptSchema(m, "default", owner)
             && OrderOk(m) && !OptStrings(m, "aliases")) ==>
      r == Err(TypeMismatch)
    ensures r.Ok? <==>
      "name" in m && m["name"].Str? && OptString(m, "doc")
      && "type" in m && OptSchema(m, "type", owner) && OptSchema(m, "default", owner)
      && OrderOk(m) && OptStrings(m, "aliases")
    ensures r.Ok? ==>
      && r.value.name == m["name"].s
      && r.value.doc == StringAt(m, "doc")
      && Decode(m["type"]) == Ok(r.value.schema)
      && ("default" in m <==> r.value.default.Some?)
      && ("default" in m ==> Decode(m["default"]) == Ok(r.value.default.value))
      && ("order" in m <==> r.value.order.Some?)
      && ("order" in m ==> OrderName(r.value.order.value) == m["order"].s)
      && r.value.aliases == StringsAt(m, "aliases")
  {
    var name :- RemoveString(m, "name");
    var nameValue :- Required(name.value);
    var doc :- RemoveString(name.rest, "doc");
    var schema :- ToSchema(doc.rest, "type", owner);
    var schemaValue :- Required(schema.value);
    var rest := schema.rest;
    assert rest == m - {"name"} - {"doc"} - {"type"};
    assert OptSchema(rest, "default", owner) == OptSchema(m, "default", owner);
    assert OrderOk(rest) == OrderOk(m);
    assert OptStrings(rest, "aliases") == OptStrings(m, "aliases");
    assert StringsAt(rest, "aliases") == StringsAt(m, "aliases");
    FieldTail(rest, owner, nameValue, doc.value, schemaValue)
  }

  /** `to_field` mapped over a list and collected: the first failing field fails. */
  function ToFields(items: seq<Value>): (r: Result<seq<Field>>)
    decreases items, 0
    ensures r.Ok? <==> forall i :: 0 <= i < |items| ==> ToField(items[i]).Ok?
    ensures r.Ok? ==> |r.value| == |items|
    ensures r.Ok? ==> forall i :: 0 <= i < |items| ==> ToField(items[i]) == Ok(r.value[i])
  {
    if items == [] then Ok([])
    else
      var first :- ToField(items[0]);
      var rest :- ToFields(items[1..]);
      Ok([first] + rest)
  }

  /** The first element that fails to decode as a field decides the error of the whole list. */
  lemma {:induction false} ToFieldsFirstError(items: seq<Value>, i: nat)
    requires i < |items| && ToField(items[i]).Err?
    requires forall j :: 0 <= j < i ==> ToField(items[j]).Ok?
    ensures ToFields(items) == Err(ToField(items[i]).error)
    decreases i
  {
    if i > 0 {
      var tail := items[1..];
      assert forall j :: 0 <= j < i - 1 ==> tail[j] == items[j + 1];
      ToFieldsFirstError(tail, i - 1);
      assert ToField(items[0]).Ok?;
    }
  }

  /** `to_vec_fields`: an optional list of fields under `key`; absent means none. */
  function ToVecFields(m: WorkMap, key: string, ghost owner: Value): (r: Result<Taken<seq<Field>>>)
    requires Owned(m, owner)
    decreases owner, 0
    ensures key !in m ==> r == Ok(Taken([], m))
    ensures key in m && !m[key].Arr? ==> r == Err(TypeMismatch)
    ensures key in m && m[key].Arr? ==> (r.Ok? <==> ToFields(m[key].items).Ok?)
    ensures key in m && m[key].Arr? && r.Err? ==> r.error == ToFields(m[key].items).error
    ensures key in m && r.Ok? ==> r.value.value == ToFields(m[key].items).value
    ensures r.Ok? ==> r.value.rest == m - {key}
  {
    if key in m then
      assert (key, m[key]) in owner.entries;
      var v := m[key];
      if v.Arr? then
        var fields :- ToFields(v.items);
        Ok(Taken(fields, m - {key}))
      else
        Err(TypeMismatch)
    else
      Ok(Taken([], m))
  }

  /** `to_record`; "fields" is optional and absent means no fields. */
  function ToRecord(m: WorkMap, ghost owner: Value): (r: Result<Taken<Schema>>)
    requires Owned(m, owner)
    decreases owner, 1
    ensures "name" !in m ==> r == Err(MissingField)
    ensures "name" in m && !NamedOk(m) ==> r == Err(TypeMismatch)
    ensures NamedOk(m) && "fields" in m && !m["fields"].Arr? ==> r == Err(TypeMismatch)
    ensures NamedOk(m) && "fields" in m && m["fields"].Arr? && ToFields(m["fields"].items).Err? ==>
      r == Err(ToFields(m["fields"].items).error)
    ensures r.Ok? <==>
      NamedOk(m) && ("fields" in m ==> m["fields"].Arr? && ToFields(m["fields"].items).Ok?)
    ensures r.Ok? ==> r.value.value == Schema.Record(Record.Record(
      m["name"].s, StringAt(m, "namespace"), StringAt(m, "doc"), StringsAt(m, "aliases"),
      if "fields" in m then ToFields(m["fields"].items).value else []))
    ensures r.Ok? ==> r.value.rest == m - NameKeys - {"fields"}
  {
    var named :- RemoveNamed(m);
    var fields :- ToVecFields(named.rest, "fields", owner);
    var n := named.value;
    Ok(Taken(
      Schema.Record(Record.Record(n.name, n.namespace, n.doc, n.aliases, fields.value)),
      fields.rest))
  }

  /** The discriminators of the composite object forms. */
  const ComplexNames: set<string> := {"enum", "map", "array", "record", "fixed"}

  /** The variant a successful decode returns for discriminator `tag`. */
  predicate MatchesTag(tag: string, s: Schema) {
    if tag in PrimitiveNames then ToPrimitive(tag) == Some(s)
    else if tag == "enum" then s.Enum?
    else if tag == "map" then s.Map?
    else if tag == "array" then s.Array?
    else if tag == "record" then s.Record?
    else if tag == "fixed" then s.Fixed?
    else false
  }

  /** `SchemaVisitor::visit_map` once its map is built: dispatch on "type". */
  function DecodeObject(m: WorkMap, ghost owner: Value): (r: Result<Schema>)
    requires Owned(m, owner)
    decreases owner, 2
    ensures "type" !in m ==> r == Err(MissingField)
    ensures "type" in m && !m["type"].Str? ==> r == Err(TypeMismatch)
    ensures "type" in m && m["type"].Str? && m["type"].s in PrimitiveNames ==>
      r == Ok(ToPrimitive(m["type"].s).value)
    ensures "type" in m && m["type"].Str? && m["type"].s !in PrimitiveNames + ComplexNames ==>
      r == Err(Unsupported(m["type"].s))
    ensures r.Ok? ==> "type" in m && m["type"].Str? && MatchesTag(m["type"].s, r.value)
  {
    var t :- GetType(m);
    var tag, rest := t.value, t.rest;
    match ToPrimitive(tag)
    case Some(p) => Ok(p)
    case None =>
      if tag == "enum" then Finish(ToEnum(rest))
      else if tag == "map" then Finish(ToMap(rest, owner))
      else if tag == "array" then Finish(ToArray(rest, owner))
      else if tag == "record" then Finish(ToRecord(rest, owner))
      else if tag == "fixed" then Finish(ToFixed(rest))
      else Err(Unsupported(tag))
  }

  /** Which builder each composite discriminator selects, after "type" is removed. */
  lemma {:induction false} DecodeObjectDispatch(m: WorkMap, owner: Value, tag: string)
    requires Owned(m, owner)
    requires "type" in m && m["type"] == Str(tag) && tag in ComplexNames
    ensures tag == "enum" ==> DecodeObject(m, owner) == Finish(ToEnum(m - {"type"}))
    ensures tag == "map" ==> DecodeObject(m, owner) == Finish(ToMap(m - {"type"}, owner))
    ensures tag == "array" ==> DecodeObject(m, owner) == Finish(ToArray(m - {"type"}, owner))
    ensures tag == "record" ==> DecodeObject(m, owner) == Finish(ToRecord(m - {"type"}, owner))
    ensures tag == "fixed" ==> DecodeObject(m, owner) == Finish(ToFixed(m - {"type"}))
  {
    assert GetType(m) == Ok(Taken(tag, m - {"type"}));
    assert ToPrimitive(tag).None?;
  }

  /** `SchemaVisitor::visit_str`: a bare string names a primitive. */
  function VisitStr(s: string): (r: Result<Schema>)
    ensures r.Ok? <==> s in PrimitiveNames
    ensures r.Ok? ==> IsPrimitive(r.value) && PrimitiveName(r.value) == s
    ensures r.Err? ==> r.error == InvalidValue
  {
    match ToPrimitive(s)
    case Some(p) => Ok(p)
    case None => Err(InvalidValue)
  }

  /** The elements of a union, decoded in order; the first failing element fails. */
  function DecodeAll(items: seq<Value>): (r: Result<seq<Schema>>)
    decreases items, 0
    ensures r.Ok? <==> forall i :: 0 <= i < |items| ==> Decode(items[i]).Ok?
    ensures r.Ok? ==> |r.value| == |items|
    ensures r.Ok? ==> forall i :: 0 <= i < |items| ==> Decode(items[i]) == Ok(r.value[i])
  {
    if items == [] then Ok([])
    else
      var n := |items|;
      assert forall i :: 0 <= i < n - 1 ==> items[..n - 1][i] == items[i];
      var init :- DecodeAll(items[..n - 1]);
      var last :- Decode(items[n - 1]);
      Ok(init + [last])
  }

  /** The first element that fails to decode decides the error of the whole list. */
  lemma {:induction false} DecodeAllFirstError(items: seq<Value>, i: nat)
    requires i < |items| && Decode(items[i]).Err?
    requires forall j :: 0 <= j < i ==> Decode(items[j]).Ok?
    ensures DecodeAll(items) == Err(Decode(items[i]).error)
  {
    var n := |items|;
    var init := items[..n - 1];
    assert forall j :: 0 <= j < n - 1 ==> init[j] == items[j];
    if i < n - 1 {
      DecodeAllFirstError(init, i);
      assert DecodeAll(init).Err?;
    } else {
      assert DecodeAll(init).Ok?;
      assert Decode(items[n - 1]).Err?;
    }
  }

  /** `Schema::deserialize`: dispatch on the shape of the value. */
  function Decode(v: Value): (r: Result<Schema>)
    decreases v, 3
    ensures v.Null? || v.Bool? || v.Num? ==> r == Err(TypeMismatch)
    ensures v.Str? ==> r == VisitStr(v.s)
  {
    match v
    case Str(s) => VisitStr(s)
    case Arr(items) =>
      var schemas :- DecodeAll(items);
      Ok(Union(schemas))
    case Obj(entries) =>
      CollectedFrom(entries);
      DecodeObject(Collected(entries), v)
    case _ => Err(TypeMismatch)
  }

  /** An object reads as a field through the working map its entries build. */
  lemma {:induction false} ToFieldOfObject(entries: seq<(string, Value)>)
    ensures Owned(Collected(entries), Obj(entries))
    ensures ToField(Obj(entries)) == FieldFromMap(Collected(entries), Obj(entries))
  {
    CollectedFrom(entries);
  }

  /** An object decodes through the working map its entries build. */
  lemma {:induction false} DecodeOfObject(entries: seq<(string, Value)>)
    ensures Owned(Collected(entries), Obj(entries))
    ensures Decode(Obj(entries)) == DecodeObject(Collected(entries), Obj(entries))
  {
    CollectedFrom(entries);
  }

  // ---------------------------------------------------------------------
  // The loops of visit_seq and visit_map
  // ---------------------------------------------------------------------

  /** `SchemaVisitor::visit_seq`: push each decoded element, stop at the first error. */
  method VisitSeq(items: seq<Value>) returns (r: Result<Schema>)
    ensures r == Decode(Arr(items))
  {
    var schemas: seq<Schema> := [];
    var i := 0;
    while i < |items|
      invariant 0 <= i <= |items|
      invariant |schemas| == i
      invariant forall j :: 0 <= j < i ==> Decode(items[j]) == Ok(schemas[j])
    {
      var s := Decode(items[i]);
      if s.Err? {
        DecodeAllFirstError(items, i);
        return Err(s.error);
      }
      schemas := schemas + [s.value];
      i := i + 1;
    }
    assert DecodeAll(items).value == schemas;
    return Ok(Union(schemas));
  }

  /** `SchemaVisitor::visit_map`: build the working map, then dispatch. */
  method VisitMap(entries: seq<(string, Value)>) returns (r: Result<Schema>)
    ensures r == Decode(Obj(entries))
  {
    var m := CollectEntries(entries);
    CollectedFrom(entries);
    r := DecodeObject(m, Obj(entries));
  }

  /** `FieldVisitor::visit_map`: build the working map, then read the field. */
  method FieldVisitMap(entries: seq<(string, Value)>) returns (r: Result<Field>)
    ensures r == ToField(Obj(entries))
  {
    var m := CollectEntries(entries);
    CollectedFrom(entries);
    r := FieldFromMap(m, Obj(entries));
  }
}
