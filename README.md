# Avro schema decoder — a Dafny model

This project models the schema decoder of the `avro-schema` Rust crate (`src/de.rs`) and the schema
data model it produces (`src/lib.rs`). The decoder reads a generic JSON value and returns an Avro
schema. A bare string must name one of the eight primitives. A list becomes a union of its decoded
elements. An object is dispatched on its `"type"` discriminator: a primitive name gives that
primitive; `enum`, `map`, `array`, `record` and `fixed` each have their own builder. Records decode
their fields with a separate field decoder.

Modules:

- `Wrappers` (`wrappers.dfy`): `Option`.
- `Json` (`json.dfy`): the generic JSON value. An object is the sequence of its entries in input
  order. Duplicate keys may occur; the decoder's map keeps the last one.
- `Avro` (`avro.dfy`): `Order`, `Field`, `Record`, `Fixed`, `Enum` and the fourteen-variant `Schema`.
  The `new` constructors and the `From` conversions are here. Of the fourteen variants, eight
  carry no payload, `Array` and `Map` own one child, and `Union` owns an ordered list.
- `De` (`de.dfy`): the decoder.
  - Each helper that takes `&mut HashMap` and deletes the key it reads is a function. It returns
    `Result<Taken<T>>`, which holds the extracted value and what remains of the working map.
  - The two `visit_map` insertion loops and the `visit_seq` push loop are methods. Each is proved
    equal to the function that specifies it.
  - Recursion from a working map back into `Decode` is well founded because of a ghost `owner`
    argument: the working map only holds entries of that object.
- `Canonical` (`canonical.dfy`): a canonical JSON encoding of every schema. It exists so the
  decoder has an inverse to be checked against; the crate has no encoder. `DecodeEncode` proves
  that the decoder reads every schema back from its encoding unchanged, so every value the data
  model can hold is reachable.
- `Properties` (`properties.dfy`): properties that relate several parts of the decoder.
  - Primitive discriminators.
  - The required keys of each object form, and the order in which they are checked.
  - The smallest object accepted for each named form. Each one decodes to the matching `new`
    constructor.
  - How a list becomes a union.
  - Worked examples.

Errors are modelled by kind: `MissingField`, `TypeMismatch`, `InvalidValue` and `Unsupported(tag)`.

Three behaviours of the code that the model keeps:

- Named types accept any string as their name, the empty string included: `remove_string` only asks
  for a string (src/de.rs:80-81), and `Properties.MinimalEnum` holds for `""`. The name grammar of
  the Avro specification, `[A-Za-z_][A-Za-z0-9_]*`, excludes it.
- In a `fixed`, "size" is read before "name" (src/de.rs:146-152). So a malformed size is reported
  even when the name is missing too (`Properties.FixedRequiresSizeThenName`).
- An unknown discriminator reaches `todo!` (src/de.rs:233); the model makes it the error
  `Unsupported(tag)`.

## Model

| member | source | states |
|---|---|---|
| Avro.NewField | src/lib.rs:21-30 | the given name and schema; doc, default and order absent; no aliases |
| Avro.NewRecord | src/lib.rs:43-51 | the given name and fields, in order; namespace and doc absent; no aliases |
| Avro.NewFixed | src/lib.rs:64-72 | the given name and size; namespace and doc absent; no aliases |
| Avro.NewEnum | src/lib.rs:86-95 | the given name and symbols, in order; namespace, doc and default absent; no aliases |
| Avro.FromEnum | src/lib.rs:116-120 | an enum becomes the `Enum` variant holding it |
| Avro.FromRecord | src/lib.rs:122-126 | a record becomes the `Record` variant holding it |
| Avro.FromFixed | src/lib.rs:128-132 | a fixed becomes the `Fixed` variant holding it |
| De.CollectEntries | src/de.rs:214-220 | the insertion loop builds exactly `Collected(entries)` |
| De.CollectedFrom | src/de.rs:218-220 | the working map's keys are exactly the object's keys; every value it holds is one of the object's entries |
| De.CollectedLastWins | src/de.rs:218-220 | with no later entry under the same key, an entry's value is the one the map holds |
| De.ToPrimitive | src/de.rs:11-24 | `Some` exactly for the eight primitive names, and then the primitive variant whose name it is |
| De.PrimitiveNameInverse | src/de.rs:11-24 | `to_primitive` maps the name of each primitive back to that primitive |
| De.GetType | src/de.rs:26-36 | missing "type" gives MissingField; a non-string "type" gives TypeMismatch; on success, the string, and the map without "type" |
| De.AsString | src/de.rs:38-47 | success exactly on a string, with its payload; TypeMismatch otherwise |
| De.RemoveString | src/de.rs:49-57 | absent key: `None`, map unchanged; present key: removed and nothing else changes; success exactly when the value is a string |
| De.AsStrings | src/de.rs:66 | success exactly when every element is a string; the payloads in order and the same length |
| De.RemoveVecString | src/de.rs:59-76 | absent key: empty list, map unchanged; non-array or any non-string element: TypeMismatch; success gives the payloads in order, with the array's length, and removes the key |
| De.OrderName | src/de.rs:166-169 | the literal of each order is one of the three accepted literals |
| De.ToOrder | src/de.rs:160-178 | absent key: `None`; non-string: TypeMismatch; a string other than the three literals: InvalidValue; otherwise the order whose literal it is; the key is removed |
| De.RemoveNamed | src/de.rs:80-84 | missing "name" gives MissingField; success exactly when name, namespace, aliases and doc are well shaped; the values read; the four keys removed |
| De.ToEnum | src/de.rs:78-88 | missing name gives MissingField; success exactly when every attribute is well shaped; the enum with every attribute as read; the keys it read are removed |
| De.SizeOf | src/de.rs:149 | a non-negative integer gives that size; a negative one gives InvalidValue; any other value gives TypeMismatch |
| De.ToFixed | src/de.rs:145-158 | "size" is checked before "name": a missing size gives MissingField and a bad size gives its own error, whatever the name; the fixed with every attribute as read |
| De.ToSchema | src/de.rs:98-106 | absent key: `None`, map unchanged; present key: succeeds exactly when its value decodes, with that schema or that error, and removes the key |
| De.ToMap | src/de.rs:90-96 | missing "values" gives MissingField; otherwise the map of the decoded value schema, or the value's decode error |
| De.ToArray | src/de.rs:108-112 | missing "items" gives MissingField; otherwise the array of the decoded item schema, or the item's decode error |
| De.ToField | src/de.rs:114-116 | a field decodes only from an object; any other value gives TypeMismatch |
| De.FieldFromMap | src/de.rs:269-278 | the reads in source order, each error stated: missing name gives MissingField and a non-string name TypeMismatch; a non-string doc gives TypeMismatch; a missing type gives MissingField; a type or default that fails to decode gives that decode's error; a non-string order gives TypeMismatch and an unknown order literal InvalidValue; bad aliases give TypeMismatch; on success each attribute as read, aliases empty when absent |
| De.FieldTail | src/de.rs:275-277 | default, order and aliases read in that order: a default that fails to decode gives its error; a non-string order TypeMismatch; an unknown order literal InvalidValue; bad aliases TypeMismatch; on success the field with the given name, doc and schema and each attribute as read |
| De.ToFields | src/de.rs:125 | success exactly when every element decodes as a field; the fields in order, with the list's length |
| De.ToFieldsFirstError | src/de.rs:125 | the first element that fails to decode as a field decides the error of the whole list, as `collect` stops there |
| De.ToVecFields | src/de.rs:118-132 | absent key: no fields; non-array: TypeMismatch; otherwise exactly the outcome of decoding the list, and the key is removed |
| De.ToRecord | src/de.rs:134-143 | missing name gives MissingField; a malformed name, namespace, aliases or doc gives TypeMismatch; a non-array "fields" gives TypeMismatch; a failing field list gives that list's error (its first failing field, by `De.ToFieldsFirstError`); success exactly when all of these are well formed, fields default to empty |
| De.DecodeObject | src/de.rs:222-235 | missing "type" gives MissingField; non-string: TypeMismatch; a primitive name gives that primitive whatever else is present; an unknown tag gives Unsupported(tag); a success matches its tag |
| De.DecodeObjectDispatch | src/de.rs:227-232 | each composite tag selects its builder, applied to the map without "type" |
| De.VisitStr | src/de.rs:190-196 | success exactly for a primitive name, with the primitive of that name; InvalidValue otherwise |
| De.DecodeAll | src/de.rs:202-207 | success exactly when every element decodes; one schema per element, in order |
| De.DecodeAllFirstError | src/de.rs:203-204 | the first element that fails to decode decides the error of the whole list |
| De.Decode | src/de.rs:239-246 | null, booleans and numbers give TypeMismatch; a string is read as a primitive name |
| De.VisitSeq | src/de.rs:198-208 | the push loop returns exactly what decoding the list as a union returns |
| De.VisitMap | src/de.rs:210-236 | building the map, then dispatching on "type", returns exactly what decoding the object returns |
| De.FieldVisitMap | src/de.rs:257-279 | building the map, then reading the field, returns exactly what decoding the object as a field returns |
| Canonical.DecodeEncode | src/de.rs:190-236 | every schema is read back unchanged from its canonical JSON form |
| Canonical.FieldRoundTrip | src/de.rs:269-278 | every field is read back unchanged from its canonical form |
| Canonical.FieldsRoundTrip | src/de.rs:118-132 | a list of fields each of which round-trips reads back as that list |
| Canonical.RecordRoundTrip | src/de.rs:134-143 | a record whose fields round-trip is read back unchanged |
| Canonical.EnumRoundTrip | src/de.rs:78-88 | every enum is read back unchanged |
| Canonical.FixedRoundTrip | src/de.rs:145-158 | every fixed is read back unchanged |
| Canonical.ArrayRoundTrip | src/de.rs:108-112 | an array whose item schema round-trips is read back unchanged |
| Canonical.MapRoundTrip | src/de.rs:90-96 | a map whose value schema round-trips is read back unchanged |
| Canonical.UnionRoundTrip | src/de.rs:198-208 | a union whose variants round-trip is read back unchanged, in order |
| Canonical.OrderNameInjective | src/de.rs:166-169 | distinct orders have distinct literals |
| Properties.PrimitiveObject | src/de.rs:218-225 | an object whose last "type" entry, at any position, names a primitive decodes to that primitive, whatever other keys it has |
| Properties.StringObjectAgree | src/de.rs:222-225 | a primitive name and the object `{"type": name}` decode to the same primitive |
| Properties.DuplicateTypeLastWins | src/de.rs:218-220 | of two "type" entries, the later one is read |
| Properties.ContainersRequireChild | src/de.rs:90-112 | a map without "values" and an array without "items" give MissingField |
| Properties.NamedRequireName | src/de.rs:78-143 | a record or an enum without "name" gives MissingField |
| Properties.FixedRequiresSizeThenName | src/de.rs:145-152 | a fixed without a size gives MissingField; a non-number size gives TypeMismatch and a negative one InvalidValue, whether or not the name is present; with a good size, a missing name gives MissingField |
| Properties.FieldDefaults | src/de.rs:269-278 | a field needs "name" and "type"; absent aliases read as none; absent doc and order read as absent |
| Properties.MinimalEnum | src/de.rs:78-88 | `{"type": "enum", "name": n}` decodes to `Enum::new(n, [])`, for every string n, the empty one included |
| Properties.MinimalRecord | src/de.rs:134-143 | a record object with a name and a decodable fields list decodes to `Record::new` of the name and the decoded fields, in order |
| Properties.RecordWithoutFields | src/de.rs:130 | a record object without "fields" decodes to `Record::new(n, [])` |
| Properties.MinimalFixed | src/de.rs:145-158 | `{"type": "fixed", "name": n, "size": k}` decodes to `Fixed::new(n, k)` |
| Properties.MinimalField | src/de.rs:269-278 | `{"name": n, "type": t}` decodes to `Field::new(n, s)`, where t decodes to s |
| Properties.UnionOfList | src/de.rs:198-208 | a list decodes exactly when every element does; the union has one variant per element, in order; otherwise the first failing element's error |
| Properties.OptionalIntUnion | src/de.rs:198-208 | `["null", "int"]` decodes to the union of Null and Int, in that order |
| Properties.RecordExample | src/de.rs:134-143 | a record "R" with one string field "f" decodes to that record; the field has no doc, default or order, and no aliases |
| Properties.ArrayExample | src/de.rs:108-112 | `{"type": "array", "items": "long"}` decodes to an array of longs |
| Properties.MapExample | src/de.rs:90-96 | `{"type": "map", "values": "boolean"}` decodes to a map of booleans |

## Left out

- The serde machinery is not modelled: `Deserializer`, the `Visitor` and `expecting` methods, and the `MapAccess` and `SeqAccess` streams (src/de.rs:182-188, src/de.rs:239-246, src/de.rs:282-289).
  - `De.Decode` stands for `deserialize_any` on a JSON value.
  - `De.ToField` stands for `from_value::<Field>`.
  - `VisitMap` and `FieldVisitMap` take the entries the stream yields as a sequence rather than pulling them one by one.
- JSON text parsing is not part of the model. The input is already a JSON value.
- Error messages are not modelled, only error kinds. This includes the copied "name is required in enum" texts for record, fixed and field, and the "must be a string" text for a non-array "fields".
- The `helper` argument of `as_string` is dropped, because it only ever appears in the message text.
- De.ToSchema: a nested decode error keeps its kind from the inner decode. The source wraps it in a custom error that carries the same message (`map_err(custom)`). The same applies to `De.ToMap`, `De.VisitSeq` and `De.ToField` (src/de.rs:115); `De.ToFields`, `De.ToVecFields` and `De.ToRecord` pass the field's error on unchanged.
- De.SizeOf: JSON numbers are integers in this model. `from_value::<usize>` also rejects floating-point numbers and values above `usize::MAX`; the model does not capture either case. For the same reason, `Avro.Fixed.size` is unbounded.
- The `todo!` panic on an unknown discriminator becomes the error `Unsupported(tag)`.
- HashMap capacity hints, hashing and iteration order are not modelled. Neither are the derived `Debug`, `Clone`, `PartialEq` and `Hash` implementations.
- In-place deletion from the shared map is not modelled: each helper returns the remaining map as a new value. The source drops the map on an error, so an error here carries no map.
- A bare string that names a user-defined type is rejected, as in the source. Reference resolution is not part of the decoder.
- The decoder is deterministic because it is a function; no separate lemma states this.
