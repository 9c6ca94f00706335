/**
 * The Avro schema data model: the typed tree the decoder produces.
 * Every entity is an immutable value; children are owned, never shared.
 */
module Avro {
  import opened Wrappers

  /** The sort order of a record field. */
  datatype Order = Ascending | Descending | Ignore

  /** One field of a record; `default` is itself a schema. */
  datatype Field = Field(
    name: string,
    doc: Option<string>,
    schema: Schema,
    default: Option<Schema>,
    order: Option<Order>,
    aliases: seq<string>)

  datatype Record = Record(
    name: string,
    namespace: Option<string>,
    doc: Option<string>,
    aliases: seq<string>,
    fields: seq<Field>)

  /** A named byte sequence of `size` bytes (`usize` in the source). */
  datatype Fixed = Fixed(
    name: string,
    namespace: Option<string>,
    doc: Option<string>,
    aliases: seq<string>,
    size: nat)

  datatype Enum = Enum(
    name: string,
    namespace: Option<string>,
    aliases: seq<string>,
    doc: Option<string>,
    symbols: seq<string>,
    default: Option<string>)

  /**
   * The fourteen schema variants: eight primitives without payload, three
   * named types, Array and Map owning one child, Union owning an ordered list.
   */
  datatype Schema =
    | Null
    | Boolean
    | Int
    | Long
    | Float
    | Double
    | Bytes
    | String
    | Record(record: Record)
    | Enum(enumeration: Enum)
    | Array(items: Schema)
    | Map(values: Schema)
    | Union(variants: seq<Schema>)
    | Fixed(fixed: Fixed)

  /** The variants without payload. */
  predicate IsPrimitive(s: Schema) {
    s.Null? || s.Boolean? || s.Int? || s.Long? || s.Float? || s.Double? || s.Bytes? || s.String?
  }

  /** `Field::new`: the given name and type, every optional attribute absent. */
  function NewField(name: string, schema: Schema): (f: Field)
    ensures f.name == name && f.schema == schema
    ensures f.doc == None && f.default == None && f.order == None
    ensures f.aliases == []
  {
    Field(name, None, schema, None, None, [])
  }

  /** `Record::new`: the given name and fields in order, no namespace, doc or aliases. */
  function NewRecord(name: string, fields: seq<Field>): (r: Record)
    ensures r.name == name && r.fields == fields
    ensures r.namespace == None && r.doc == None && r.aliases == []
  {
    Record.Record(name, None, None, [], fields)
  }

  /** `Fixed::new`: the given name and size, no namespace, doc or aliases. */
  function NewFixed(name: string, size: nat): (f: Fixed)
    ensures f.name == name && f.size == size
    ensures f.namespace == None && f.doc == None && f.aliases == []
  {
    Fixed.Fixed(name, None, None, [], size)
  }

  /** `Enum::new`: the given name and symbols in order, every optional attribute absent. */
  function NewEnum(name: string, symbols: seq<string>): (e: Enum)
    ensures e.name == name && e.symbols == symbols
    ensures e.namespace == None && e.doc == None && e.default == None && e.aliases == []
  {
    Enum.Enum(name, None, [], None, symbols, None)
  }

  /** `From<Enum> for Schema`. */
  function FromEnum(e: Enum): (s: Schema)
    ensures s.Enum? && s.enumeration == e
  {
    Schema.Enum(e)
  }

  /** `From<Record> for Schema`. */
  function FromRecord(r: Record): (s: Schema)
    ensures s.Record? && s.record == r
  {
    Schema.Record(r)
  }

  /** `From<Fixed> for Schema`. */
  function FromFixed(f: Fixed): (s: Schema)
    ensures s.Fixed? && s.fixed == f
  {
    Schema.Fixed(f)
  }
}
