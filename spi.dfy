/**
 * The host pipeline's view of data: typed columns, a schema that numbers
 * them, the values a record holds, and the lookup of a column by name.
 */
module Spi {

  import opened Wrappers
  import opened Decimal

  /** The closed set of column types a schema may use. */
  datatype ColType = BooleanType | LongType | DoubleType | StringType | TimestampType | JsonType

  /** A column descriptor: its position in the schema, its name and its type. */
  datatype Column = Column(index: nat, name: string, colType: ColType)

  type Schema = seq<Column>

  /** A Java `double`, kept as its IEEE 754 bit pattern; it is only ever handed to a foreign formatter. */
  datatype Double = Double(bits: bv64)

  /** An instant, as seconds since the epoch plus nanoseconds. */
  datatype Timestamp = Timestamp(epochSecond: int, nano: nat)

  /** A structured value, kept as its msgpack encoding; it is only ever handed to a foreign serializer. */
  datatype Json = Json(msgpack: seq<bv8>)

  /** A non-null cell value, tagged with its kind. */
  datatype Value =
    | BooleanValue(b: bool)
    | LongValue(n: Long)
    | DoubleValue(d: Double)
    | StringValue(s: string)
    | TimestampValue(t: Timestamp)
    | JsonValue(j: Json)

  /** A record: one cell per schema column, `None` for a null. */
  type Record = seq<Option<Value>>

  function TypeOf(v: Value): ColType {
    match v
    case BooleanValue(_) => BooleanType
    case LongValue(_) => LongType
    case DoubleValue(_) => DoubleType
    case StringValue(_) => StringType
    case TimestampValue(_) => TimestampType
    case JsonValue(_) => JsonType
  }

  /** The host numbers a schema's columns by their position. */
  predicate WellFormed(schema: Schema) {
    forall i :: 0 <= i < |schema| ==> schema[i].index == i
  }

  /** A cell fits a column type when it is null or holds a value of that type. */
  predicate CellFits(cell: Option<Value>, t: ColType) {
    cell.Some? ==> TypeOf(cell.value) == t
  }

  /** A record decoded from a page of `schema`: one cell per column, each of the column's type. */
  predicate Conforms(schema: Schema, rec: Record) {
    |rec| == |schema| && forall i :: 0 <= i < |rec| ==> CellFits(rec[i], schema[i].colType)
  }

  /** The position of the first column at or after `from` named `name`. */
  function FindPosition(schema: Schema, name: string, from: nat): (r: Option<nat>)
    requires from <= |schema|
    decreases |schema| - from
    ensures r.Some? <==> exists i :: from <= i < |schema| && schema[i].name == name
    ensures r.Some? ==> from <= r.value < |schema| && schema[r.value].name == name
    ensures r.Some? ==> forall j :: from <= j < r.value ==> schema[j].name != name
  {
    if from == |schema| then None
    else if schema[from].name == name then Some(from)
    else FindPosition(schema, name, from + 1)
  }

  /**
   * Schema.lookupColumn: the first column whose name equals `name` exactly,
   * or `None` where the host library throws because there is none.
   */
  function LookupColumn(schema: Schema, name: string): (r: Option<Column>)
    ensures r.Some? <==> exists i :: 0 <= i < |schema| && schema[i].name == name
    ensures r.Some? ==> r.value in schema && r.value.name == name
    ensures r.Some? && WellFormed(schema) ==> r.value.index < |schema| && schema[r.value.index] == r.value
    ensures r.Some? && WellFormed(schema) ==> forall j :: 0 <= j < r.value.index ==> schema[j].name != name
  {
    match FindPosition(schema, name, 0)
    case None => None
    case Some(p) => Some(schema[p])
  }
}
