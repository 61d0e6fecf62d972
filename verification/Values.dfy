/** Portable values. */
module Values {
  import opened Bytes

  /** A portable reference: four identities. */
  datatype Location = Location(generation: seq<byte>, owner: seq<byte>, cell: seq<byte>, schema: seq<byte>)

  /** What the fixed-width identity types guarantee of a reference. */
  predicate ValidLocation(l: Location) {
    Identity(l.generation, 32) && Identity(l.owner, 32) && Identity(l.cell, 16) && Identity(l.schema, 32)
  }

  /** One entry of a map; a map is the strictly ascending sequence of its entries. */
  datatype Field = Field(key: seq<byte>, value: Value)

  datatype Value =
    | Null
    | Ref(location: Location)
    | Bool(flag: bool)
    | I64(signed: i64)
    | U64(unsigned: u64)
    | String(text: seq<byte>)
    | Bytes(data: seq<byte>)
    | List(items: seq<Value>)
    | Map(fields: seq<Field>)
}
