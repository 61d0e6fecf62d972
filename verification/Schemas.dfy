/** Structural schemas and the values they accept. */
module Schemas {
  import opened Wrappers
  import opened Contract
  import opened Bytes
  import V = Values

  /** A field of a struct; struct and tagged schemas are strictly ascending by name. */
  datatype SchemaField = SchemaField(name: seq<byte>, schema: ValueSchema)

  /** A variant of a tagged sum; a unit variant has no payload schema. */
  datatype SchemaVariant = SchemaVariant(name: seq<byte>, payload: Option<ValueSchema>)

  datatype ValueSchema =
    | Bool | I64 | U64 | String | Bytes
    | List(inner: ValueSchema)
    | Option(inner: ValueSchema)
    | Struct(fields: seq<SchemaField>)
    | Variants(names: seq<seq<byte>>)
    | Tagged(variants: seq<SchemaVariant>)
    | Ref(id: seq<byte>)

  /** `BTreeMap::get`. */
  function Lookup(fields: seq<V.Field>, key: seq<byte>): (r: Option<V.Value>)
    ensures r.Some? ==> V.Field(key, r.value) in fields
    ensures r.None? <==> forall f | f in fields :: f.key != key
  {
    if fields == [] then None
    else if fields[0].key == key then Some(fields[0].value)
    else Lookup(fields[1..], key)
  }

  function LookupVariant(variants: seq<SchemaVariant>, name: seq<byte>): (r: Option<SchemaVariant>)
    ensures r.Some? ==> r.value in variants && r.value.name == name
    ensures r.None? <==> forall v | v in variants :: v.name != name
  {
    if variants == [] then None
    else if variants[0].name == name then Some(variants[0])
    else LookupVariant(variants[1..], name)
  }

  /** `ValueSchema::accepts`. */
  predicate Accepts(s: ValueSchema, v: V.Value)
    decreases s
  {
    match s
    case Bool => v.Bool?
    case I64 => v.I64?
    case U64 => v.U64?
    case String => v.String?
    case Bytes => v.Bytes?
    case List(inner) => v.List? && forall i | 0 <= i < |v.items| :: Accepts(inner, v.items[i])
    case Option(inner) => v.Null? || (v.List? && |v.items| == 1 && Accepts(inner, v.items[0]))
    case Struct(fields) =>
      && v.Map? && |fields| == |v.fields|
      && forall i | 0 <= i < |fields| ::
           var found := Lookup(v.fields, fields[i].name);
           found.Some? && Accepts(fields[i].schema, found.value)
    case Variants(names) => v.String? && v.text in names
    case Tagged(variants) =>
      && v.Map? && |v.fields| == 1
      && var found := LookupVariant(variants, v.fields[0].key);
         && found.Some?
         && match found.value.payload {
              case None => v.fields[0].value.Null?
              case Some(payload) => Accepts(payload, v.fields[0].value)
            }
    case Ref(id) => v.Ref? && v.location.schema == id
  }

  // ----- what is accepted, read from the value

  predicate DistinctNames(names: seq<seq<byte>>) { forall i, j | 0 <= i < j < |names| :: names[i] != names[j] }

  lemma {:induction false} AsMany(names: seq<seq<byte>>)
    requires DistinctNames(names)
    ensures |set n | n in names| == |names|
  {
    if names != [] {
      var last, rest := names[|names| - 1], names[..|names| - 1];
      AsMany(rest);
      assert names == rest + [last];
      assert last !in rest;
      assert (set n | n in names) == (set n | n in rest) + {last};
    }
  }

  function NamesOf(fields: seq<SchemaField>): (names: seq<seq<byte>>)
    ensures |names| == |fields| && forall i | 0 <= i < |fields| :: names[i] == fields[i].name
  {
    seq(|fields|, i requires 0 <= i < |fields| => fields[i].name)
  }

  function KeysOf(entries: seq<V.Field>): (keys: seq<seq<byte>>)
    ensures |keys| == |entries| && forall i | 0 <= i < |entries| :: keys[i] == entries[i].key
  {
    seq(|entries|, i requires 0 <= i < |entries| => entries[i].key)
  }

  /** Each field has an entry that it accepts. */
  predicate EachField(fields: seq<SchemaField>, entries: seq<V.Field>) {
    forall f | f in fields :: exists e :: e in entries && e.key == f.name && Accepts(f.schema, e.value)
  }

  /** Each entry has a field. */
  predicate NoOther(fields: seq<SchemaField>, entries: seq<V.Field>) {
    forall e | e in entries :: e.key in NamesOf(fields)
  }

  lemma {:induction false} LookupOnly(entries: seq<V.Field>, e: V.Field)
    requires DistinctNames(KeysOf(entries)) && e in entries
    ensures Lookup(entries, e.key) == Some(e.value)
  {
    var found := V.Field(e.key, Lookup(entries, e.key).value);
    var i :| 0 <= i < |entries| && entries[i] == e;
    var j :| 0 <= j < |entries| && entries[j] == found;
    assert KeysOf(entries)[i] == KeysOf(entries)[j];
  }

  lemma SameNames(names: seq<seq<byte>>, keys: seq<seq<byte>>)
    requires DistinctNames(names) && DistinctNames(keys) && forall n | n in names :: n in keys
    ensures |names| == |keys| <==> forall k | k in keys :: k in names
  {
    var N, K := set n | n in names, set k | k in keys;
    AsMany(names);
    AsMany(keys);
    if |names| == |keys| {
      Covers(N, K);
      forall k | k in keys ensures k in names { assert k in K; }
    }
    if forall k | k in keys :: k in names { assert N == K; }
  }

  /** A struct accepts a map that has an accepted entry for each field, and no other entry. */
  lemma StructAccepts(fields: seq<SchemaField>, entries: seq<V.Field>)
    requires DistinctNames(NamesOf(fields)) && DistinctNames(KeysOf(entries))
    ensures Accepts(Struct(fields), V.Map(entries)) <==> EachField(fields, entries) && NoOther(fields, entries)
  {
    hide DistinctNames;
    var names, keys := NamesOf(fields), KeysOf(entries);
    if Accepts(Struct(fields), V.Map(entries)) { AcceptsEach(fields, entries); }
    if EachField(fields, entries) {
      EachAccepted(fields, entries);
      forall n | n in names ensures n in keys {
        var i :| 0 <= i < |fields| && names[i] == n;
        assert fields[i] in fields;
        var e :| e in entries && e.key == n;
        var j :| 0 <= j < |entries| && entries[j] == e;
        assert keys[j] == n;
      }
      SameNames(names, keys);
      assert NoOther(fields, entries) <==> forall k | k in keys :: k in names by {
        forall k | k in keys ensures NoOther(fields, entries) ==> k in names {
          var j :| 0 <= j < |entries| && keys[j] == k;
          assert entries[j] in entries;
        }
        forall e | e in entries ensures e.key in keys {
          var j :| 0 <= j < |entries| && entries[j] == e;
          assert keys[j] == e.key;
        }
      }
    }
  }

  lemma AcceptsEach(fields: seq<SchemaField>, entries: seq<V.Field>)
    requires Accepts(Struct(fields), V.Map(entries))
    ensures EachField(fields, entries)
  {
    forall f | f in fields ensures exists e :: e in entries && e.key == f.name && Accepts(f.schema, e.value) {
      var i :| 0 <= i < |fields| && fields[i] == f;
      assert V.Field(f.name, Lookup(entries, f.name).value) in entries;
    }
  }

  lemma EachAccepted(fields: seq<SchemaField>, entries: seq<V.Field>)
    requires EachField(fields, entries) && DistinctNames(KeysOf(entries))
    ensures Accepts(Struct(fields), V.Map(entries)) <==> |fields| == |entries|
  {
    forall i | 0 <= i < |fields|
      ensures var found := Lookup(entries, fields[i].name); found.Some? && Accepts(fields[i].schema, found.value)
    {
      assert fields[i] in fields;
      var e :| e in entries && e.key == fields[i].name && Accepts(fields[i].schema, e.value);
      LookupOnly(entries, e);
    }
  }

  lemma Covers(A: set<seq<byte>>, B: set<seq<byte>>)
    requires A <= B && |A| == |B|
    ensures A == B
  {
    assert B == A + (B - A);
  }

  /** A unit variant carries nothing. */
  predicate AcceptedPayload(payload: Option<ValueSchema>, x: V.Value) {
    if payload.Some? then Accepts(payload.value, x) else x.Null?
  }

  /** Which schemas accept a value, other than a struct. */
  lemma {:induction false} AcceptedBy(s: ValueSchema, v: V.Value)
    requires !s.Struct? || !v.Map?
    ensures Accepts(s, v) <==>
      match v
      case Null => s.Option?
      case Bool(_) => s.Bool?
      case I64(_) => s.I64?
      case U64(_) => s.U64?
      case Bytes(_) => s.Bytes?
      case String(text) => s.String? || (s.Variants? && text in s.names)
      case Ref(location) => s == ValueSchema.Ref(location.schema)
      case List(items) =>
        || (s.List? && forall x | x in items :: Accepts(s.inner, x))
        || (s.Option? && exists x :: items == [x] && Accepts(s.inner, x))
      case Map(entries) =>
        s.Tagged? && exists key, payload, x ::
          && entries == [V.Field(key, x)] && LookupVariant(s.variants, key) == Some(SchemaVariant(key, payload))
          && AcceptedPayload(payload, x)
  {
    if s.Option? && v.List? && |v.items| == 1 { assert v.items == [v.items[0]]; }
    if s.List? && v.List? { assert forall i | 0 <= i < |v.items| :: v.items[i] in v.items; }
    if s.Tagged? && v.Map? && |v.fields| == 1 {
      var key, x := v.fields[0].key, v.fields[0].value;
      assert v.fields == [V.Field(key, x)];
      var found := LookupVariant(s.variants, key);
      if found.Some? { assert found == Some(SchemaVariant(key, found.value.payload)); }
    }
  }
}
