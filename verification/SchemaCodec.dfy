/** Schema descriptors: schemas as values, their canonical bytes, and their limits. */
module SchemaCodec {
  import opened Wrappers
  import opened Contract
  import opened Bytes
  import V = Values
  import opened ValueCodec
  import opened Schemas

  // ----- names

  /** An ASCII identifier, as bytes. */
  predicate IdentifierBytes(name: seq<byte>) {
    0 < |name| <= 256 && forall i | 0 <= i < |name| :: IdentifierByte(name[i])
  }

  predicate IdentifierByte(b: byte) {
    0x30 <= b <= 0x39 || 0x41 <= b <= 0x5A || 0x61 <= b <= 0x7A || b in {0x2D, 0x2E, 0x5F}
  }

  lemma {:induction false} AsciiIsUtf8(s: seq<byte>)
    requires forall i | 0 <= i < |s| :: s[i] < 0x80
    ensures Utf8(s)
  {
    if s != [] { AsciiIsUtf8(s[1..]); }
  }

  lemma {:induction false} AsciiText(s: string)
    requires forall i | 0 <= i < |s| :: s[i] < 128 as char
    ensures Utf8(Ascii(s))
  {
    AsciiIsUtf8(Ascii(s));
  }

  /** The name of a schema's kind. */
  function Kind(s: ValueSchema): (kind: string) {
    match s
    case Bool => "Bool"
    case I64 => "I64"
    case U64 => "U64"
    case String => "String"
    case Bytes => "Bytes"
    case List(_) => "List"
    case Option(_) => "Option"
    case Struct(_) => "Struct"
    case Variants(_) => "Variants"
    case Tagged(_) => "Tagged"
    case Ref(_) => "Ref"
  }

  lemma {:induction false} KindIsText(s: ValueSchema)
    ensures Utf8(Ascii(Kind(s))) && |Kind(s)| <= 8
  {
    hide Utf8;
    AsciiText(Kind(s));
  }

  /** Kinds of the same length are told apart by their first letter. */
  lemma {:induction false} KindsDiffer()
    ensures Ascii("I64") != Ascii("U64")
    ensures Ascii("Option") != Ascii("Struct") && Ascii("Option") != Ascii("Tagged")
      && Ascii("Struct") != Ascii("Tagged")
  {
    assert Ascii("I64")[0] != Ascii("U64")[0];
    assert Ascii("Option")[0] != Ascii("Struct")[0];
    assert Ascii("Option")[0] != Ascii("Tagged")[0];
    assert Ascii("Struct")[0] != Ascii("Tagged")[0];
  }

  predicate Scalar(s: ValueSchema) { s.Bool? || s.I64? || s.U64? || s.String? || s.Bytes? }

  // ----- what a schema may be

  /** A schema that exists: names are UTF-8 texts, fields ascend strictly, identities are valid. */
  predicate Formed(s: ValueSchema) {
    match s
    case List(inner) => Formed(inner)
    case Option(inner) => Formed(inner)
    case Struct(fields) =>
      && (forall i | 0 <= i < |fields| :: Utf8(fields[i].name) && Formed(fields[i].schema))
      && (forall i | 0 <= i < |fields| - 1 :: Less(fields[i].name, fields[i + 1].name))
    case Variants(names) => forall i | 0 <= i < |names| :: Utf8(names[i])
    case Tagged(variants) =>
      && (forall i | 0 <= i < |variants| ::
            Utf8(variants[i].name) && (variants[i].payload.Some? ==> Formed(variants[i].payload.value)))
      && (forall i | 0 <= i < |variants| - 1 :: Less(variants[i].name, variants[i + 1].name))
    case Ref(id) => Identity(id, 32)
    case _ => true
  }

  /** `validate`: the limits a schema must meet before it is encoded. */
  predicate Validate(s: ValueSchema, depth: nat)
    decreases s
  {
    && depth <= MAX_DEPTH
    && match s
       case List(inner) => Validate(inner, depth + 1)
       case Option(inner) => Validate(inner, depth + 1)
       case Struct(fields) =>
         forall i | 0 <= i < |fields| :: IdentifierBytes(fields[i].name) && Validate(fields[i].schema, depth + 1)
       case Tagged(variants) =>
         && variants != []
         && forall i | 0 <= i < |variants| ::
              && IdentifierBytes(variants[i].name)
              && (variants[i].payload.Some? ==> Validate(variants[i].payload.value, depth + 1))
       case Variants(names) =>
         && names != []
         && (forall i | 0 <= i < |names| :: IdentifierBytes(names[i]))
         && (forall i | 0 <= i < |names| - 1 :: Less(names[i], names[i + 1]))
       case _ => true
  }

  // ----- descriptors

  function Pair(kind: string, inner: V.Value): V.Value { V.List([V.String(Ascii(kind)), inner]) }

  function Descriptor(s: ValueSchema): (v: V.Value)
    ensures v != V.Null
    decreases s
  {
    match s
    case List(inner) => Pair("List", Descriptor(inner))
    case Option(inner) => Pair("Option", Descriptor(inner))
    case Struct(fields) => Pair("Struct", V.Map(FieldDescriptors(fields)))
    case Variants(names) => Pair("Variants", V.List(Texts(names)))
    case Tagged(variants) => Pair("Tagged", V.Map(VariantDescriptors(variants)))
    case Ref(id) => Pair("Ref", V.Bytes(id))
    case _ => V.String(Ascii(Kind(s)))
  }

  function Texts(names: seq<seq<byte>>): (texts: seq<V.Value>)
    ensures |texts| == |names| && forall i | 0 <= i < |names| :: texts[i] == V.String(names[i])
  {
    seq(|names|, i requires 0 <= i < |names| => V.String(names[i]))
  }

  function FieldDescriptors(fields: seq<SchemaField>): (r: seq<V.Field>)
    ensures |r| == |fields|
    ensures forall i | 0 <= i < |fields| :: r[i] == V.Field(fields[i].name, Descriptor(fields[i].schema))
    decreases fields
  {
    if fields == [] then []
    else [V.Field(fields[0].name, Descriptor(fields[0].schema))] + FieldDescriptors(fields[1..])
  }

  function PayloadDescriptor(payload: Option<ValueSchema>): V.Value
    decreases payload
  {
    if payload.None? then V.Null else Descriptor(payload.value)
  }

  function VariantDescriptors(variants: seq<SchemaVariant>): (r: seq<V.Field>)
    ensures |r| == |variants|
    ensures forall i | 0 <= i < |variants| :: r[i] == V.Field(variants[i].name, PayloadDescriptor(variants[i].payload))
    decreases variants
  {
    if variants == [] then []
    else [V.Field(variants[0].name, PayloadDescriptor(variants[0].payload))] + VariantDescriptors(variants[1..])
  }

  /** `parse`: the schema a descriptor describes. */
  function Described(v: V.Value): Option<ValueSchema>
    decreases v, 0
  {
    match v
    case String(name) => DescribedScalar(name)
    case List(pair) =>
      if |pair| != 2 || !pair[0].String? then None else DescribedPair(pair[0].text, pair[1])
    case _ => None
  }

  function DescribedPair(kind: seq<byte>, inner: V.Value): Option<ValueSchema>
    decreases inner, 1
  {
    if kind == Ascii("List") then
      var s := Described(inner); if s.None? then None else Some(List(s.value))
    else if kind == Ascii("Option") then
      var s := Described(inner); if s.None? then None else Some(ValueSchema.Option(s.value))
    else if kind == Ascii("Struct") && inner.Map? then
      var fields := DescribedFields(inner.fields); if fields.None? then None else Some(Struct(fields.value))
    else if kind == Ascii("Variants") && inner.List? then
      if forall i | 0 <= i < |inner.items| :: inner.items[i].String?
      then Some(Variants(seq(|inner.items|, i requires 0 <= i < |inner.items| => inner.items[i].text)))
      else None
    else if kind == Ascii("Tagged") && inner.Map? then
      var variants := DescribedVariants(inner.fields); if variants.None? then None else Some(Tagged(variants.value))
    else if kind == Ascii("Ref") && inner.Bytes? then
      if Identity(inner.data, 32) then Some(Ref(inner.data)) else None
    else None
  }

  function DescribedScalar(name: seq<byte>): Option<ValueSchema> {
    if name == Ascii("Bool") then Some(Bool)
    else if name == Ascii("I64") then Some(I64)
    else if name == Ascii("U64") then Some(U64)
    else if name == Ascii("String") then Some(String)
    else if name == Ascii("Bytes") then Some(ValueSchema.Bytes)
    else None
  }

  function DescribedFields(fields: seq<V.Field>): Option<seq<SchemaField>>
    decreases fields, 0
  {
    if fields == [] then Some([])
    else
      var first, others := Described(fields[0].value), DescribedFields(fields[1..]);
      if first.None? || others.None? then None else Some([SchemaField(fields[0].key, first.value)] + others.value)
  }

  function DescribedVariants(fields: seq<V.Field>): Option<seq<SchemaVariant>>
    decreases fields, 0
  {
    if fields == [] then Some([])
    else
      var others := DescribedVariants(fields[1..]);
      if others.None? then None
      else if fields[0].value == V.Null then Some([SchemaVariant(fields[0].key, None)] + others.value)
      else
        var first := Described(fields[0].value);
        if first.None? then None else Some([SchemaVariant(fields[0].key, first)] + others.value)
  }

  // ----- descriptors and schemas determine each other

  lemma {:induction false} PairDescribes(kind: string, inner: V.Value)
    ensures Described(Pair(kind, inner)) == DescribedPair(Ascii(kind), inner)
    ensures Utf8(Ascii(kind)) ==> Portable(Pair(kind, inner)) == Portable(inner)
  {
    hide DescribedPair, Utf8, Ascii;
    var items := [V.String(Ascii(kind)), inner];
    assert (forall i | 0 <= i < |items| :: Portable(items[i])) <==> Portable(items[0]) && Portable(items[1]);
  }

  lemma {:induction false} DescriptorDescribes(s: ValueSchema)
    requires Formed(s)
    ensures Described(Descriptor(s)) == Some(s) && Portable(Descriptor(s))
    decreases s, 0
  {
    hide Described, Descriptor, Portable;
    match s {
      case List(inner) =>
        DescriptorDescribes(inner);
        WrapperDescribes(s, inner);
      case Option(inner) =>
        DescriptorDescribes(inner);
        WrapperDescribes(s, inner);
      case Struct(fields) =>
        FieldsDescribe(fields);
        StructDescribes(fields);
      case Variants(names) =>
        VariantNamesDescribe(names);
      case Tagged(variants) =>
        VariantsDescribe(variants);
        TaggedDescribes(variants);
      case Ref(id) =>
        RefDescribes(id);
      case _ =>
        ScalarDescribes(s);
    }
  }

  lemma {:induction false} ScalarDescribes(s: ValueSchema)
    requires Scalar(s)
    ensures Described(Descriptor(s)) == Some(s) && Portable(Descriptor(s))
  {
    hide Utf8, Ascii;
    KindsDiffer();
    KindIsText(s);
  }

  lemma {:induction false} WrapperDescribes(s: ValueSchema, inner: ValueSchema)
    requires s == List(inner) || s == ValueSchema.Option(inner)
    requires Described(Descriptor(inner)) == Some(inner) && Portable(Descriptor(inner))
    ensures Described(Descriptor(s)) == Some(s) && Portable(Descriptor(s))
  {
    hide Utf8, Ascii, Described, Portable;
    KindIsText(s);
    PairDescribes(Kind(s), Descriptor(inner));
  }

  lemma {:induction false} StructPair(fields: seq<V.Field>, r: seq<SchemaField>)
    requires DescribedFields(fields) == Some(r)
    ensures DescribedPair(Ascii("Struct"), V.Map(fields)) == Some(Struct(r))
  {
    hide Ascii, DescribedFields, Described;
    KindsDiffer();
  }

  lemma {:induction false} StructDescribes(fields: seq<SchemaField>)
    requires Formed(Struct(fields)) && DescribedFields(FieldDescriptors(fields)) == Some(fields)
    requires forall i | 0 <= i < |fields| :: Portable(FieldDescriptors(fields)[i].value)
    ensures Described(Descriptor(Struct(fields))) == Some(Struct(fields)) && Portable(Descriptor(Struct(fields)))
  {
    hide Utf8, Ascii, Less, Described, DescribedPair, DescribedFields, FieldDescriptors, Portable;
    KindIsText(Struct(fields));
    var inner := V.Map(FieldDescriptors(fields));
    PairDescribes("Struct", inner);
    StructPair(inner.fields, fields);
    forall i | 0 <= i < |fields| - 1 ensures Less(inner.fields[i].key, inner.fields[i + 1].key) {
      assert Less(fields[i].name, fields[i + 1].name);
    }
    PortableMap(inner.fields);
  }

  lemma {:induction false} PortableMap(fields: seq<V.Field>)
    requires forall i | 0 <= i < |fields| :: Utf8(fields[i].key) && Portable(fields[i].value)
    requires forall i | 0 <= i < |fields| - 1 :: Less(fields[i].key, fields[i + 1].key)
    ensures Portable(V.Map(fields))
  {
  }

  lemma {:induction false} TaggedPair(fields: seq<V.Field>, variants: seq<SchemaVariant>)
    requires DescribedVariants(fields) == Some(variants)
    ensures DescribedPair(Ascii("Tagged"), V.Map(fields)) == Some(Tagged(variants))
  {
    hide Ascii, DescribedVariants, Described;
    KindsDiffer();
  }

  lemma {:induction false} TaggedDescribes(variants: seq<SchemaVariant>)
    requires Formed(Tagged(variants)) && DescribedVariants(VariantDescriptors(variants)) == Some(variants)
    requires forall i | 0 <= i < |variants| :: Portable(VariantDescriptors(variants)[i].value)
    ensures Described(Descriptor(Tagged(variants))) == Some(Tagged(variants)) && Portable(Descriptor(Tagged(variants)))
  {
    hide Utf8, Ascii, Less, Described, DescribedPair, DescribedVariants, VariantDescriptors, Portable;
    KindIsText(Tagged(variants));
    var inner := V.Map(VariantDescriptors(variants));
    PairDescribes("Tagged", inner);
    TaggedPair(inner.fields, variants);
    forall i | 0 <= i < |variants| - 1 ensures Less(inner.fields[i].key, inner.fields[i + 1].key) {
      assert Less(variants[i].name, variants[i + 1].name);
    }
    PortableMap(inner.fields);
  }

  lemma {:induction false} VariantNamesDescribe(names: seq<seq<byte>>)
    requires forall i | 0 <= i < |names| :: Utf8(names[i])
    ensures Described(Descriptor(Variants(names))) == Some(Variants(names)) && Portable(Descriptor(Variants(names)))
  {
    hide Utf8, Ascii, Described;
    NamesDescribe(names);
    KindIsText(Variants(names));
    PairDescribes("Variants", V.List(Texts(names)));
  }

  lemma {:induction false} RefDescribes(id: seq<byte>)
    requires Identity(id, 32)
    ensures Described(Descriptor(Ref(id))) == Some(Ref(id)) && Portable(Descriptor(Ref(id)))
  {
    hide Utf8, Ascii, Described, Identity;
    KindsDiffer();
    KindIsText(Ref(id));
    PairDescribes("Ref", V.Bytes(id));
  }

  lemma {:induction false} NamesDescribe(names: seq<seq<byte>>)
    requires forall i | 0 <= i < |names| :: Utf8(names[i])
    ensures DescribedPair(Ascii("Variants"), V.List(Texts(names))) == Some(Variants(names))
    ensures Portable(V.List(Texts(names)))
  {
    hide Utf8;
    var items := Texts(names);
    assert seq(|items|, i requires 0 <= i < |items| => items[i].text) == names;
    assert forall i | 0 <= i < |items| :: Portable(items[i]);
  }

  lemma {:induction false} FieldsDescribe(fields: seq<SchemaField>)
    requires forall i | 0 <= i < |fields| :: Formed(fields[i].schema)
    ensures DescribedFields(FieldDescriptors(fields)) == Some(fields)
    ensures forall i | 0 <= i < |fields| :: Portable(FieldDescriptors(fields)[i].value)
    decreases fields, 1
  {
    if fields != [] {
      DescriptorDescribes(fields[0].schema);
      FieldsDescribe(fields[1..]);
      assert FieldDescriptors(fields)[1..] == FieldDescriptors(fields[1..]);
      assert [fields[0]] + fields[1..] == fields;
    }
  }

  lemma {:induction false} VariantsDescribe(variants: seq<SchemaVariant>)
    requires forall i | 0 <= i < |variants| :: variants[i].payload.Some? ==> Formed(variants[i].payload.value)
    ensures DescribedVariants(VariantDescriptors(variants)) == Some(variants)
    ensures forall i | 0 <= i < |variants| :: Portable(VariantDescriptors(variants)[i].value)
    decreases variants, 1
  {
    if variants != [] {
      if variants[0].payload.Some? { DescriptorDescribes(variants[0].payload.value); }
      VariantsDescribe(variants[1..]);
      assert VariantDescriptors(variants)[1..] == VariantDescriptors(variants[1..]);
      assert [variants[0]] + variants[1..] == variants;
    }
  }

  lemma {:induction false} DescribedHasDescriptor(v: V.Value)
    requires Portable(v) && Described(v).Some?
    ensures Formed(Described(v).value) && Descriptor(Described(v).value) == v
    decreases v, 0
  {
    hide Utf8, Less, DescribedPair;
    KindsDiffer();
    if v.List? {
      var inner := v.items[1];
      assert v.items == [v.items[0], inner] && Portable(v.items[1]);
      PairHasDescriptor(v.items[0].text, inner);
    }
  }

  lemma {:induction false} PairHasDescriptor(kind: seq<byte>, inner: V.Value)
    requires Portable(inner) && DescribedPair(kind, inner).Some?
    ensures var s := DescribedPair(kind, inner).value;
      Formed(s) && Descriptor(s) == V.List([V.String(kind), inner])
    decreases inner, 2
  {
    hide Utf8, Less, Described, Ascii, Identity, DescribedFields, DescribedVariants, FieldDescriptors;
    hide VariantDescriptors;
    hide Formed, Portable, Descriptor;
    var s := DescribedPair(kind, inner).value;
    match s {
      case List(_) =>
        DescribedHasDescriptor(inner);
        WrapperHasDescriptor(s, kind, inner);
      case Option(_) =>
        DescribedHasDescriptor(inner);
        WrapperHasDescriptor(s, kind, inner);
      case Struct(fields) =>
        PortableParts(inner);
        FieldsHaveDescriptors(inner.fields);
        StructHasDescriptor(inner.fields, fields);
      case Variants(names) =>
        NamesHaveDescriptor(inner.items, names);
      case Tagged(variants) =>
        PortableParts(inner);
        VariantsHaveDescriptors(inner.fields);
        TaggedHasDescriptor(inner.fields, variants);
      case Ref(id) =>
        RefHasDescriptor(id);
    }
  }

  lemma {:induction false} PortableParts(v: V.Value)
    requires Portable(v) && v.Map?
    ensures forall i | 0 <= i < |v.fields| :: Portable(v.fields[i].value)
  {
  }

  lemma {:induction false} WrapperHasDescriptor(s: ValueSchema, kind: seq<byte>, inner: V.Value)
    requires s.List? || s.Option?
    requires kind == Ascii(Kind(s)) && Formed(s.inner) && Descriptor(s.inner) == inner
    ensures Formed(s) && Descriptor(s) == V.List([V.String(kind), inner])
  {
  }

  lemma {:induction false} RefHasDescriptor(id: seq<byte>)
    requires Identity(id, 32)
    ensures Formed(Ref(id)) && Descriptor(Ref(id)) == V.List([V.String(Ascii("Ref")), V.Bytes(id)])
  {
  }

  lemma {:induction false} StructHasDescriptor(fields: seq<V.Field>, r: seq<SchemaField>)
    requires Portable(V.Map(fields)) && |r| == |fields| && FieldDescriptors(r) == fields
    requires forall i | 0 <= i < |r| :: r[i].name == fields[i].key && Formed(r[i].schema)
    ensures Formed(Struct(r)) && Descriptor(Struct(r)) == V.List([V.String(Ascii("Struct")), V.Map(fields)])
  {
    hide Utf8, Less, FieldDescriptors;
    forall i | 0 <= i < |r| - 1 ensures Less(r[i].name, r[i + 1].name) {
      assert Less(fields[i].key, fields[i + 1].key);
    }
  }

  lemma {:induction false} TaggedHasDescriptor(fields: seq<V.Field>, r: seq<SchemaVariant>)
    requires Portable(V.Map(fields)) && |r| == |fields| && VariantDescriptors(r) == fields
    requires forall i | 0 <= i < |r| ::
      r[i].name == fields[i].key && (r[i].payload.Some? ==> Formed(r[i].payload.value))
    ensures Formed(Tagged(r)) && Descriptor(Tagged(r)) == V.List([V.String(Ascii("Tagged")), V.Map(fields)])
  {
    hide Utf8, Less, VariantDescriptors;
    forall i | 0 <= i < |r| - 1 ensures Less(r[i].name, r[i + 1].name) {
      assert Less(fields[i].key, fields[i + 1].key);
    }
  }

  lemma {:induction false} NamesHaveDescriptor(items: seq<V.Value>, names: seq<seq<byte>>)
    requires Portable(V.List(items)) && |names| == |items|
    requires forall i | 0 <= i < |items| :: items[i] == V.String(names[i])
    ensures Formed(Variants(names))
      && Descriptor(Variants(names)) == V.List([V.String(Ascii("Variants")), V.List(items)])
  {
    hide Utf8;
    assert Texts(names) == items;
    assert forall i | 0 <= i < |names| :: Portable(items[i]);
  }

  lemma {:induction false} FieldsHaveDescriptors(fields: seq<V.Field>)
    requires forall i | 0 <= i < |fields| :: Portable(fields[i].value)
    requires DescribedFields(fields).Some?
    ensures var r := DescribedFields(fields).value;
      && |r| == |fields| && FieldDescriptors(r) == fields
      && forall i | 0 <= i < |r| :: r[i].name == fields[i].key && Formed(r[i].schema)
    decreases fields, 1
  {
    if fields != [] {
      DescribedHasDescriptor(fields[0].value);
      FieldsHaveDescriptors(fields[1..]);
      var r := DescribedFields(fields).value;
      assert r[1..] == DescribedFields(fields[1..]).value;
      assert fields == [fields[0]] + fields[1..];
    }
  }

  lemma {:induction false} VariantsHaveDescriptors(fields: seq<V.Field>)
    requires forall i | 0 <= i < |fields| :: Portable(fields[i].value)
    requires DescribedVariants(fields).Some?
    ensures var r := DescribedVariants(fields).value;
      && |r| == |fields| && VariantDescriptors(r) == fields
      && forall i | 0 <= i < |r| :: r[i].name == fields[i].key && (r[i].payload.Some? ==> Formed(r[i].payload.value))
    decreases fields, 1
  {
    if fields != [] {
      if fields[0].value != V.Null { DescribedHasDescriptor(fields[0].value); }
      VariantsHaveDescriptors(fields[1..]);
      var r := DescribedVariants(fields).value;
      assert r[1..] == DescribedVariants(fields[1..]).value;
      assert fields == [fields[0]] + fields[1..];
    }
  }

  // ----- encode and decode

  function EncodeDescriptor(s: ValueSchema): Result<seq<byte>, Failure> {
    if Validate(s, 0) then EncodeSchema(Descriptor(s)) else Err(Failure(SchemaRejected))
  }

  /** `ValueSchema::decode`, with the comparison it ends with. */
  function DecodeDescriptor(bytes: seq<byte>): Result<ValueSchema, Failure> {
    match DecodeSchema(bytes)
    case Err(e) => Err(e)
    case Ok(v) =>
      match Described(v)
      case None => Err(Failure(SchemaRejected))
      case Some(s) => if EncodeDescriptor(s) == Ok(bytes) then Ok(s) else Err(Failure(SchemaRejected))
  }

  /** The comparison at the end of decoding can only fail because the schema is not valid. */
  lemma {:induction false} ComparisonOnlyValidates(bytes: seq<byte>)
    requires DecodeSchema(bytes).Ok? && Described(DecodeSchema(bytes).value).Some?
    ensures var s := Described(DecodeSchema(bytes).value).value;
      EncodeDescriptor(s) == if Validate(s, 0) then Ok(bytes) else Err(Failure(SchemaRejected))
  {
    var v := DecodeSchema(bytes).value;
    SchemaBijection(v, bytes);
    DescribedHasDescriptor(v);
  }

  /** A schema and its canonical bytes determine each other. */
  lemma {:induction false} DescriptorBijection(s: ValueSchema, bytes: seq<byte>)
    ensures Formed(s) && EncodeDescriptor(s) == Ok(bytes) <==> DecodeDescriptor(bytes) == Ok(s)
  {
    if Formed(s) && EncodeDescriptor(s) == Ok(bytes) {
      DescriptorDescribes(s);
      SchemaBijection(Descriptor(s), bytes);
    }
    if DecodeDescriptor(bytes) == Ok(s) {
      SchemaBijection(DecodeSchema(bytes).value, bytes);
      DescribedHasDescriptor(DecodeSchema(bytes).value);
    }
  }

  // ----- depth

  /** How many levels of a value the descriptor of `s` takes below its own: a struct or a tagged sum
      costs two levels, although it is one level of schema. */
  function Levels(s: ValueSchema): nat {
    match s
    case List(inner) => 1 + Levels(inner)
    case Option(inner) => 1 + Levels(inner)
    case Struct(fields) => 1 + FieldLevels(fields)
    case Tagged(variants) => 1 + VariantLevels(variants)
    case Variants(names) => if names == [] then 1 else 2
    case Ref(_) => 1
    case _ => 0
  }

  function Max(a: nat, b: nat): nat { if a < b then b else a }

  function FieldLevels(fields: seq<SchemaField>): nat
    decreases fields
  {
    if fields == [] then 0 else Max(1 + Levels(fields[0].schema), FieldLevels(fields[1..]))
  }

  function VariantLevels(variants: seq<SchemaVariant>): nat
    decreases variants
  {
    if variants == [] then 0
    else
      var first := if variants[0].payload.Some? then 1 + Levels(variants[0].payload.value) else 1;
      Max(first, VariantLevels(variants[1..]))
  }

  /** Counts and text lengths within the limits of the value codec. */
  predicate Modest(s: ValueSchema) {
    match s
    case List(inner) => Modest(inner)
    case Option(inner) => Modest(inner)
    case Struct(fields) =>
      && |fields| <= MAX_COUNT
      && forall i | 0 <= i < |fields| :: |fields[i].name| <= MAX_LENGTH && Modest(fields[i].schema)
    case Tagged(variants) =>
      && |variants| <= MAX_COUNT
      && forall i | 0 <= i < |variants| ::
           |variants[i].name| <= MAX_LENGTH && (variants[i].payload.Some? ==> Modest(variants[i].payload.value))
    case Variants(names) => |names| <= MAX_COUNT && forall i | 0 <= i < |names| :: |names[i]| <= MAX_LENGTH
    case Ref(id) => |id| <= MAX_LENGTH
    case _ => true
  }

  predicate AllFit(fields: seq<V.Field>, depth: nat) { forall i | 0 <= i < |fields| :: Fits(fields[i].value, depth) }

  predicate AllShort(fields: seq<V.Field>) { forall i | 0 <= i < |fields| :: |fields[i].key| <= MAX_LENGTH }

  predicate ModestFields(fields: seq<SchemaField>) { forall i | 0 <= i < |fields| :: Modest(fields[i].schema) }

  predicate ModestVariants(variants: seq<SchemaVariant>) {
    forall i | 0 <= i < |variants| :: variants[i].payload.Some? ==> Modest(variants[i].payload.value)
  }

  lemma {:induction false} SplitFit(fields: seq<V.Field>, depth: nat)
    requires fields != []
    ensures AllFit(fields, depth) <==> Fits(fields[0].value, depth) && AllFit(fields[1..], depth)
  {
    hide Fits;
    assert forall i | 0 < i < |fields| :: fields[i] == fields[1..][i - 1];
  }

  lemma {:induction false} SplitFields(fields: seq<SchemaField>)
    requires fields != []
    ensures ModestFields(fields) <==> Modest(fields[0].schema) && ModestFields(fields[1..])
  {
    hide Modest;
    assert forall i | 0 < i < |fields| :: fields[i] == fields[1..][i - 1];
  }

  lemma {:induction false} SplitVariants(variants: seq<SchemaVariant>)
    requires variants != []
    ensures ModestVariants(variants) <==>
      (variants[0].payload.Some? ==> Modest(variants[0].payload.value)) && ModestVariants(variants[1..])
  {
    hide Modest;
    assert forall i | 0 < i < |variants| :: variants[i] == variants[1..][i - 1];
  }

  /** The value codec accepts a descriptor exactly when its levels, counts and lengths fit. */
  lemma {:induction false} DescriptorFits(s: ValueSchema, depth: nat)
    ensures Fits(Descriptor(s), depth) <==> depth + Levels(s) <= MAX_DEPTH && Modest(s)
    decreases s, 0
  {
    hide Fits, Ascii, FieldDescriptors, VariantDescriptors, FieldLevels, VariantLevels, AllFit, ModestFields;
    hide ModestVariants;
    match s {
      case List(inner) =>
        DescriptorFits(inner, depth + 1);
        PairFits("List", Descriptor(inner), depth);
      case Option(inner) =>
        DescriptorFits(inner, depth + 1);
        PairFits("Option", Descriptor(inner), depth);
      case Struct(fields) =>
        FieldsFit(fields, depth + 2);
        StructFits(fields, depth);
      case Tagged(variants) =>
        VariantsFit(variants, depth + 2);
        TaggedFits(variants, depth);
      case Variants(names) =>
        TextsFit(names, depth + 1);
        PairFits("Variants", V.List(Texts(names)), depth);
      case Ref(id) =>
        PairFits("Ref", V.Bytes(id), depth);
        BytesFit(id, depth + 1);
      case _ =>
        KindIsText(s);
        TextFits(Ascii(Kind(s)), depth);
    }
  }

  lemma {:induction false} StructFits(fields: seq<SchemaField>, depth: nat)
    requires AllFit(FieldDescriptors(fields), depth + 2) <==>
      (fields == [] || depth + 2 + FieldLevels(fields) <= MAX_DEPTH + 1) && ModestFields(fields)
    ensures Fits(Descriptor(Struct(fields)), depth) <==>
      depth + Levels(Struct(fields)) <= MAX_DEPTH && Modest(Struct(fields))
  {
    hide Fits, Ascii, AllFit, FieldDescriptors;
    var ds := FieldDescriptors(fields);
    MapFits(ds, depth + 1);
    PairFits("Struct", V.Map(ds), depth);
    assert AllShort(ds) <==> forall i | 0 <= i < |fields| :: |fields[i].name| <= MAX_LENGTH by {
      assert forall i | 0 <= i < |fields| :: ds[i].key == fields[i].name;
    }
  }

  lemma {:induction false} TaggedFits(variants: seq<SchemaVariant>, depth: nat)
    requires AllFit(VariantDescriptors(variants), depth + 2) <==>
      (variants == [] || depth + 2 + VariantLevels(variants) <= MAX_DEPTH + 1) && ModestVariants(variants)
    ensures Fits(Descriptor(Tagged(variants)), depth) <==>
      depth + Levels(Tagged(variants)) <= MAX_DEPTH && Modest(Tagged(variants))
  {
    hide Fits, Ascii, AllFit, VariantDescriptors;
    var ds := VariantDescriptors(variants);
    MapFits(ds, depth + 1);
    PairFits("Tagged", V.Map(ds), depth);
    assert AllShort(ds) <==> forall i | 0 <= i < |variants| :: |variants[i].name| <= MAX_LENGTH by {
      assert forall i | 0 <= i < |variants| :: ds[i].key == variants[i].name;
    }
  }

  lemma {:induction false} BytesFit(data: seq<byte>, depth: nat)
    ensures Fits(V.Bytes(data), depth) <==> depth <= MAX_DEPTH && |data| <= MAX_LENGTH
  {
  }

  lemma {:induction false} TextFits(text: seq<byte>, depth: nat)
    ensures Fits(V.String(text), depth) <==> depth <= MAX_DEPTH && |text| <= MAX_LENGTH
  {
  }

  lemma {:induction false} MapFits(fields: seq<V.Field>, depth: nat)
    ensures Fits(V.Map(fields), depth) <==>
      depth <= MAX_DEPTH && |fields| <= MAX_COUNT && AllShort(fields) && AllFit(fields, depth + 1)
  {
  }

  lemma {:induction false} PairFits(kind: string, inner: V.Value, depth: nat)
    requires |kind| <= MAX_LENGTH
    ensures Fits(Pair(kind, inner), depth) <==> depth < MAX_DEPTH && Fits(inner, depth + 1)
  {
    var items := [V.String(Ascii(kind)), inner];
    TextFits(Ascii(kind), depth + 1);
    assert (forall i | 0 <= i < |items| :: Fits(items[i], depth + 1)) <==>
      Fits(items[0], depth + 1) && Fits(items[1], depth + 1);
  }

  lemma {:induction false} TextsFit(names: seq<seq<byte>>, depth: nat)
    ensures Fits(V.List(Texts(names)), depth) <==>
      && depth <= MAX_DEPTH && (names != [] ==> depth < MAX_DEPTH) && |names| <= MAX_COUNT
      && forall i | 0 <= i < |names| :: |names[i]| <= MAX_LENGTH
  {
    var items := Texts(names);
    forall i | 0 <= i < |names| ensures Fits(items[i], depth + 1) <==> depth < MAX_DEPTH && |names[i]| <= MAX_LENGTH {
      assert items[i] == V.String(names[i]);
    }
    if names != [] { assert Fits(items[0], depth + 1) <==> depth < MAX_DEPTH && |names[0]| <= MAX_LENGTH; }
  }

  lemma {:induction false} FieldsFit(fields: seq<SchemaField>, depth: nat)
    ensures AllFit(FieldDescriptors(fields), depth) <==>
      (fields == [] || depth + FieldLevels(fields) <= MAX_DEPTH + 1) && ModestFields(fields)
    decreases fields, 1
  {
    if fields != [] {
      DescriptorFits(fields[0].schema, depth);
      FieldsFit(fields[1..], depth);
      SplitFit(FieldDescriptors(fields), depth);
      SplitFields(fields);
      assert FieldDescriptors(fields)[1..] == FieldDescriptors(fields[1..]);
    }
  }

  lemma {:induction false} VariantsFit(variants: seq<SchemaVariant>, depth: nat)
    ensures AllFit(VariantDescriptors(variants), depth) <==>
      (variants == [] || depth + VariantLevels(variants) <= MAX_DEPTH + 1) && ModestVariants(variants)
    decreases variants, 1
  {
    if variants != [] {
      if variants[0].payload.Some? { DescriptorFits(variants[0].payload.value, depth); }
      VariantsFit(variants[1..], depth);
      SplitFit(VariantDescriptors(variants), depth);
      SplitVariants(variants);
      assert VariantDescriptors(variants)[1..] == VariantDescriptors(variants[1..]);
    }
  }

  /** Exactly when a schema can be encoded. */
  lemma {:induction false} EncodesExactly(s: ValueSchema)
    ensures EncodeDescriptor(s).Ok? <==>
      Validate(s, 0) && Levels(s) <= MAX_DEPTH && Modest(s) && |Wire(Descriptor(s))| <= MAX_BYTES
  {
    DescriptorFits(s, 0);
  }

  /** `n` structs, each with one field that holds the next. */
  function StructChain(n: nat): ValueSchema {
    if n == 0 then Bool else Struct([SchemaField(Ascii("f"), StructChain(n - 1))])
  }

  lemma {:induction false} ChainIsValid(n: nat, depth: nat)
    requires depth + n <= MAX_DEPTH
    ensures Validate(StructChain(n), depth) && Levels(StructChain(n)) == 2 * n
  {
    if n > 0 {
      ChainIsValid(n - 1, depth + 1);
      var fields := [SchemaField(Ascii("f"), StructChain(n - 1))];
      assert fields[1..] == [];
      assert Ascii("f")[0] == 0x66;
    }
  }

  /** One schema of each kind, and its descriptor. */
  lemma {:induction false} KnownDescriptors(id: seq<byte>)
    ensures Descriptor(Bool) == V.String(Ascii("Bool")) && Descriptor(Bytes) == V.String(Ascii("Bytes"))
    ensures Descriptor(I64) == V.String(Ascii("I64")) && Descriptor(U64) == V.String(Ascii("U64"))
    ensures Descriptor(String) == V.String(Ascii("String"))
    ensures Descriptor(Ref(id)) == V.List([V.String(Ascii("Ref")), V.Bytes(id)])
  {
    hide Ascii;
  }

  lemma {:induction false} KnownComposites(inner: ValueSchema, name: seq<byte>)
    ensures Descriptor(List(inner)) == V.List([V.String(Ascii("List")), Descriptor(inner)])
    ensures Descriptor(Option(inner)) == V.List([V.String(Ascii("Option")), Descriptor(inner)])
    ensures Descriptor(Variants([name])) == V.List([V.String(Ascii("Variants")), V.List([V.String(name)])])
    ensures Descriptor(Struct([SchemaField(name, inner)])) ==
      V.List([V.String(Ascii("Struct")), V.Map([V.Field(name, Descriptor(inner))])])
  {
    hide Ascii;
    assert Texts([name]) == [V.String(name)];
    assert FieldDescriptors([SchemaField(name, inner)]) == [V.Field(name, Descriptor(inner))];
  }

  lemma {:induction false} KnownTagged(variant: SchemaVariant)
    ensures Descriptor(Tagged([variant])) ==
      V.List([V.String(Ascii("Tagged")), V.Map([
        V.Field(variant.name, if variant.payload.Some? then Descriptor(variant.payload.value) else V.Null)])])
  {
    hide Ascii;
    assert VariantDescriptors([variant]) == [V.Field(variant.name, PayloadDescriptor(variant.payload))];
  }

  /** The schema limit and the value limit differ: between 17 and 32 nested structs a schema is valid
      but has no encoding. */
  lemma {:induction false} ValidButNotEncodable(n: nat)
    requires 16 < n <= MAX_DEPTH
    ensures Validate(StructChain(n), 0) && EncodeDescriptor(StructChain(n)).Err?
  {
    ChainIsValid(n, 0);
    EncodesExactly(StructChain(n));
  }
}
