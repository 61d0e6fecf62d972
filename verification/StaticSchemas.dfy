/** Constant schemas, emitted byte by byte into a fixed buffer. */
module StaticSchemas {
  import opened Wrappers
  import opened Contract
  import opened Bytes
  import V = Values
  import opened ValueCodec
  import opened SchemaCodec
  import S = Schemas

  datatype StaticField = StaticField(name: seq<byte>, schema: StaticSchema)

  datatype StaticVariant = StaticVariant(name: seq<byte>, schema: Option<StaticSchema>)

  /** A reference names its target by schema; the target's identity is the digest of its bytes. */
  datatype StaticSchema =
    | Bool | I64 | U64 | String | Bytes
    | List(inner: StaticSchema)
    | Option(inner: StaticSchema)
    | Struct(fields: seq<StaticField>)
    | Variants(names: seq<seq<byte>>)
    | Tagged(variants: seq<StaticVariant>)
    | Ref(target: StaticSchema)

  /** A digest, SHA-256 in the program, taken over the schema domain and the bytes. */
  type Digest = seq<byte> -> seq<byte>

  const BUFFER: nat := 16384

  // ----- what is emitted

  /** The schema a constant schema stands for. */
  function Owned(s: StaticSchema, digest: Digest): S.ValueSchema
    decreases s, 0
  {
    match s
    case Bool => S.Bool
    case I64 => S.I64
    case U64 => S.U64
    case String => S.String
    case Bytes => S.ValueSchema.Bytes
    case List(inner) => S.List(Owned(inner, digest))
    case Option(inner) => S.ValueSchema.Option(Owned(inner, digest))
    case Struct(fields) => S.Struct(OwnedFields(fields, digest))
    case Variants(names) => S.Variants(names)
    case Tagged(variants) => S.Tagged(OwnedVariants(variants, digest))
    case Ref(target) => S.Ref(digest(Emitted(target, digest)))
  }

  function OwnedFields(fields: seq<StaticField>, digest: Digest): (r: seq<S.SchemaField>)
    ensures |r| == |fields|
    ensures forall i | 0 <= i < |fields| :: r[i] == S.SchemaField(fields[i].name, Owned(fields[i].schema, digest))
    decreases fields, 0
  {
    if fields == [] then []
    else [S.SchemaField(fields[0].name, Owned(fields[0].schema, digest))] + OwnedFields(fields[1..], digest)
  }

  function OwnedPayload(payload: Option<StaticSchema>, digest: Digest): Option<S.ValueSchema>
    decreases payload, 0
  {
    if payload.None? then None else Some(Owned(payload.value, digest))
  }

  function OwnedVariants(variants: seq<StaticVariant>, digest: Digest): (r: seq<S.SchemaVariant>)
    ensures |r| == |variants|
    ensures forall i | 0 <= i < |variants| ::
      r[i] == S.SchemaVariant(variants[i].name, OwnedPayload(variants[i].schema, digest))
    decreases variants, 0
  {
    if variants == [] then []
    else
      [S.SchemaVariant(variants[0].name, OwnedPayload(variants[0].schema, digest))]
      + OwnedVariants(variants[1..], digest)
  }

  /** The tree encoder's bytes for the same schema. */
  function Emitted(s: StaticSchema, digest: Digest): seq<byte>
    decreases s, 1
  {
    Wire(Descriptor(Owned(s, digest)))
  }

  /** Name `i` is short and follows the name before it. */
  predicate InOrder(names: seq<seq<byte>>, i: nat)
    requires i < |names|
  {
    (i > 0 ==> Less(names[i - 1], names[i])) && |names[i]| <= MAX_COUNT
  }

  predicate EmitsNames(names: seq<seq<byte>>, i: nat)
    decreases |names| - i
  {
    i >= |names| || (InOrder(names, i) && EmitsNames(names, i + 1))
  }

  /** The fields from the one numbered `i` on can be emitted. */
  predicate EmitsFields(fields: seq<StaticField>, i: nat, depth: nat, digest: Digest)
    decreases fields, |fields| - i
  {
    i >= |fields| || (
      && (i > 0 ==> Less(fields[i - 1].name, fields[i].name)) && |fields[i].name| <= MAX_COUNT
      && Emits(fields[i].schema, depth + 1, digest)
      && EmitsFields(fields, i + 1, depth, digest))
  }

  predicate EmitsVariants(variants: seq<StaticVariant>, i: nat, depth: nat, digest: Digest)
    decreases variants, |variants| - i
  {
    i >= |variants| || (
      && (i > 0 ==> Less(variants[i - 1].name, variants[i].name)) && |variants[i].name| <= MAX_COUNT
      && (variants[i].schema.Some? ==> Emits(variants[i].schema.value, depth + 1, digest))
      && EmitsVariants(variants, i + 1, depth, digest))
  }

  /** What the emitter asserts of a schema, apart from the space it takes. */
  predicate Emits(s: StaticSchema, depth: nat, digest: Digest)
    decreases s, 0
  {
    && depth <= MAX_DEPTH
    && match s
       case List(inner) => Emits(inner, depth + 1, digest)
       case Option(inner) => Emits(inner, depth + 1, digest)
       case Struct(fields) => |fields| <= MAX_COUNT && EmitsFields(fields, 0, depth, digest)
       case Variants(names) => names != [] && |names| <= MAX_COUNT && EmitsNames(names, 0)
       case Tagged(variants) => variants != [] && |variants| <= MAX_COUNT && EmitsVariants(variants, 0, depth, digest)
       case Ref(target) => Emits(target, 0, digest) && |Emitted(target, digest)| <= BUFFER
       case _ => true
  }

  /** `compare`: the order of the bytes. */
  method Compare(a: seq<byte>, b: seq<byte>) returns (r: int)
    ensures -1 <= r <= 1
    ensures r < 0 <==> Less(a, b)
    ensures r == 0 <==> a == b
    ensures r > 0 <==> Less(b, a)
  {
    var i := 0;
    assert a[0..] == a && b[0..] == b;
    while i < |a| && i < |b|
      invariant 0 <= i <= |a| && i <= |b| && a[..i] == b[..i]
      invariant Less(a, b) <==> Less(a[i..], b[i..])
      invariant Less(b, a) <==> Less(b[i..], a[i..])
    {
      if a[i] < b[i] { return -1; }
      if a[i] > b[i] { return 1; }
      assert a[i..][1..] == a[i + 1..] && b[i..][1..] == b[i + 1..];
      assert a[..i + 1] == a[..i] + [a[i]] && b[..i + 1] == b[..i] + [b[i]];
      i := i + 1;
    }
    if |a| < |b| { return -1; }
    if |a| > |b| { return 1; }
    assert a == a[..i] && b == b[..i];
    LessIrreflexive(a);
    return 0;
  }

  // ----- the wire form, piece by piece

  function Head(kind: string): seq<byte> { [7] + ToBe(2, 4) + [5] + Sized(Ascii(kind)) }

  lemma {:induction false} WirePair(kind: string, inner: V.Value)
    ensures Wire(Pair(kind, inner)) == Head(kind) + Wire(inner)
  {
    hide Ascii, ToBe;
    var items := [V.String(Ascii(kind)), inner];
    assert items[1..] == [inner] && [inner][1..] == [];
    assert WireItems([inner]) == Wire(inner) + WireItems([]);
    assert WireItems(items) == Wire(items[0]) + Wire(inner);
  }

  function ScalarName(s: StaticSchema): (name: string)
    ensures |name| <= MAX_COUNT
  {
    match s
    case Bool => "Bool"
    case I64 => "I64"
    case U64 => "U64"
    case String => "String"
    case _ => "Bytes"
  }

  /** What the emitter writes after the head of a composite schema. */
  function Rest(s: StaticSchema, digest: Digest): V.Value
    requires !(s.Bool? || s.I64? || s.U64? || s.String? || s.Bytes?)
  {
    match s
    case List(inner) => Descriptor(Owned(inner, digest))
    case Option(inner) => Descriptor(Owned(inner, digest))
    case Struct(fields) => V.Map(FieldDescriptors(OwnedFields(fields, digest)))
    case Variants(names) => V.List(Texts(names))
    case Tagged(variants) => V.Map(VariantDescriptors(OwnedVariants(variants, digest)))
    case Ref(target) => V.Bytes(digest(Emitted(target, digest)))
  }

  lemma {:induction false} EmitParts(s: StaticSchema, digest: Digest)
    requires !(s.Bool? || s.I64? || s.U64? || s.String? || s.Bytes?)
    ensures Emitted(s, digest) == Head(Kind(Owned(s, digest))) + Wire(Rest(s, digest))
  {
    hide Head, Wire, Ascii;
    WirePair(Kind(Owned(s, digest)), Rest(s, digest));
  }

  /** One level of the emitter: what it asserts, and what it writes. */
  lemma {:induction false} EmitCases(s: StaticSchema, depth: nat, digest: Digest)
    requires forall b :: |digest(b)| == 32
    ensures Emits(s, depth, digest) ==> depth <= MAX_DEPTH
    ensures match s
      case List(inner) =>
        && Emitted(s, digest) == Head("List") + Emitted(inner, digest)
        && (Emits(s, depth, digest) <==> depth <= MAX_DEPTH && Emits(inner, depth + 1, digest))
      case Option(inner) =>
        && Emitted(s, digest) == Head("Option") + Emitted(inner, digest)
        && (Emits(s, depth, digest) <==> depth <= MAX_DEPTH && Emits(inner, depth + 1, digest))
      case Struct(fields) =>
        && Emitted(s, digest) == Head("Struct") + Wire(V.Map(FieldDescriptors(OwnedFields(fields, digest))))
        && (Emits(s, depth, digest) <==>
              depth <= MAX_DEPTH && |fields| <= MAX_COUNT && EmitsFields(fields, 0, depth, digest))
      case Variants(names) =>
        && Emitted(s, digest) == Head("Variants") + Wire(V.List(Texts(names)))
        && (Emits(s, depth, digest) <==>
              depth <= MAX_DEPTH && names != [] && |names| <= MAX_COUNT && EmitsNames(names, 0))
      case Tagged(variants) =>
        && Emitted(s, digest) == Head("Tagged") + Wire(V.Map(VariantDescriptors(OwnedVariants(variants, digest))))
        && (Emits(s, depth, digest) <==>
              depth <= MAX_DEPTH && variants != [] && |variants| <= MAX_COUNT
                && EmitsVariants(variants, 0, depth, digest))
      case Ref(target) =>
        && Emitted(s, digest) == Head("Ref") + Wire(V.Bytes(digest(Emitted(target, digest))))
        && |Wire(V.Bytes(digest(Emitted(target, digest))))| == 37
        && (Emits(s, depth, digest) <==>
              depth <= MAX_DEPTH && Emits(target, 0, digest) && |Emitted(target, digest)| <= BUFFER)
      case _ =>
        && Emitted(s, digest) == [5] + Sized(Ascii(ScalarName(s)))
        && (Emits(s, depth, digest) <==> depth <= MAX_DEPTH)
  {
    hide Head, Ascii, ToBe, EmitsFields, EmitsVariants, EmitsNames, FieldDescriptors, VariantDescriptors;
    if !(s.Bool? || s.I64? || s.U64? || s.String? || s.Bytes?) { EmitParts(s, digest); }
  }

  /** The buffer under construction: the first `len` bytes of a fixed array. */
  class SchemaBytes {
    const data: array<byte>
    var len: nat

    ghost predicate Valid()
      reads this
    {
      data.Length == BUFFER && len <= BUFFER
    }

    ghost function Contents(): (c: seq<byte>)
      requires Valid()
      reads this, data
      ensures |c| == len
    {
      data[..len]
    }

    constructor ()
      ensures Valid() && fresh(data) && Contents() == []
    {
      data := new byte[BUFFER](_ => 0);
      len := 0;
    }

    method Byte(v: byte) returns (ok: bool)
      requires Valid()
      modifies this, data
      ensures Valid() && ok == (old(len) < BUFFER)
      ensures ok ==> Contents() == old(Contents()) + [v]
    {
      if len >= data.Length { return false; }
      data[len] := v;
      len := len + 1;
      return true;
    }

    method Raw(bytes: seq<byte>) returns (ok: bool)
      requires Valid()
      modifies this, data
      ensures Valid() && ok == (old(len) + |bytes| <= BUFFER)
      ensures ok ==> Contents() == old(Contents()) + bytes
    {
      var i := 0;
      while i < |bytes|
        invariant 0 <= i <= |bytes| && Valid() && len == old(len) + i
        invariant Contents() == old(Contents()) + bytes[..i]
      {
        ok := Byte(bytes[i]);
        if !ok { return; }
        assert bytes[..i + 1] == bytes[..i] + [bytes[i]];
        i := i + 1;
      }
      assert bytes[..i] == bytes;
      return true;
    }

    method Count(n: nat) returns (ok: bool)
      requires Valid()
      modifies this, data
      ensures Valid() && ok == (n <= MAX_COUNT && old(len) + 4 <= BUFFER)
      ensures ok ==> Contents() == old(Contents()) + ToBe(n, 4)
    {
      if n > MAX_COUNT { return false; }
      ok := Raw(ToBe(n, 4));
    }

    method Key(s: seq<byte>) returns (ok: bool)
      requires Valid()
      modifies this, data
      ensures Valid() && ok == (|s| <= MAX_COUNT && old(len) + |Sized(s)| <= BUFFER)
      ensures ok ==> Contents() == old(Contents()) + Sized(s)
    {
      ok := Count(|s|);
      if !ok { return; }
      ok := Raw(s);
      assert ok ==> Contents() == old(Contents()) + (ToBe(|s|, 4) + s);
    }

    method Text(s: seq<byte>) returns (ok: bool)
      requires Valid()
      modifies this, data
      ensures Valid() && ok == (|s| <= MAX_COUNT && old(len) + 1 + |Sized(s)| <= BUFFER)
      ensures ok ==> Contents() == old(Contents()) + ([5] + Sized(s))
    {
      ok := Byte(5);
      if !ok { return; }
      ok := Key(s);
      assert ok ==> Contents() == old(Contents()) + ([5] + Sized(s));
    }

    /** What opens every composite schema. */
    method Open(kind: string) returns (ok: bool)
      requires Valid() && |kind| <= MAX_COUNT
      modifies this, data
      ensures Valid() && ok == (old(len) + |Head(kind)| <= BUFFER)
      ensures ok ==> Contents() == old(Contents()) + Head(kind)
    {
      ok := Byte(7);
      if !ok { return; }
      ok := Count(2);
      if !ok { return; }
      ok := Text(Ascii(kind));
      assert ok ==> Contents() == old(Contents()) + Head(kind);
    }

    /** `schema`: the bytes of the tree encoder, whenever the assertions hold and the space suffices. */
    method Schema(s: StaticSchema, depth: nat, digest: Digest) returns (ok: bool)
      requires Valid() && forall b :: |digest(b)| == 32
      modifies this, data
      ensures Valid() && ok == (Emits(s, depth, digest) && old(len) + |Emitted(s, digest)| <= BUFFER)
      ensures ok ==> Contents() == old(Contents()) + Emitted(s, digest)
      decreases s, 0
    {
      hide Contents, Head, Ascii, ToBe, Sized, Emits, Emitted, Wire, Descriptor, Owned, OwnedFields, OwnedVariants;
      hide FieldDescriptors, VariantDescriptors, EmitsFields, EmitsVariants, EmitsNames;
      EmitCases(s, depth, digest);
      if depth > MAX_DEPTH { return false; }
      match s {
        case List(inner) =>
          ok := Open("List");
          if !ok { return; }
          ok := Schema(inner, depth + 1, digest);
        case Option(inner) =>
          ok := Open("Option");
          if !ok { return; }
          ok := Schema(inner, depth + 1, digest);
        case Struct(fields) =>
          ok := Open("Struct");
          if !ok { return; }
          ok := Fields(fields, depth, digest);
        case Variants(names) =>
          if names == [] { return false; }
          ok := Open("Variants");
          if !ok { return; }
          ok := Names(names);
        case Tagged(variants) =>
          if variants == [] { return false; }
          ok := Open("Tagged");
          if !ok { return; }
          ok := Payloads(variants, depth, digest);
        case Ref(target) =>
          ok := Open("Ref");
          if !ok { return; }
          ok := Target(target, digest);
        case _ =>
          ok := Text(Ascii(ScalarName(s)));
      }
    }

    method Target(target: StaticSchema, digest: Digest) returns (ok: bool)
      requires Valid() && forall b :: |digest(b)| == 32
      modifies this, data
      ensures Valid()
      ensures ok == (Emits(target, 0, digest) && |Emitted(target, digest)| <= BUFFER && old(len) + 37 <= BUFFER)
      ensures ok ==> Contents() == old(Contents()) + Wire(V.Bytes(digest(Emitted(target, digest))))
      decreases target, 1
    {
      hide Emits, Emitted, ToBe;
      ok := Byte(6);
      if !ok { return; }
      ok := Count(32);
      if !ok { return; }
      var bytes := new SchemaBytes();
      ok := bytes.Schema(target, 0, digest);
      if !ok { return; }
      assert bytes.Contents() == Emitted(target, digest);
      ok := Raw(digest(bytes.data[..bytes.len]));
    }

    method Names(names: seq<seq<byte>>) returns (ok: bool)
      requires Valid()
      modifies this, data
      ensures Valid()
      ensures ok == (|names| <= MAX_COUNT && EmitsNames(names, 0) && old(len) + |Wire(V.List(Texts(names)))| <= BUFFER)
      ensures ok ==> Contents() == old(Contents()) + Wire(V.List(Texts(names)))
    {
      hide WireItems, ToBe, Less, Sized, Contents;
      ghost var items := Texts(names);
      ok := Byte(7);
      if !ok { return; }
      ok := Count(|names|);
      if !ok { return; }
      ghost var all := old(Contents()) + Wire(V.List(items));
      assert items[0..] == items;
      var i := 0;
      while i < |names|
        invariant 0 <= i <= |names| && Valid() && all == Contents() + WireItems(items[i..])
        invariant EmitsNames(names, 0) == EmitsNames(names, i)
      {
        NextItem(items, i);
        Advance(all, Contents(), [], Wire(items[i]), WireItems(items[i + 1..]));
        if i > 0 {
          var order := Compare(names[i - 1], names[i]);
          if order >= 0 { return false; }
        }
        ok := Text(names[i]);
        if !ok { return; }
        i := i + 1;
      }
      LastItem(items);
      return true;
    }

    /** The name of an entry, which must follow the one before. */
    method NextName(previous: Option<seq<byte>>, name: seq<byte>) returns (ok: bool)
      requires Valid()
      modifies this, data
      ensures Valid()
      ensures ok == (
        && (previous.Some? ==> Less(previous.value, name)) && |name| <= MAX_COUNT
        && old(len) + |Sized(name)| <= BUFFER)
      ensures ok ==> Contents() == old(Contents()) + Sized(name)
    {
      hide Less, Sized;
      if previous.Some? {
        var order := Compare(previous.value, name);
        if order >= 0 { return false; }
      }
      ok := Key(name);
    }

    method Fields(fields: seq<StaticField>, depth: nat, digest: Digest) returns (ok: bool)
      requires Valid() && forall b :: |digest(b)| == 32
      modifies this, data
      ensures Valid()
      ensures ok == (
        && |fields| <= MAX_COUNT && EmitsFields(fields, 0, depth, digest)
        && old(len) + |Wire(V.Map(FieldDescriptors(OwnedFields(fields, digest))))| <= BUFFER)
      ensures ok ==> Contents() == old(Contents()) + Wire(V.Map(FieldDescriptors(OwnedFields(fields, digest))))
      decreases fields, 0
    {
      hide Contents, WireFields, ToBe, Less, FieldDescriptors, OwnedFields, Emits, Owned, Sized, Descriptor, Emitted;
      hide Held;
      ghost var items := FieldDescriptors(OwnedFields(fields, digest));
      ok := Byte(8);
      if !ok { return; }
      ok := Count(|fields|);
      if !ok { return; }
      ghost var all := old(Contents()) + Wire(V.Map(items));
      assert items[0..] == items;
      var i := 0;
      while i < |fields|
        invariant 0 <= i <= |fields| && Valid() && all == Contents() + WireFields(items[i..])
        invariant EmitsFields(fields, 0, depth, digest) == EmitsFields(fields, i, depth, digest)
      {
        NextField(items, i);
        FieldHeld(fields, i, digest);
        Advance(all, Contents(), Sized(items[i].key), Wire(items[i].value), WireFields(items[i + 1..]));
        ok := NextName(if i > 0 then Some(fields[i - 1].name) else None, fields[i].name);
        if !ok { return; }
        ok := Schema(fields[i].schema, depth + 1, digest);
        if !ok { return; }
        i := i + 1;
      }
      LastField(items);
      return true;
    }

    method Payload(payload: Option<StaticSchema>, depth: nat, digest: Digest) returns (ok: bool)
      requires Valid() && forall b :: |digest(b)| == 32
      modifies this, data
      ensures Valid()
      ensures ok == ((payload.Some? ==> Emits(payload.value, depth + 1, digest))
        && old(len) + |Held(payload, digest)| <= BUFFER)
      ensures ok ==> Contents() == old(Contents()) + Held(payload, digest)
      decreases payload, 0
    {
      hide Emits, Emitted;
      match payload {
        case Some(schema) => ok := Schema(schema, depth + 1, digest);
        case None => ok := Byte(0);
      }
    }

    method Payloads(variants: seq<StaticVariant>, depth: nat, digest: Digest) returns (ok: bool)
      requires Valid() && forall b :: |digest(b)| == 32
      modifies this, data
      ensures Valid()
      ensures ok == (
        && |variants| <= MAX_COUNT && EmitsVariants(variants, 0, depth, digest)
        && old(len) + |Wire(V.Map(VariantDescriptors(OwnedVariants(variants, digest))))| <= BUFFER)
      ensures ok ==> Contents() == old(Contents()) + Wire(V.Map(VariantDescriptors(OwnedVariants(variants, digest))))
      decreases variants, 0
    {
      hide Contents, WireFields, ToBe, Less, VariantDescriptors, OwnedVariants, Emits, Owned, Sized, Descriptor;
      hide Emitted, Held;
      ghost var items := VariantDescriptors(OwnedVariants(variants, digest));
      ok := Byte(8);
      if !ok { return; }
      ok := Count(|variants|);
      if !ok { return; }
      ghost var all := old(Contents()) + Wire(V.Map(items));
      assert items[0..] == items;
      var i := 0;
      while i < |variants|
        invariant 0 <= i <= |variants| && Valid() && all == Contents() + WireFields(items[i..])
        invariant EmitsVariants(variants, 0, depth, digest) == EmitsVariants(variants, i, depth, digest)
      {
        NextField(items, i);
        VariantHeld(variants, i, digest);
        Advance(all, Contents(), Sized(items[i].key), Wire(items[i].value), WireFields(items[i + 1..]));
        ok := NextName(if i > 0 then Some(variants[i - 1].name) else None, variants[i].name);
        if !ok { return; }
        ok := Payload(variants[i].schema, depth, digest);
        if !ok { return; }
        i := i + 1;
      }
      LastField(items);
      return true;
    }
  }

  /** The bytes of what an entry holds; a unit variant holds null. */
  function Held(payload: Option<StaticSchema>, digest: Digest): seq<byte> {
    if payload.None? then [0] else Emitted(payload.value, digest)
  }

  lemma {:induction false} FieldHeld(fields: seq<StaticField>, i: nat, digest: Digest)
    requires i < |fields|
    ensures var d := FieldDescriptors(OwnedFields(fields, digest))[i];
      d.key == fields[i].name && Wire(d.value) == Emitted(fields[i].schema, digest)
  {
  }

  lemma {:induction false} VariantHeld(variants: seq<StaticVariant>, i: nat, digest: Digest)
    requires i < |variants|
    ensures var d := VariantDescriptors(OwnedVariants(variants, digest))[i];
      d.key == variants[i].name && Wire(d.value) == Held(variants[i].schema, digest)
  {
  }

  lemma {:induction false} NextItem(items: seq<V.Value>, i: nat)
    requires i < |items|
    ensures WireItems(items[i..]) == Wire(items[i]) + WireItems(items[i + 1..])
  {
    assert items[i..][0] == items[i] && items[i..][1..] == items[i + 1..];
  }

  lemma {:induction false} LastItem(items: seq<V.Value>)
    ensures WireItems(items[|items|..]) == []
  {
  }

  /** Two more pieces of `all` are about to be written. */
  lemma {:induction false} Advance(all: seq<byte>, done: seq<byte>, a: seq<byte>, b: seq<byte>, rest: seq<byte>)
    requires all == done + (a + b + rest) || (a == [] && all == done + (b + rest))
    ensures all == ((done + a) + b) + rest && |all| >= |done| + |a| + |b|
  {
  }

  lemma {:induction false} NextField(fields: seq<V.Field>, i: nat)
    requires i < |fields|
    ensures WireFields(fields[i..]) == Sized(fields[i].key) + Wire(fields[i].value) + WireFields(fields[i + 1..])
  {
    assert fields[i..][0] == fields[i] && fields[i..][1..] == fields[i + 1..];
  }

  lemma {:induction false} LastField(fields: seq<V.Field>)
    ensures WireFields(fields[|fields|..]) == []
  {
  }

  // ----- the emitter against the tree encoder

  /** `encode`: the bytes of a constant schema, unless it does not compile. */
  method EncodeStatic(s: StaticSchema, digest: Digest) returns (r: Option<seq<byte>>)
    requires forall b :: |digest(b)| == 32
    ensures r == if Emits(s, 0, digest) && |Emitted(s, digest)| <= BUFFER then Some(Emitted(s, digest)) else None
  {
    var bytes := new SchemaBytes();
    var ok := bytes.Schema(s, 0, digest);
    if !ok { return None; }
    assert bytes.Contents() == Emitted(s, digest);
    return Some(bytes.data[..bytes.len]);
  }

  /** Every name in a constant schema is a text. */
  predicate Named(s: StaticSchema)
    decreases s
  {
    match s
    case List(inner) => Named(inner)
    case Option(inner) => Named(inner)
    case Struct(fields) => forall i | 0 <= i < |fields| :: Utf8(fields[i].name) && Named(fields[i].schema)
    case Variants(names) => forall i | 0 <= i < |names| :: Utf8(names[i])
    case Tagged(variants) =>
      forall i | 0 <= i < |variants| ::
        Utf8(variants[i].name) && (variants[i].schema.Some? ==> Named(variants[i].schema.value))
    case Ref(target) => Named(target)
    case _ => true
  }

  /** What the emitter asserts makes the owned schema well formed, within the counts of the value codec. */
  lemma {:induction false} EmittedIsFormed(s: StaticSchema, depth: nat, digest: Digest)
    requires Emits(s, depth, digest) && Named(s) && forall b :: Identity(digest(b), 32)
    ensures Formed(Owned(s, digest)) && Modest(Owned(s, digest))
    decreases s, 0
  {
    hide Utf8, Less, EmitsFields, EmitsVariants, EmitsNames, Emitted;
    match s {
      case List(inner) => EmittedIsFormed(inner, depth + 1, digest);
      case Option(inner) => EmittedIsFormed(inner, depth + 1, digest);
      case Struct(fields) =>
        FieldsAreFormed(fields, 0, depth, digest);
        StructIsFormed(fields, digest);
      case Variants(names) => NamesAreModest(names, 0);
      case Tagged(variants) =>
        VariantsAreFormed(variants, 0, depth, digest);
        TaggedIsFormed(variants, digest);
      case Ref(target) => assert Identity(digest(Emitted(target, digest)), 32);
      case _ =>
    }
  }

  ghost predicate FieldReady(fields: seq<StaticField>, k: nat, digest: Digest)
    requires k < |fields|
  {
    && (k > 0 ==> Less(fields[k - 1].name, fields[k].name)) && |fields[k].name| <= MAX_COUNT
    && Formed(Owned(fields[k].schema, digest)) && Modest(Owned(fields[k].schema, digest))
  }

  ghost predicate VariantReady(variants: seq<StaticVariant>, k: nat, digest: Digest)
    requires k < |variants|
  {
    && (k > 0 ==> Less(variants[k - 1].name, variants[k].name)) && |variants[k].name| <= MAX_COUNT
    && (variants[k].schema.Some? ==>
          Formed(Owned(variants[k].schema.value, digest)) && Modest(Owned(variants[k].schema.value, digest)))
  }

  lemma {:induction false} FieldsAreFormed(fields: seq<StaticField>, i: nat, depth: nat, digest: Digest)
    requires EmitsFields(fields, i, depth, digest) && forall b :: Identity(digest(b), 32)
    requires forall k | 0 <= k < |fields| :: Named(fields[k].schema)
    ensures forall k | i <= k < |fields| :: FieldReady(fields, k, digest)
    decreases fields, |fields| - i
  {
    hide Named, Emits, Identity, Less, Formed, Modest, Owned;
    if i < |fields| {
      EmittedIsFormed(fields[i].schema, depth + 1, digest);
      FieldsAreFormed(fields, i + 1, depth, digest);
    }
  }

  lemma {:induction false} VariantsAreFormed(variants: seq<StaticVariant>, i: nat, depth: nat, digest: Digest)
    requires EmitsVariants(variants, i, depth, digest) && forall b :: Identity(digest(b), 32)
    requires forall k | 0 <= k < |variants| :: variants[k].schema.Some? ==> Named(variants[k].schema.value)
    ensures forall k | i <= k < |variants| :: VariantReady(variants, k, digest)
    decreases variants, |variants| - i
  {
    hide Named, Emits, Identity, Less, Formed, Modest, Owned;
    if i < |variants| {
      if variants[i].schema.Some? { EmittedIsFormed(variants[i].schema.value, depth + 1, digest); }
      VariantsAreFormed(variants, i + 1, depth, digest);
    }
  }

  lemma {:induction false} NamesAreModest(names: seq<seq<byte>>, i: nat)
    requires EmitsNames(names, i)
    ensures forall k | i <= k < |names| :: |names[k]| <= MAX_COUNT
    decreases |names| - i
  {
    if i < |names| { NamesAreModest(names, i + 1); }
  }

  lemma {:induction false} StructIsFormed(fields: seq<StaticField>, digest: Digest)
    requires |fields| <= MAX_COUNT
    requires forall k | 0 <= k < |fields| :: FieldReady(fields, k, digest) && Utf8(fields[k].name)
    ensures Formed(S.Struct(OwnedFields(fields, digest))) && Modest(S.Struct(OwnedFields(fields, digest)))
  {
    hide Utf8, Less, OwnedFields;
    var r := OwnedFields(fields, digest);
    forall k | 0 <= k < |r| - 1 ensures Less(r[k].name, r[k + 1].name) { assert FieldReady(fields, k + 1, digest); }
    assert forall k | 0 <= k < |r| :: FieldReady(fields, k, digest);
  }

  lemma {:induction false} TaggedIsFormed(variants: seq<StaticVariant>, digest: Digest)
    requires |variants| <= MAX_COUNT
    requires forall k | 0 <= k < |variants| :: VariantReady(variants, k, digest) && Utf8(variants[k].name)
    ensures Formed(S.Tagged(OwnedVariants(variants, digest))) && Modest(S.Tagged(OwnedVariants(variants, digest)))
  {
    hide Utf8, Less, OwnedVariants;
    var r := OwnedVariants(variants, digest);
    forall k | 0 <= k < |r| - 1 ensures Less(r[k].name, r[k + 1].name) { assert VariantReady(variants, k + 1, digest); }
    assert forall k | 0 <= k < |r| :: VariantReady(variants, k, digest);
  }

  /** Where the emitter succeeds, the tree encoder succeeds exactly for valid schemas that are not too
      deep as values; the bytes are then the same, and `owned` reads the schema back from them. */
  lemma {:induction false} EmitterAgrees(s: StaticSchema, digest: Digest)
    requires Emits(s, 0, digest) && |Emitted(s, digest)| <= BUFFER
    requires Named(s) && forall b :: Identity(digest(b), 32)
    ensures EncodeDescriptor(Owned(s, digest)) ==
      if Validate(Owned(s, digest), 0) && Levels(Owned(s, digest)) <= MAX_DEPTH then Ok(Emitted(s, digest))
      else Err(Failure(SchemaRejected))
    ensures EncodeDescriptor(Owned(s, digest)).Ok? ==> DecodeDescriptor(Emitted(s, digest)) == Ok(Owned(s, digest))
  {
    EmittedIsFormed(s, 0, digest);
    EncodesExactly(Owned(s, digest));
    DescriptorBijection(Owned(s, digest), Emitted(s, digest));
  }
}
