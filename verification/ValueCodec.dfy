/** The canonical wire form of values: encoder, decoder, and the proof that they are inverse. */
module ValueCodec {
  import opened Wrappers
  import opened Contract
  import opened Bytes
  import opened Values

  const MAX_BYTES: nat := 0x10_0000
  const MAX_DEPTH: nat := 32
  const MAX_COUNT: nat := 65536
  const MAX_LENGTH: nat := 0xFFFF_FFFF
  const V2_PREFIX: seq<byte> := [0x50, 0x56, 2, 0]

  // ----- big-endian integers

  function Pow256(width: nat): (n: nat)
    ensures n > 0
  {
    if width == 0 then 1 else 256 * Pow256(width - 1)
  }

  /** The low `width` bytes of `n`, most significant first. */
  function ToBe(n: nat, width: nat): (bytes: seq<byte>)
    ensures |bytes| == width
  {
    if width == 0 then [] else ToBe(n / 256, width - 1) + [n % 256]
  }

  function FromBe(bytes: seq<byte>): (n: nat)
    ensures n < Pow256(|bytes|)
  {
    if bytes == [] then 0 else FromBe(bytes[..|bytes| - 1]) * 256 + bytes[|bytes| - 1]
  }

  lemma {:induction false} FromToBe(n: nat, width: nat)
    requires n < Pow256(width)
    ensures FromBe(ToBe(n, width)) == n
  {
    if width > 0 {
      FromToBe(n / 256, width - 1);
      assert ToBe(n, width)[..width - 1] == ToBe(n / 256, width - 1);
    }
  }

  lemma {:induction false} ToFromBe(bytes: seq<byte>)
    ensures ToBe(FromBe(bytes), |bytes|) == bytes
  {
    if bytes != [] {
      var front := bytes[..|bytes| - 1];
      ToFromBe(front);
      assert bytes == front + [bytes[|bytes| - 1]];
    }
  }

  lemma {:induction false} Widths()
    ensures Pow256(4) == MAX_LENGTH + 1 && Pow256(8) == MAX_U64 + 1
  {
    assert Pow256(2) == 0x1_0000;
    assert Pow256(4) == 0x1_0000_0000;
    assert Pow256(6) == 0x1_0000_0000_0000;
  }

  /** Two's complement. */
  function Unsigned(x: i64): u64 { if x < 0 then x + 0x1_0000_0000_0000_0000 else x }

  function Signed(n: u64): (x: i64)
    ensures Unsigned(x) == n
  {
    if n > 0x7FFF_FFFF_FFFF_FFFF then n - 0x1_0000_0000_0000_0000 else n
  }

  // ----- what a value may be

  /** A value that exists: texts are UTF-8, references are valid, map keys ascend strictly. */
  predicate Portable(v: Value) {
    match v
    case Ref(location) => ValidLocation(location)
    case String(text) => Utf8(text)
    case List(items) => forall i | 0 <= i < |items| :: Portable(items[i])
    case Map(fields) =>
      && (forall i | 0 <= i < |fields| :: Utf8(fields[i].key) && Portable(fields[i].value))
      && (forall i | 0 <= i < |fields| - 1 :: Less(fields[i].key, fields[i + 1].key))
    case _ => true
  }

  /** The structural limits of the encoder. */
  predicate Fits(v: Value, depth: nat)
    decreases v
  {
    && depth <= MAX_DEPTH
    && match v
       case String(text) => |text| <= MAX_LENGTH
       case Bytes(data) => |data| <= MAX_LENGTH
       case List(items) => |items| <= MAX_COUNT && forall i | 0 <= i < |items| :: Fits(items[i], depth + 1)
       case Map(fields) =>
         && |fields| <= MAX_COUNT
         && forall i | 0 <= i < |fields| :: |fields[i].key| <= MAX_LENGTH && Fits(fields[i].value, depth + 1)
       case _ => true
  }

  // ----- the wire form

  function Sized(data: seq<byte>): (bytes: seq<byte>) { ToBe(|data|, 4) + data }

  function Wire(v: Value): (bytes: seq<byte>)
    ensures |bytes| > 0
    decreases v
  {
    match v
    case Null => [0]
    case Ref(location) => [9] + location.generation + location.owner + location.cell + location.schema
    case Bool(flag) => [if flag then 2 else 1]
    case I64(signed) => [3] + ToBe(Unsigned(signed), 8)
    case U64(unsigned) => [4] + ToBe(unsigned, 8)
    case String(text) => [5] + Sized(text)
    case Bytes(data) => [6] + Sized(data)
    case List(items) => [7] + ToBe(|items|, 4) + WireItems(items)
    case Map(fields) => [8] + ToBe(|fields|, 4) + WireFields(fields)
  }

  function WireItems(items: seq<Value>): seq<byte>
    decreases items
  {
    if items == [] then [] else Wire(items[0]) + WireItems(items[1..])
  }

  function WireFields(fields: seq<Field>): seq<byte>
    decreases fields
  {
    if fields == [] then [] else Sized(fields[0].key) + Wire(fields[0].value) + WireFields(fields[1..])
  }

  // ----- reading it back

  datatype Parsed<T> = Parsed(value: T, rest: seq<byte>)

  function ParseSized(bytes: seq<byte>): (r: Option<Parsed<seq<byte>>>)
    ensures r.Some? ==> |r.value.rest| + |r.value.value| + 4 == |bytes|
  {
    if |bytes| < 4 then None
    else
      var n := FromBe(bytes[..4]);
      if |bytes| - 4 < n then None else Some(Parsed(bytes[4..4 + n], bytes[4 + n..]))
  }

  function ParseText(bytes: seq<byte>): (r: Option<Parsed<seq<byte>>>)
    ensures r.Some? ==> |r.value.rest| < |bytes|
  {
    var text := ParseSized(bytes);
    if text.Some? && Utf8(text.value.value) then text else None
  }

  function Parse(bytes: seq<byte>, depth: nat): (r: Option<Parsed<Value>>)
    ensures r.Some? ==> |r.value.rest| < |bytes|
    decreases |bytes|, 0
  {
    if depth > MAX_DEPTH || bytes == [] then None
    else
      var body := bytes[1..];
      match bytes[0]
      case 0 => Some(Parsed(Null, body))
      case 1 => Some(Parsed(Bool(false), body))
      case 2 => Some(Parsed(Bool(true), body))
      case 3 =>
        Widths();
        if |body| < 8 then None else Some(Parsed(I64(Signed(FromBe(body[..8]))), body[8..]))
      case 4 =>
        Widths();
        if |body| < 8 then None else Some(Parsed(U64(FromBe(body[..8])), body[8..]))
      case 5 =>
        var text := ParseText(body);
        if text.None? then None else Some(Parsed(String(text.value.value), text.value.rest))
      case 6 =>
        var data := ParseSized(body);
        if data.None? then None else Some(Parsed(Bytes(data.value.value), data.value.rest))
      case 7 =>
        if |body| < 4 || FromBe(body[..4]) > MAX_COUNT then None
        else
          var items := ParseItems(FromBe(body[..4]), body[4..], depth + 1);
          if items.None? then None else Some(Parsed(List(items.value.value), items.value.rest))
      case 8 =>
        if |body| < 4 || FromBe(body[..4]) > MAX_COUNT then None
        else
          var fields := ParseFields(FromBe(body[..4]), None, body[4..], depth + 1);
          if fields.None? then None else Some(Parsed(Map(fields.value.value), fields.value.rest))
      case 9 =>
        if |body| < 112 then None
        else
          var location := Location(body[..32], body[32..64], body[64..80], body[80..112]);
          if ValidLocation(location) then Some(Parsed(Ref(location), body[112..])) else None
      case _ => None
  }

  function ParseItems(n: nat, bytes: seq<byte>, depth: nat): (r: Option<Parsed<seq<Value>>>)
    ensures r.Some? ==> |r.value.rest| <= |bytes|
    decreases |bytes|, 1
  {
    if n == 0 then Some(Parsed([], bytes))
    else
      var first := Parse(bytes, depth);
      if first.None? then None
      else
        var others := ParseItems(n - 1, first.value.rest, depth);
        if others.None? then None
        else Some(Parsed([first.value.value] + others.value.value, others.value.rest))
  }

  /** The next `n` entries of a map, whose keys must ascend from `previous`. */
  function ParseFields(n: nat, previous: Option<seq<byte>>, bytes: seq<byte>, depth: nat)
    : (r: Option<Parsed<seq<Field>>>)
    ensures r.Some? ==> |r.value.rest| <= |bytes|
    decreases |bytes|, 1
  {
    if n == 0 then Some(Parsed([], bytes))
    else
      var key := ParseText(bytes);
      if key.None? || (previous.Some? && !Less(previous.value, key.value.value)) then None
      else
        var value := Parse(key.value.rest, depth);
        if value.None? then None
        else
          var others := ParseFields(n - 1, Some(key.value.value), value.value.rest, depth);
          if others.None? then None
          else Some(Parsed([Field(key.value.value, value.value.value)] + others.value.value, others.value.rest))
  }

  // ----- the two directions

  lemma {:induction false} SizedParses(data: seq<byte>, rest: seq<byte>)
    requires |data| <= MAX_LENGTH
    ensures ParseSized(Sized(data) + rest) == Some(Parsed(data, rest))
  {
    Widths();
    FromToBe(|data|, 4);
    var bytes := Sized(data) + rest;
    assert bytes[..4] == ToBe(|data|, 4);
    assert bytes[4..4 + |data|] == data && bytes[4 + |data|..] == rest;
  }

  lemma {:induction false} ParsedWasSized(bytes: seq<byte>)
    requires ParseSized(bytes).Some?
    ensures var p := ParseSized(bytes).value; bytes == Sized(p.value) + p.rest && |p.value| <= MAX_LENGTH
  {
    Widths();
    ToFromBe(bytes[..4]);
    var p := ParseSized(bytes).value;
    assert bytes == bytes[..4] + p.value + p.rest;
  }

  lemma {:induction false} ScalarParses(v: Value, rest: seq<byte>, depth: nat)
    requires Portable(v) && Fits(v, depth) && !v.List? && !v.Map?
    ensures Parse(Wire(v) + rest, depth) == Some(Parsed(v, rest))
  {
    hide ParseItems, ParseFields, WireItems, WireFields, FromBe, ToBe, Utf8, Sized, ParseSized;
    var bytes := Wire(v) + rest;
    var body := bytes[1..];
    Widths();
    match v {
      case Null | Bool(_) =>
        assert body == rest;
      case Ref(l) =>
        assert body == l.generation + l.owner + l.cell + l.schema + rest;
        assert body[..32] == l.generation && body[32..64] == l.owner && body[64..80] == l.cell;
        assert body[80..112] == l.schema && body[112..] == rest;
      case I64(x) =>
        FromToBe(Unsigned(x), 8);
        assert body[..8] == ToBe(Unsigned(x), 8) && body[8..] == rest;
      case U64(x) =>
        FromToBe(x, 8);
        assert body[..8] == ToBe(x, 8) && body[8..] == rest;
      case String(text) =>
        SizedParses(text, rest);
        assert body == Sized(text) + rest;
      case Bytes(data) =>
        SizedParses(data, rest);
        assert body == Sized(data) + rest;
    }
  }

  lemma {:induction false} ListParses(items: seq<Value>, rest: seq<byte>, depth: nat)
    requires |items| <= MAX_COUNT && depth <= MAX_DEPTH
    requires ParseItems(|items|, WireItems(items) + rest, depth + 1) == Some(Parsed(items, rest))
    ensures Parse(Wire(List(items)) + rest, depth) == Some(Parsed(List(items), rest))
  {
    hide ParseItems, WireItems, FromBe, ToBe;
    var body := (Wire(List(items)) + rest)[1..];
    Widths();
    FromToBe(|items|, 4);
    assert body[..4] == ToBe(|items|, 4) && body[4..] == WireItems(items) + rest;
  }

  lemma {:induction false} MapParses(fields: seq<Field>, rest: seq<byte>, depth: nat)
    requires |fields| <= MAX_COUNT && depth <= MAX_DEPTH
    requires ParseFields(|fields|, None, WireFields(fields) + rest, depth + 1) == Some(Parsed(fields, rest))
    ensures Parse(Wire(Map(fields)) + rest, depth) == Some(Parsed(Map(fields), rest))
  {
    hide ParseFields, WireFields, FromBe, ToBe;
    var body := (Wire(Map(fields)) + rest)[1..];
    Widths();
    FromToBe(|fields|, 4);
    assert body[..4] == ToBe(|fields|, 4) && body[4..] == WireFields(fields) + rest;
  }

  /** Whatever follows it, the wire form of a value reads back as that value. */
  lemma {:induction false} WireParses(v: Value, rest: seq<byte>, depth: nat)
    requires Portable(v) && Fits(v, depth)
    ensures Parse(Wire(v) + rest, depth) == Some(Parsed(v, rest))
    decreases v, 0
  {
    hide Parse, Wire;
    match v {
      case List(items) =>
        ItemsParse(items, rest, depth + 1);
        ListParses(items, rest, depth);
      case Map(fields) =>
        FieldsParse(None, fields, rest, depth + 1);
        MapParses(fields, rest, depth);
      case _ =>
        ScalarParses(v, rest, depth);
    }
  }

  lemma {:induction false} ItemsParse(items: seq<Value>, rest: seq<byte>, depth: nat)
    requires forall i | 0 <= i < |items| :: Portable(items[i]) && Fits(items[i], depth)
    ensures ParseItems(|items|, WireItems(items) + rest, depth) == Some(Parsed(items, rest))
    decreases items, 1
  {
    hide Parse, Wire, Portable, Fits;
    if items == [] {
      assert WireItems(items) + rest == rest;
    } else {
      var others := WireItems(items[1..]) + rest;
      WireParses(items[0], others, depth);
      ItemsParse(items[1..], rest, depth);
      assert WireItems(items) + rest == Wire(items[0]) + others;
      assert [items[0]] + items[1..] == items;
    }
  }

  lemma {:induction false} FieldsParse(previous: Option<seq<byte>>, fields: seq<Field>, rest: seq<byte>, depth: nat)
    requires forall i | 0 <= i < |fields| ::
      Utf8(fields[i].key) && |fields[i].key| <= MAX_LENGTH && Portable(fields[i].value) && Fits(fields[i].value, depth)
    requires forall i | 0 <= i < |fields| - 1 :: Less(fields[i].key, fields[i + 1].key)
    requires previous.Some? && fields != [] ==> Less(previous.value, fields[0].key)
    ensures ParseFields(|fields|, previous, WireFields(fields) + rest, depth) == Some(Parsed(fields, rest))
    decreases fields, 1
  {
    hide Parse, Wire, Portable, Fits, Sized, ParseSized, Utf8, Less;
    if fields == [] {
      assert WireFields(fields) + rest == rest;
    } else {
      var f, tail := fields[0], fields[1..];
      var others := WireFields(tail) + rest;
      SizedParses(f.key, Wire(f.value) + others);
      WireParses(f.value, others, depth);
      forall i | 0 <= i < |tail| - 1 ensures Less(tail[i].key, tail[i + 1].key) {
        assert Less(fields[i + 1].key, fields[i + 1 + 1].key);
      }
      if tail != [] { assert Less(fields[0].key, fields[0 + 1].key); }
      FieldsParse(Some(f.key), tail, rest, depth);
      assert WireFields(fields) + rest == Sized(f.key) + (Wire(f.value) + others);
      assert [f] + tail == fields;
    }
  }

  lemma {:induction false} ParsedScalarIsWire(bytes: seq<byte>, depth: nat)
    requires Parse(bytes, depth).Some?
    requires !Parse(bytes, depth).value.value.List? && !Parse(bytes, depth).value.value.Map?
    ensures var p := Parse(bytes, depth).value;
      Portable(p.value) && Fits(p.value, depth) && bytes == Wire(p.value) + p.rest
  {
    hide ParseItems, ParseFields, WireItems, WireFields, FromBe, ToBe, Utf8, ParseSized, Sized;
    var p := Parse(bytes, depth).value;
    var body := bytes[1..];
    assert bytes == [bytes[0]] + body;
    Widths();
    match p.value {
      case Null | Bool(_) =>
      case Ref(l) =>
        assert body == l.generation + l.owner + l.cell + l.schema + p.rest;
      case I64(_) | U64(_) =>
        ToFromBe(body[..8]);
        assert body == body[..8] + p.rest;
      case String(_) | Bytes(_) =>
        ParsedWasSized(body);
    }
  }

  lemma {:induction false} ParsedListIsWire(bytes: seq<byte>, depth: nat) returns (n: nat)
    requires Parse(bytes, depth).Some? && Parse(bytes, depth).value.value.List?
    ensures |bytes| >= 5 && n <= MAX_COUNT && depth <= MAX_DEPTH
    ensures var p := Parse(bytes, depth).value;
      ParseItems(n, bytes[5..], depth + 1) == Some(Parsed(p.value.items, p.rest))
    ensures bytes[..5] == [7] + ToBe(n, 4)
  {
    hide ParseItems, ParseFields, FromBe, ToBe;
    var body := bytes[1..];
    n := FromBe(body[..4]);
    ToFromBe(body[..4]);
    assert body[4..] == bytes[5..] && bytes[..5] == [bytes[0]] + body[..4];
  }

  lemma {:induction false} ParsedMapIsWire(bytes: seq<byte>, depth: nat) returns (n: nat)
    requires Parse(bytes, depth).Some? && Parse(bytes, depth).value.value.Map?
    ensures |bytes| >= 5 && n <= MAX_COUNT && depth <= MAX_DEPTH
    ensures var p := Parse(bytes, depth).value;
      ParseFields(n, None, bytes[5..], depth + 1) == Some(Parsed(p.value.fields, p.rest))
    ensures bytes[..5] == [8] + ToBe(n, 4)
  {
    hide ParseItems, ParseFields, FromBe, ToBe;
    var body := bytes[1..];
    n := FromBe(body[..4]);
    ToFromBe(body[..4]);
    assert body[4..] == bytes[5..] && bytes[..5] == [bytes[0]] + body[..4];
  }

  /** Only the wire form of a value reads back as that value. */
  lemma {:induction false} ParsedIsWire(bytes: seq<byte>, depth: nat)
    requires Parse(bytes, depth).Some?
    ensures var p := Parse(bytes, depth).value;
      Portable(p.value) && Fits(p.value, depth) && bytes == Wire(p.value) + p.rest
    decreases |bytes|, 0
  {
    hide Parse, ParseItems, ParseFields, WireItems, WireFields, ToBe, Less, Utf8;
    var p := Parse(bytes, depth).value;
    match p.value {
      case List(items) =>
        var n := ParsedListIsWire(bytes, depth);
        ParsedItemsAreWire(n, bytes[5..], depth + 1);
        assert bytes == bytes[..5] + (WireItems(items) + p.rest);
      case Map(fields) =>
        var n := ParsedMapIsWire(bytes, depth);
        ParsedFieldsAreWire(n, None, bytes[5..], depth + 1);
        assert bytes == bytes[..5] + (WireFields(fields) + p.rest);
      case _ =>
        ParsedScalarIsWire(bytes, depth);
    }
  }

  lemma {:induction false} ParsedItemsAreWire(n: nat, bytes: seq<byte>, depth: nat)
    requires ParseItems(n, bytes, depth).Some?
    ensures var p := ParseItems(n, bytes, depth).value;
      && |p.value| == n && bytes == WireItems(p.value) + p.rest
      && forall i | 0 <= i < n :: Portable(p.value[i]) && Fits(p.value[i], depth)
    decreases |bytes|, 1
  {
    hide Parse, Wire, Portable, Fits;
    var p := ParseItems(n, bytes, depth).value;
    if n > 0 {
      var first := Parse(bytes, depth).value;
      ParsedIsWire(bytes, depth);
      ParsedItemsAreWire(n - 1, first.rest, depth);
      var others := ParseItems(n - 1, first.rest, depth).value;
      assert p.value[1..] == others.value && p.value[0] == first.value;
    }
  }

  lemma {:induction false} ParsedFieldsAreWire(n: nat, previous: Option<seq<byte>>, bytes: seq<byte>, depth: nat)
    requires ParseFields(n, previous, bytes, depth).Some?
    ensures var p := ParseFields(n, previous, bytes, depth).value; var fields := p.value;
      && |fields| == n && bytes == WireFields(fields) + p.rest
      && (previous.Some? && n > 0 ==> Less(previous.value, fields[0].key))
      && (forall i | 0 <= i < n ::
            Utf8(fields[i].key) && |fields[i].key| <= MAX_LENGTH && Portable(fields[i].value)
              && Fits(fields[i].value, depth))
      && (forall i | 0 <= i < n - 1 :: Less(fields[i].key, fields[i + 1].key))
    decreases |bytes|, 1
  {
    hide Parse, Wire, Portable, Fits, Sized, ParseSized, Utf8, Less;
    var p := ParseFields(n, previous, bytes, depth).value;
    if n > 0 {
      var key := ParseText(bytes).value;
      ParsedWasSized(bytes);
      var value := Parse(key.rest, depth).value;
      ParsedIsWire(key.rest, depth);
      ParsedFieldsAreWire(n - 1, Some(key.value), value.rest, depth);
      var others := ParseFields(n - 1, Some(key.value), value.rest, depth).value;
      assert p.value[0] == Field(key.value, value.value) && p.value[1..] == others.value;
      forall i | 0 <= i < n - 1 ensures Less(p.value[i].key, p.value[i + 1].key) {
        if i > 0 { assert Less(others.value[i - 1].key, others.value[i - 1 + 1].key); }
      }
    }
  }

  // ----- encode and decode

  /** `encode_schema`: the wire form without a prefix. */
  function EncodeSchema(v: Value): Result<seq<byte>, Failure> {
    if Fits(v, 0) && |Wire(v)| <= MAX_BYTES then Ok(Wire(v)) else Err(Failure(SchemaRejected))
  }

  function DecodeSchema(bytes: seq<byte>): Result<Value, Failure> {
    if |bytes| > MAX_BYTES then Err(Failure(SchemaRejected))
    else
      var parsed := Parse(bytes, 0);
      if parsed.Some? && parsed.value.rest == [] then Ok(parsed.value.value) else Err(Failure(SchemaRejected))
  }

  function Encode(v: Value): Result<seq<byte>, Failure> {
    if EncodeSchema(v).Ok? && |V2_PREFIX| + |Wire(v)| <= MAX_BYTES then Ok(V2_PREFIX + Wire(v))
    else Err(Failure(SchemaRejected))
  }

  function Decode(bytes: seq<byte>): Result<Value, Failure> {
    if |bytes| > MAX_BYTES || !(V2_PREFIX <= bytes) then Err(Failure(SchemaRejected))
    else DecodeSchema(bytes[4..])
  }

  /** Encoding and decoding are inverse: a value and its bytes determine each other. */
  lemma {:induction false} SchemaBijection(v: Value, bytes: seq<byte>)
    ensures Portable(v) && EncodeSchema(v) == Ok(bytes) <==> DecodeSchema(bytes) == Ok(v)
  {
    if Portable(v) && EncodeSchema(v) == Ok(bytes) {
      WireParses(v, [], 0);
      assert Wire(v) + [] == bytes;
    }
    if DecodeSchema(bytes) == Ok(v) {
      ParsedIsWire(bytes, 0);
      assert Wire(v) == Wire(v) + [] == bytes;
    }
  }

  lemma {:induction false} Bijection(v: Value, bytes: seq<byte>)
    ensures Portable(v) && Encode(v) == Ok(bytes) <==> Decode(bytes) == Ok(v)
  {
    if Portable(v) && Encode(v) == Ok(bytes) {
      SchemaBijection(v, Wire(v));
      assert bytes[4..] == Wire(v);
    }
    if Decode(bytes) == Ok(v) {
      SchemaBijection(v, bytes[4..]);
      assert bytes == V2_PREFIX + bytes[4..];
    }
  }

  /** No wire form is a proper prefix of another. */
  lemma {:induction false} PrefixFree(v: Value, w: Value)
    requires EncodeSchema(v).Ok? && EncodeSchema(w).Ok? && Portable(v) && Portable(w)
    requires EncodeSchema(v).value <= EncodeSchema(w).value
    ensures v == w
  {
    var rest := Wire(w)[|Wire(v)|..];
    assert Wire(v) + rest == Wire(w) == Wire(w) + [];
    WireParses(v, rest, 0);
    WireParses(w, [], 0);
  }

  // ----- the encoder, which appends to a buffer

  lemma {:induction false} ItemsAppend(items: seq<Value>, k: nat)
    requires k < |items|
    ensures WireItems(items[..k + 1]) == WireItems(items[..k]) + Wire(items[k])
    decreases k
  {
    if k == 0 {
      assert items[..1][1..] == [];
    } else {
      ItemsAppend(items[1..], k - 1);
      assert items[..k + 1][1..] == items[1..][..k] && items[..k][1..] == items[1..][..k - 1];
    }
  }

  lemma {:induction false} FieldsAppend(fields: seq<Field>, k: nat)
    requires k < |fields|
    ensures WireFields(fields[..k + 1])
         == WireFields(fields[..k]) + Sized(fields[k].key) + Wire(fields[k].value)
    decreases k
  {
    if k == 0 {
      assert fields[..1][1..] == [];
    } else {
      FieldsAppend(fields[1..], k - 1);
      assert fields[..k + 1][1..] == fields[1..][..k] && fields[..k][1..] == fields[1..][..k - 1];
    }
  }

  lemma {:induction false} ItemsGrow(items: seq<Value>, k: nat)
    requires k <= |items|
    ensures |WireItems(items[..k])| <= |WireItems(items)|
    decreases |items| - k
  {
    if k < |items| { ItemsAppend(items, k); ItemsGrow(items, k + 1); } else { assert items[..k] == items; }
  }

  lemma {:induction false} FieldsGrow(fields: seq<Field>, k: nat)
    requires k <= |fields|
    ensures |WireFields(fields[..k])| <= |WireFields(fields)|
    decreases |fields| - k
  {
    if k < |fields| { FieldsAppend(fields, k); FieldsGrow(fields, k + 1); } else { assert fields[..k] == fields; }
  }

  lemma {:induction false} EmptyItems(items: seq<Value>)
    ensures WireItems(items[..0]) == []
  {
  }

  lemma {:induction false} EmptyFields(fields: seq<Field>)
    ensures WireFields(fields[..0]) == []
  {
  }

  /** What is written of a value without parts, piece by piece. */
  lemma {:induction false} WireOfScalar(v: Value)
    requires !v.List? && !v.Map?
    ensures v.Null? ==> Wire(v) == [0]
    ensures v.Ref? ==> Wire(v) == [9] + v.location.generation + v.location.owner + v.location.cell + v.location.schema
    ensures v.Bool? ==> Wire(v) == [if v.flag then 2 else 1]
    ensures v.I64? ==> Wire(v) == [3] + ToBe(Unsigned(v.signed), 8)
    ensures v.U64? ==> Wire(v) == [4] + ToBe(v.unsigned, 8)
    ensures v.String? ==> Wire(v) == [5] + ToBe(|v.text|, 4) + v.text
    ensures v.Bytes? ==> Wire(v) == [6] + ToBe(|v.data|, 4) + v.data
    ensures Fits(v, 0) <==> (v.String? ==> |v.text| <= MAX_LENGTH) && (v.Bytes? ==> |v.data| <= MAX_LENGTH)
  {
    hide ToBe;
    if v.String? { Regroup([], [5], ToBe(|v.text|, 4), v.text, [], []); }
    if v.Bytes? { Regroup([], [6], ToBe(|v.data|, 4), v.data, [], []); }
  }

  lemma Regroup(out: seq<byte>, a: seq<byte>, b: seq<byte>, c: seq<byte>, d: seq<byte>, e: seq<byte>)
    ensures out + a + b + c + d + e == out + (a + b + c + d + e)
    ensures out + a + b + c == out + (a + b + c)
    ensures out + a + b == out + (a + b)
    ensures a + (b + c) == a + b + c
  {
  }

  class Writer {
    var out: seq<byte>

    constructor ()
      ensures out == []
    {
      out := [];
    }

    method Len(n: nat) returns (r: Result<(), Failure>)
      modifies this
      ensures r == if n <= MAX_LENGTH then Ok(()) else Err(Failure(SchemaRejected))
      ensures out == if r.Ok? then old(out) + ToBe(n, 4) else old(out)
    {
      if n > MAX_LENGTH { return Err(Failure(SchemaRejected)); }
      out := out + ToBe(n, 4);
      return Ok(());
    }

    /** `put`: succeeds exactly when the structural limits and the byte limit are met. */
    method Put(v: Value, depth: nat) returns (r: Result<(), Failure>)
      modifies this
      ensures r == if Fits(v, depth) && |old(out)| + |Wire(v)| <= MAX_BYTES then Ok(())
        else Err(Failure(SchemaRejected))
      ensures r.Ok? ==> out == old(out) + Wire(v)
      decreases v
    {
      hide WireItems, WireFields, ToBe;
      if depth > MAX_DEPTH { return Err(Failure(SchemaRejected)); }
      match v {
        case List(items) =>
          if |items| > MAX_COUNT { return Err(Failure(SchemaRejected)); }
          r := PutItems(items, depth);
          if r.Err? { return; }
        case Map(fields) =>
          if |fields| > MAX_COUNT { return Err(Failure(SchemaRejected)); }
          r := PutFields(fields, depth);
          if r.Err? { return; }
        case _ =>
          r := PutScalar(v);
          if r.Err? { return; }
      }
      assert out == old(out) + Wire(v);
      if |out| > MAX_BYTES { return Err(Failure(SchemaRejected)); }
      return Ok(());
    }

    /** A value without parts. */
    method PutScalar(v: Value) returns (r: Result<(), Failure>)
      requires !v.List? && !v.Map?
      modifies this
      ensures r == if Fits(v, 0) then Ok(()) else Err(Failure(SchemaRejected))
      ensures r.Ok? ==> out == old(out) + Wire(v)
    {
      hide ToBe, Wire, Fits;
      WireOfScalar(v);
      match v {
        case Null => out := out + [0];
        case Ref(l) =>
          out := out + [9];
          out := out + l.generation;
          out := out + l.owner;
          out := out + l.cell;
          out := out + l.schema;
          Regroup(old(out), [9], l.generation, l.owner, l.cell, l.schema);
        case Bool(flag) => out := out + [if flag then 2 else 1];
        case I64(x) =>
          out := out + [3];
          out := out + ToBe(Unsigned(x), 8);
          Regroup(old(out), [3], ToBe(Unsigned(x), 8), [], [], []);
        case U64(x) =>
          out := out + [4];
          out := out + ToBe(x, 8);
          Regroup(old(out), [4], ToBe(x, 8), [], [], []);
        case String(text) =>
          out := out + [5];
          r := Len(|text|);
          if r.Err? { return; }
          out := out + text;
          Regroup(old(out), [5], ToBe(|text|, 4), text, [], []);
        case Bytes(data) =>
          out := out + [6];
          r := Len(|data|);
          if r.Err? { return; }
          out := out + data;
          Regroup(old(out), [6], ToBe(|data|, 4), data, [], []);
      }
      return Ok(());
    }

    method PutItems(items: seq<Value>, depth: nat) returns (r: Result<(), Failure>)
      requires |items| <= MAX_COUNT
      modifies this
      ensures r.Ok? ==> out == old(out) + [7] + ToBe(|items|, 4) + WireItems(items)
      ensures r.Ok? ==> forall i | 0 <= i < |items| :: Fits(items[i], depth + 1)
      ensures r.Err? ==> r == Err(Failure(SchemaRejected))
      ensures r.Err? ==>
        || (exists i | 0 <= i < |items| :: !Fits(items[i], depth + 1))
        || |old(out)| + 5 + |WireItems(items)| > MAX_BYTES
      decreases items
    {
      hide WireItems, Wire, ToBe, Fits;
      assert WireItems(items[..0]) == [] by { EmptyItems(items); }
      out := out + [7];
      var sized := Len(|items|);
      var i := 0;
      while i < |items|
        invariant 0 <= i <= |items|
        invariant out == old(out) + [7] + ToBe(|items|, 4) + WireItems(items[..i])
        invariant forall k | 0 <= k < i :: Fits(items[k], depth + 1)
      {
        ItemsAppend(items, i);
        ItemsGrow(items, i + 1);
        r := Put(items[i], depth + 1);
        if r.Err? { return; }
        i := i + 1;
      }
      assert items[..i] == items;
      return Ok(());
    }

    method PutFields(fields: seq<Field>, depth: nat) returns (r: Result<(), Failure>)
      requires |fields| <= MAX_COUNT
      modifies this
      ensures r.Ok? ==> out == old(out) + [8] + ToBe(|fields|, 4) + WireFields(fields)
      ensures r.Ok? ==> forall i | 0 <= i < |fields| ::
        |fields[i].key| <= MAX_LENGTH && Fits(fields[i].value, depth + 1)
      ensures r.Err? ==> r == Err(Failure(SchemaRejected))
      ensures r.Err? ==>
        || (exists i | 0 <= i < |fields| :: |fields[i].key| > MAX_LENGTH || !Fits(fields[i].value, depth + 1))
        || |old(out)| + 5 + |WireFields(fields)| > MAX_BYTES
      decreases fields
    {
      hide WireFields, Wire, ToBe, Fits;
      assert WireFields(fields[..0]) == [] by { EmptyFields(fields); }
      out := out + [8];
      var sized := Len(|fields|);
      var i := 0;
      while i < |fields|
        invariant 0 <= i <= |fields|
        invariant out == old(out) + [8] + ToBe(|fields|, 4) + WireFields(fields[..i])
        invariant forall k | 0 <= k < i :: |fields[k].key| <= MAX_LENGTH && Fits(fields[k].value, depth + 1)
      {
        FieldsAppend(fields, i);
        FieldsGrow(fields, i + 1);
        r := Len(|fields[i].key|);
        if r.Err? { return; }
        out := out + fields[i].key;
        r := Put(fields[i].value, depth + 1);
        if r.Err? { return; }
        i := i + 1;
      }
      assert fields[..i] == fields;
      return Ok(());
    }
  }

  /** `Value::encode`. */
  method EncodeValue(v: Value) returns (r: Result<seq<byte>, Failure>)
    ensures r == Encode(v)
  {
    var writer := new Writer();
    var put := writer.Put(v, 0);
    if put.Err? { return Err(put.error); }
    assert writer.out == Wire(v);
    var bytes := V2_PREFIX + writer.out;
    if |bytes| > MAX_BYTES { return Err(Failure(SchemaRejected)); }
    return Ok(bytes);
  }

  // ----- the decoder, which advances a cursor

  class Reader {
    const bytes: seq<byte>
    var at: nat

    ghost predicate Valid()
      reads this
    {
      at <= |bytes|
    }

    constructor (bytes: seq<byte>)
      ensures Valid() && this.bytes == bytes && at == 0
    {
      this.bytes := bytes;
      at := 0;
    }

    method Take(n: nat) returns (r: Result<seq<byte>, Failure>)
      requires Valid()
      modifies this
      ensures Valid()
      ensures r.Ok? <==> n <= |bytes| - old(at)
      ensures r.Ok? ==> r.value == bytes[old(at)..][..n] && bytes[at..] == bytes[old(at)..][n..] && at == old(at) + n
      ensures r.Err? ==> r == Err(Failure(SchemaRejected)) && at == old(at)
    {
      var end := at + n;
      if end > |bytes| { return Err(Failure(SchemaRejected)); }
      r := Ok(bytes[at..end]);
      at := end;
    }

    method Length() returns (r: Result<nat, Failure>)
      requires Valid()
      modifies this
      ensures Valid()
      ensures r.Ok? <==> 4 <= |bytes| - old(at)
      ensures r.Ok? ==>
        r.value == FromBe(bytes[old(at)..][..4]) && bytes[at..] == bytes[old(at)..][4..] && at == old(at) + 4
      ensures r.Err? ==> r == Err(Failure(SchemaRejected)) && at == old(at)
    {
      var field := Take(4);
      return match field case Ok(b) => Ok(FromBe(b)) case Err(e) => Err(e);
    }

    method Blob() returns (r: Result<seq<byte>, Failure>)
      requires Valid()
      modifies this
      ensures Valid() && at >= old(at)
      ensures match ParseSized(old(bytes[at..]))
              case Some(p) => r == Ok(p.value) && bytes[at..] == p.rest
              case None => r == Err(Failure(SchemaRejected))
    {
      ghost var all := bytes[at..];
      var n := Length();
      if n.Err? { return Err(n.error); }
      r := Take(n.value);
      assert r.Ok? ==> r.value == all[4..4 + n.value] && bytes[at..] == all[4 + n.value..];
    }

    method Text() returns (r: Result<seq<byte>, Failure>)
      requires Valid()
      modifies this
      ensures Valid() && at >= old(at)
      ensures match ParseText(old(bytes[at..]))
              case Some(p) => r == Ok(p.value) && bytes[at..] == p.rest
              case None => r == Err(Failure(SchemaRejected))
    {
      var text := Blob();
      if text.Err? { return text; }
      if !Utf8(text.value) { return Err(Failure(SchemaRejected)); }
      return text;
    }

    method Identities() returns (r: Result<Location, Failure>)
      requires Valid()
      modifies this
      ensures Valid() && at >= old(at)
      ensures var body := old(bytes[at..]);
        if |body| >= 112 && ValidLocation(Location(body[..32], body[32..64], body[64..80], body[80..112]))
        then r == Ok(Location(body[..32], body[32..64], body[64..80], body[80..112])) && bytes[at..] == body[112..]
        else r == Err(Failure(SchemaRejected))
    {
      ghost var body := bytes[at..];
      var generation := Take(32);
      if generation.Err? { return Err(generation.error); }
      if !Identity(generation.value, 32) { return Err(Failure(SchemaRejected)); }
      var owner := Take(32);
      if owner.Err? { return Err(owner.error); }
      assert owner.value == body[32..64];
      if !Identity(owner.value, 32) { return Err(Failure(SchemaRejected)); }
      var cell := Take(16);
      if cell.Err? { return Err(cell.error); }
      assert cell.value == body[64..80];
      if !Identity(cell.value, 16) { return Err(Failure(SchemaRejected)); }
      var schema := Take(32);
      if schema.Err? { return Err(schema.error); }
      assert schema.value == body[80..112] && bytes[at..] == body[112..];
      if !Identity(schema.value, 32) { return Err(Failure(SchemaRejected)); }
      return Ok(Location(generation.value, owner.value, cell.value, schema.value));
    }

    method ReadValue(depth: nat) returns (r: Result<Value, Failure>)
      requires Valid()
      modifies this
      ensures Valid() && at >= old(at)
      ensures match Parse(old(bytes[at..]), depth)
              case Some(p) => r == Ok(p.value) && bytes[at..] == p.rest && at > old(at)
              case None => r == Err(Failure(SchemaRejected))
      decreases |bytes| - at, 0
    {
      if depth > MAX_DEPTH { return Err(Failure(SchemaRejected)); }
      ghost var all := bytes[at..];
      var tag := Take(1);
      if tag.Err? { return Err(tag.error); }
      assert tag.value == [all[0]] && bytes[at..] == all[1..];
      match tag.value[0] {
        case 0 => return Ok(Null);
        case 1 => return Ok(Bool(false));
        case 2 => return Ok(Bool(true));
        case 3 =>
          var field := Take(8);
          if field.Err? { return Err(field.error); }
          Widths();
          return Ok(I64(Signed(FromBe(field.value))));
        case 4 =>
          var field := Take(8);
          if field.Err? { return Err(field.error); }
          Widths();
          return Ok(U64(FromBe(field.value)));
        case 5 =>
          var text := Text();
          return match text case Ok(t) => Ok(String(t)) case Err(e) => Err(e);
        case 6 =>
          var data := Blob();
          return match data case Ok(d) => Ok(Bytes(d)) case Err(e) => Err(e);
        case 7 =>
          var n := Length();
          if n.Err? { return Err(n.error); }
          if n.value > MAX_COUNT { return Err(Failure(SchemaRejected)); }
          var items := ReadItems(n.value, depth + 1);
          return match items case Ok(x) => Ok(List(x)) case Err(e) => Err(e);
        case 8 =>
          var n := Length();
          if n.Err? { return Err(n.error); }
          if n.value > MAX_COUNT { return Err(Failure(SchemaRejected)); }
          var fields := ReadFields(n.value, depth + 1);
          return match fields case Ok(x) => Ok(Map(x)) case Err(e) => Err(e);
        case 9 =>
          var location := Identities();
          return match location case Ok(l) => Ok(Ref(l)) case Err(e) => Err(e);
        case _ => return Err(Failure(SchemaRejected));
      }
    }

    method ReadItems(n: nat, depth: nat) returns (r: Result<seq<Value>, Failure>)
      requires Valid()
      modifies this
      ensures Valid() && at >= old(at)
      ensures match ParseItems(n, old(bytes[at..]), depth)
              case Some(p) => r == Ok(p.value) && bytes[at..] == p.rest
              case None => r == Err(Failure(SchemaRejected))
      decreases |bytes| - at, 1
    {
      hide Parse;
      ghost var all := ParseItems(n, bytes[at..], depth);
      var x: seq<Value> := [];
      assert all.Some? ==> x + all.value.value == all.value.value;
      var i := 0;
      while i < n
        invariant 0 <= i <= n && Valid() && at >= old(at)
        invariant match ParseItems(n - i, bytes[at..], depth)
                  case Some(p) => all == Some(Parsed(x + p.value, p.rest))
                  case None => all == None
      {
        var v := ReadValue(depth);
        if v.Err? { return Err(v.error); }
        assert forall others: seq<Value> :: x + ([v.value] + others) == (x + [v.value]) + others;
        x := x + [v.value];
        i := i + 1;
      }
      assert x + [] == x;
      return Ok(x);
    }

    method ReadFields(n: nat, depth: nat) returns (r: Result<seq<Field>, Failure>)
      requires Valid()
      modifies this
      ensures Valid() && at >= old(at)
      ensures match ParseFields(n, None, old(bytes[at..]), depth)
              case Some(p) => r == Ok(p.value) && bytes[at..] == p.rest
              case None => r == Err(Failure(SchemaRejected))
      decreases |bytes| - at, 1
    {
      hide Parse, ParseText, Less;
      ghost var all := ParseFields(n, None, bytes[at..], depth);
      var x: seq<Field> := [];
      assert all.Some? ==> x + all.value.value == all.value.value;
      var previous: Option<seq<byte>> := None;
      var i := 0;
      while i < n
        invariant 0 <= i <= n && Valid() && at >= old(at)
        invariant match ParseFields(n - i, previous, bytes[at..], depth)
                  case Some(p) => all == Some(Parsed(x + p.value, p.rest))
                  case None => all == None
      {
        var k := Text();
        if k.Err? { return Err(k.error); }
        if previous.Some? && !Less(previous.value, k.value) { return Err(Failure(SchemaRejected)); }
        previous := Some(k.value);
        var v := ReadValue(depth);
        if v.Err? { return Err(v.error); }
        var f := Field(k.value, v.value);
        assert forall others: seq<Field> :: x + ([f] + others) == (x + [f]) + others;
        x := x + [f];
        i := i + 1;
      }
      assert x + [] == x;
      return Ok(x);
    }
  }

  /** `Value::decode_schema`. */
  method DecodeSchemaValue(bytes: seq<byte>) returns (r: Result<Value, Failure>)
    ensures r == DecodeSchema(bytes)
  {
    if |bytes| > MAX_BYTES { return Err(Failure(SchemaRejected)); }
    var reader := new Reader(bytes);
    assert bytes[0..] == bytes;
    var v := reader.ReadValue(0);
    if v.Err? { return v; }
    if reader.at != |bytes| { return Err(Failure(SchemaRejected)); }
    return v;
  }

  /** `Value::decode`. */
  method DecodeValue(bytes: seq<byte>) returns (r: Result<Value, Failure>)
    ensures r == Decode(bytes)
  {
    if |bytes| > MAX_BYTES || !(V2_PREFIX <= bytes) { return Err(Failure(SchemaRejected)); }
    r := DecodeSchemaValue(bytes[4..]);
  }

  // ----- known encodings

  lemma {:induction false} KnownNumber(n: byte)
    ensures ToBe(n, 4) == [0, 0, 0, n] && ToBe(n, 8) == [0, 0, 0, 0, 0, 0, 0, n]
  {
    var zeros: seq<byte> := [0, 0, 0, 0, 0, 0, 0];
    assert ToBe(0, 1) == zeros[..1] by { assert ToBe(0, 0) == []; }
    assert ToBe(0, 2) == zeros[..2];
    assert ToBe(0, 3) == zeros[..3];
    assert ToBe(0, 4) == zeros[..4];
    assert ToBe(0, 5) == zeros[..5];
    assert ToBe(0, 6) == zeros[..6];
    assert ToBe(0, 7) == zeros[..7];
    assert n as nat / 256 == 0 && n as nat % 256 == n as nat;
    assert ToBe(n, 4) == ToBe(0, 3) + [n];
    assert ToBe(n, 8) == ToBe(0, 7) + [n];
  }

  /** The bytes of some values, one for each kind but references. */
  lemma KnownBytes()
    ensures Encode(Null) == Ok([0x50, 0x56, 2, 0, 0])
    ensures Encode(U64(1)) == Ok([0x50, 0x56, 2, 0, 4, 0, 0, 0, 0, 0, 0, 0, 1])
    ensures EncodeSchema(I64(5)) == Ok([3, 0, 0, 0, 0, 0, 0, 0, 5])
    ensures EncodeSchema(String(Ascii("hi"))) == Ok([5, 0, 0, 0, 2, 104, 105])
    ensures EncodeSchema(List([Bool(true), Bool(false)])) == Ok([7, 0, 0, 0, 2, 2, 1])
    ensures EncodeSchema(Bytes([0, 255])) == Ok([6, 0, 0, 0, 2, 0, 255])
    ensures EncodeSchema(Map([Field(Ascii("a"), Null)])) == Ok([8, 0, 0, 0, 1, 0, 0, 0, 1, 97, 0])
  {
    hide *;
    KnownScalars();
    KnownText();
    KnownList();
    KnownMap();
  }

  lemma KnownScalars()
    ensures Encode(Null) == Ok([0x50, 0x56, 2, 0, 0])
    ensures Encode(U64(1)) == Ok([0x50, 0x56, 2, 0, 4, 0, 0, 0, 0, 0, 0, 0, 1])
    ensures EncodeSchema(I64(5)) == Ok([3, 0, 0, 0, 0, 0, 0, 0, 5])
  {
    hide ToBe;
    KnownNumber(1);
    KnownNumber(5);
    assert V2_PREFIX + Wire(Null) == [0x50, 0x56, 2, 0, 0];
    assert V2_PREFIX + Wire(U64(1)) == [0x50, 0x56, 2, 0, 4, 0, 0, 0, 0, 0, 0, 0, 1];
    assert Wire(I64(5)) == [3, 0, 0, 0, 0, 0, 0, 0, 5];
  }

  lemma KnownText()
    ensures EncodeSchema(String(Ascii("hi"))) == Ok([5, 0, 0, 0, 2, 104, 105])
  {
    hide ToBe;
    KnownNumber(2);
    assert Ascii("hi") == [104, 105];
    assert Wire(String([104, 105])) == [5, 0, 0, 0, 2, 104, 105];
  }

  lemma KnownList()
    ensures EncodeSchema(List([Bool(true), Bool(false)])) == Ok([7, 0, 0, 0, 2, 2, 1])
  {
    hide ToBe;
    KnownNumber(2);
    var items := [Bool(true), Bool(false)];
    assert items[1..] == [Bool(false)] && items[1..][1..] == [];
    assert WireItems(items[1..]) == [1];
    assert WireItems(items) == [2, 1];
    assert Wire(List(items)) == [7, 0, 0, 0, 2, 2, 1];
  }

  lemma KnownMap()
    ensures EncodeSchema(Bytes([0, 255])) == Ok([6, 0, 0, 0, 2, 0, 255])
    ensures EncodeSchema(Map([Field(Ascii("a"), Null)])) == Ok([8, 0, 0, 0, 1, 0, 0, 0, 1, 97, 0])
  {
    hide ToBe;
    KnownNumber(1);
    KnownNumber(2);
    assert Ascii("a") == [97];
    assert Wire(Bytes([0, 255])) == [6, 0, 0, 0, 2, 0, 255];
    var fields := [Field([97], Null)];
    assert fields[1..] == [];
    assert WireFields(fields) == [0, 0, 0, 1, 97, 0];
    assert Wire(Map(fields)) == [8, 0, 0, 0, 1, 0, 0, 0, 1, 97, 0];
  }

  /** A reference is its four identities, one after the other. */
  lemma {:induction false} KnownReference(l: Location)
    ensures Wire(Ref(l)) == [9] + l.generation + l.owner + l.cell + l.schema
    ensures ValidLocation(l) ==> |Wire(Ref(l))| == 113
  {
  }
}
