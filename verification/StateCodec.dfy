/** The wire form of state requests and of the errors that answer them. */
module StateCodec {
  import opened Wrappers
  import opened Contract
  import opened Bytes
  import opened Values
  import opened ValueCodec
  import SchemaCodec
  import opened CellStore
  import opened StateRequests

  function Opcode(r: StateRequest): (opcode: nat)
    ensures 1 <= opcode <= 7
  {
    match r
    case Create(_, _) => 1
    case Read(_) => 2
    case CompareExchange(_) => 3
    case Subscribe(_) => 4
    case Next(_) => 5
    case Unsubscribe(_) => 6
    case Batch(_) => 7
  }

  /** A request that exists: its references are valid, its texts are texts, its values are values. */
  predicate Formed(r: StateRequest) {
    match r
    case Create(property, initial) => Utf8(property) && Portable(initial)
    case Read(location) => ValidLocation(location)
    case CompareExchange(edit) => FormedEdit(edit)
    case Subscribe(location) => ValidLocation(location)
    case Batch(edits) => forall i | 0 <= i < |edits| :: FormedEdit(edits[i])
    case _ => true
  }

  predicate FormedEdit(e: Edit) { ValidLocation(e.location) && Portable(e.value) }

  /** What the encoder demands of a request besides: an identifier, a cursor that is not zero, and a
      batch in strictly ascending order of its references. */
  predicate Sendable(r: StateRequest) {
    match r
    case Create(property, _) => SchemaCodec.IdentifierBytes(property)
    case Next(cursor) => cursor != 0
    case Unsubscribe(cursor) => cursor != 0
    case Batch(edits) => edits != [] && Ascending(edits)
    case _ => true
  }

  function TripleValue(e: Edit): Value { List([Ref(e.location), U64(e.expected), e.value]) }

  function TripleValues(edits: seq<Edit>): (values: seq<Value>)
    ensures |values| == |edits| && forall i | 0 <= i < |edits| :: values[i] == TripleValue(edits[i])
  {
    seq(|edits|, i requires 0 <= i < |edits| => TripleValue(edits[i]))
  }

  function RequestValue(r: StateRequest): Value {
    match r
    case Create(property, initial) => List([String(property), initial])
    case Read(location) => Ref(location)
    case CompareExchange(edit) => TripleValue(edit)
    case Subscribe(location) => Ref(location)
    case Next(cursor) => U64(cursor)
    case Unsubscribe(cursor) => U64(cursor)
    case Batch(edits) => List(TripleValues(edits))
  }

  function EncodeRequest(r: StateRequest): Result<seq<byte>, Failure> {
    if Sendable(r) then Encode(RequestValue(r)) else Err(Failure(SchemaRejected))
  }

  function Triple(v: Value): (e: Option<Edit>)
    ensures e.Some? ==> v == TripleValue(e.value)
  {
    if v.List? && |v.items| == 3 && v.items[0].Ref? && v.items[1].U64?
    then Some(Edit(v.items[0].location, v.items[1].unsigned, v.items[2]))
    else None
  }

  function Triples(values: seq<Value>): (r: Option<seq<Edit>>)
    ensures r.Some? ==> |r.value| == |values| && forall i | 0 <= i < |values| :: values[i] == TripleValue(r.value[i])
  {
    if values == [] then Some([])
    else
      var first, others := Triple(values[0]), Triples(values[1..]);
      if first.None? || others.None? then None else Some([first.value] + others.value)
  }

  /** The request that a value stands for under an opcode, before it is checked. */
  function RequestOf(opcode: nat, v: Value): (r: Option<StateRequest>)
    ensures r.Some? ==> Opcode(r.value) == opcode && RequestValue(r.value) == v
  {
    match opcode
    case 1 =>
      if v.List? && |v.items| == 2 && v.items[0].String? then Some(Create(v.items[0].text, v.items[1])) else None
    case 2 => if v.Ref? then Some(Read(v.location)) else None
    case 3 => var e := Triple(v); if e.Some? then Some(CompareExchange(e.value)) else None
    case 4 => if v.Ref? then Some(Subscribe(v.location)) else None
    case 5 => if v.U64? then Some(Next(v.unsigned)) else None
    case 6 => if v.U64? then Some(Unsubscribe(v.unsigned)) else None
    case 7 =>
      if !v.List? then None
      else
        var edits := Triples(v.items);
        if edits.Some? then
          assert TripleValues(edits.value) == v.items;
          Some(Batch(edits.value))
        else None
    case _ => None
  }

  /** `StateRequest::decode`, with the comparison it ends with. */
  function DecodeRequest(opcode: nat, bytes: seq<byte>): Result<StateRequest, Failure> {
    if !(1 <= opcode <= 7) then Err(Failure(SchemaRejected))
    else
      match Decode(bytes)
      case Err(e) => Err(e)
      case Ok(v) =>
        match RequestOf(opcode, v)
        case None => Err(Failure(SchemaRejected))
        case Some(r) => if EncodeRequest(r) == Ok(bytes) then Ok(r) else Err(Failure(SchemaRejected))
  }

  lemma {:induction false} TripleOf(e: Edit)
    ensures Triple(TripleValue(e)) == Some(e)
  {
  }

  lemma {:induction false} TriplesOf(edits: seq<Edit>, values: seq<Value>)
    requires |values| == |edits| && forall i | 0 <= i < |edits| :: values[i] == TripleValue(edits[i])
    ensures Triples(values) == Some(edits)
  {
    if edits != [] {
      TriplesOf(edits[1..], values[1..]);
      assert [edits[0]] + edits[1..] == edits;
    }
  }

  lemma {:induction false} RequestOfValue(r: StateRequest)
    ensures RequestOf(Opcode(r), RequestValue(r)) == Some(r)
  {
    if r.Batch? { TriplesOf(r.edits, TripleValues(r.edits)); }
  }

  lemma {:induction false} TriplePortable(e: Edit)
    ensures Portable(TripleValue(e)) <==> FormedEdit(e)
  {
    var items := [Ref(e.location), U64(e.expected), e.value];
    assert (forall i | 0 <= i < |items| :: Portable(items[i])) <==>
      Portable(items[0]) && Portable(items[1]) && Portable(items[2]);
  }

  lemma {:induction false} RequestPortable(r: StateRequest)
    ensures Portable(RequestValue(r)) <==> Formed(r)
  {
    match r {
      case Create(property, initial) =>
        var items := [String(property), initial];
        assert (forall i | 0 <= i < |items| :: Portable(items[i])) <==> Portable(items[0]) && Portable(items[1]);
      case CompareExchange(edit) => TriplePortable(edit);
      case Batch(edits) =>
        forall i | 0 <= i < |edits| ensures Portable(TripleValues(edits)[i]) <==> FormedEdit(edits[i]) {
          TriplePortable(edits[i]);
        }
      case _ =>
    }
  }

  /** A request and its opcode and bytes determine each other. */
  lemma {:induction false} RequestBijection(r: StateRequest, opcode: nat, bytes: seq<byte>)
    ensures Formed(r) && Opcode(r) == opcode && EncodeRequest(r) == Ok(bytes) <==> DecodeRequest(opcode, bytes) == Ok(r)
  {
    hide Encode, Decode, Portable, Formed;
    RequestPortable(r);
    Bijection(RequestValue(r), bytes);
    if Opcode(r) == opcode && EncodeRequest(r) == Ok(bytes) && Formed(r) { RequestOfValue(r); }
  }

  /** The comparison at the end of decoding can only fail because the request may not be sent: a name
      that is no identifier, a zero cursor, or a batch that is empty or out of order. */
  lemma {:induction false} ComparisonOnlyChecks(opcode: nat, bytes: seq<byte>)
    requires Decode(bytes).Ok? && RequestOf(opcode, Decode(bytes).value).Some?
    ensures var r := RequestOf(opcode, Decode(bytes).value).value;
      DecodeRequest(opcode, bytes) == if Sendable(r) then Ok(r) else Err(Failure(SchemaRejected))
  {
    hide Encode, Decode;
    Bijection(Decode(bytes).value, bytes);
  }

  /** A decoded batch names each reference once. */
  lemma {:induction false} DecodedBatch(opcode: nat, bytes: seq<byte>)
    requires DecodeRequest(opcode, bytes).Ok? && DecodeRequest(opcode, bytes).value.Batch?
    ensures var edits := DecodeRequest(opcode, bytes).value.edits;
      && edits != [] && Ascending(edits)
      && forall i, j | 0 <= i < j < |edits| :: edits[i].location != edits[j].location
  {
    hide Encode, Decode;
    AscendingDistinct(DecodeRequest(opcode, bytes).value.edits);
  }

  lemma {:induction false} DecodedInOrder(opcode: nat, bytes: seq<byte>)
    requires DecodeRequest(opcode, bytes).Ok?
    ensures DecodeRequest(opcode, bytes).value.Batch? ==>
      DecodeRequest(opcode, bytes).value.edits != [] && Ascending(DecodeRequest(opcode, bytes).value.edits)
  {
    hide Encode, Decode;
    if DecodeRequest(opcode, bytes).value.Batch? { DecodedBatch(opcode, bytes); }
  }

  // ----- errors

  function ErrorText(e: AccessError): string {
    match e
    case Conflict(_, _) => "Conflict"
    case OwnerGone => "OwnerGone"
    case StaleReference => "StaleReference"
    case SchemaMismatch => "SchemaMismatch"
    case Denied => "Denied"
    case RevisionExhausted => "RevisionExhausted"
    case EpochExhausted => "EpochExhausted"
  }

  function ErrorValue(e: AccessError): Value {
    match e
    case Conflict(expected, current) => List([String(Ascii("Conflict")), U64(expected), U64(current)])
    case _ => List([String(Ascii(ErrorText(e)))])
  }

  function ErrorOf(v: Value): Option<AccessError> {
    if !v.List? || v.items == [] || !v.items[0].String? then None
    else
      var name, fields := v.items[0].text, v.items[1..];
      if name == Ascii("Conflict") then
        if |fields| == 2 && fields[0].U64? && fields[1].U64?
        then Some(Conflict(fields[0].unsigned, fields[1].unsigned)) else None
      else if fields != [] then None
      else if name == Ascii("OwnerGone") then Some(OwnerGone)
      else if name == Ascii("StaleReference") then Some(StaleReference)
      else if name == Ascii("SchemaMismatch") then Some(SchemaMismatch)
      else if name == Ascii("Denied") then Some(AccessError.Denied)
      else if name == Ascii("RevisionExhausted") then Some(RevisionExhausted)
      else if name == Ascii("EpochExhausted") then Some(EpochExhausted)
      else None
  }

  /** An access error and its value determine each other. */
  lemma {:induction false} ErrorBijection(e: AccessError, v: Value)
    ensures ErrorOf(v) == Some(e) <==> v == ErrorValue(e)
  {
    assert Ascii("StaleReference")[0] != Ascii("SchemaMismatch")[1];
    assert Ascii("StaleReference")[1] != Ascii("SchemaMismatch")[1];
    if ErrorOf(v) == Some(e) {
      if e.Conflict? {
        assert v.items == [v.items[0], v.items[1], v.items[2]];
      } else {
        assert v.items == [v.items[0]];
      }
    }
  }

  /** The errors by name; a conflict tells first the revision expected and then the present one. */
  lemma KnownErrors(expected: u64, current: u64)
    ensures ErrorValue(Conflict(expected, current)) == List([String(Ascii("Conflict")), U64(expected), U64(current)])
    ensures ErrorValue(OwnerGone) == List([String(Ascii("OwnerGone"))])
    ensures ErrorValue(StaleReference) == List([String(Ascii("StaleReference"))])
    ensures ErrorValue(SchemaMismatch) == List([String(Ascii("SchemaMismatch"))])
    ensures ErrorValue(AccessError.Denied) == List([String(Ascii("Denied"))])
    ensures ErrorValue(RevisionExhausted) == List([String(Ascii("RevisionExhausted"))])
    ensures ErrorValue(EpochExhausted) == List([String(Ascii("EpochExhausted"))])
  {
    hide Ascii;
  }

  /** Some requests with their opcodes and bytes. */
  lemma {:induction false} KnownRequests(l: Location)
    requires ValidLocation(l)
    ensures Opcode(Next(1)) == 5 && EncodeRequest(Next(1)) == Ok([0x50, 0x56, 2, 0, 4, 0, 0, 0, 0, 0, 0, 0, 1])
    ensures Opcode(Unsubscribe(1)) == 6 && EncodeRequest(Unsubscribe(1)) == EncodeRequest(Next(1))
    ensures Opcode(Read(l)) == 2 && EncodeRequest(Read(l)) == Ok([0x50, 0x56, 2, 0] + Wire(Ref(l)))
    ensures Opcode(Subscribe(l)) == 4 && EncodeRequest(Subscribe(l)) == EncodeRequest(Read(l))
  {
    hide Wire;
    KnownBytes();
    KnownReference(l);
  }
}
