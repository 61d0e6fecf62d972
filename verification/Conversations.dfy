/** Conversation messages and journal events, with their portable forms. */
module Conversations {
  import opened Bytes
  import Contract
  import opened ValueCodec
  import opened Values
  import opened Wrappers

  datatype ToolCall = ToolCall(id: seq<byte>, tool: seq<byte>, arguments: seq<byte>)

  datatype ToolOutcome =
    | Succeeded(text: seq<byte>)
    | Failed(output: seq<byte>, reason: seq<byte>)

  /** One role and its payload. */
  datatype Message =
    | User(text: seq<byte>)
    | Assistant(text: seq<byte>, calls: seq<ToolCall>)
    | Tool(callId: seq<byte>, outcome: ToolOutcome)
  {
    function Calls(): seq<ToolCall> { if Assistant? then calls else [] }
  }

  datatype EventKind =
    | PromptAccepted | ModelStarted | TextDelta | AssistantReply | ToolStarted | ToolFinished | Answer
    | Failure | Cancelled

  /** A durable journal record. */
  datatype Event = Event(
    sequence: u64, session: seq<byte>, run: seq<byte>, kind: EventKind,
    callId: seq<byte>, text: seq<byte>, data: seq<byte>)

  /** Texts of a record are strings. */
  predicate Typed(e: Event) { Utf8(e.session) && Utf8(e.run) && Utf8(e.callId) && Utf8(e.text) }

  predicate TypedMessage(m: Message) {
    match m
    case User(text) => Utf8(text)
    case Assistant(text, calls) =>
      Utf8(text) && forall c | c in calls :: Utf8(c.id) && Utf8(c.tool) && Utf8(c.arguments)
    case Tool(id, Succeeded(text)) => Utf8(id) && Utf8(text)
    case Tool(id, Failed(output, reason)) => Utf8(id) && Utf8(output) && Utf8(reason)
  }

  // ----- events

  function KindName(k: EventKind): (name: string)
    ensures name == "PromptAccepted" <==> k == PromptAccepted
    ensures name == "ModelStarted" <==> k == ModelStarted
    ensures name == "TextDelta" <==> k == TextDelta
    ensures name == "AssistantReply" <==> k == AssistantReply
    ensures name == "ToolStarted" <==> k == ToolStarted
    ensures name == "ToolFinished" <==> k == ToolFinished
    ensures name == "Answer" <==> k == Answer
    ensures name == "Failure" <==> k == EventKind.Failure
    ensures name == "Cancelled" <==> k == Cancelled
  {
    match k
    case PromptAccepted => "PromptAccepted"
    case ModelStarted => "ModelStarted"
    case TextDelta => "TextDelta"
    case AssistantReply => "AssistantReply"
    case ToolStarted => "ToolStarted"
    case ToolFinished => "ToolFinished"
    case Answer => "Answer"
    case Failure => "Failure"
    case Cancelled => "Cancelled"
  }

  function EventValue(e: Event): Value {
    Map([Field(Ascii("call_id"), String(e.callId)),
         Field(Ascii("data"), Bytes(e.data)),
         Field(Ascii("kind"), String(Ascii(KindName(e.kind)))),
         Field(Ascii("run"), String(e.run)),
         Field(Ascii("sequence"), U64(e.sequence)),
         Field(Ascii("session"), String(e.session)),
         Field(Ascii("text"), String(e.text))])
  }

  /** The canonical bytes that a journal digest covers. */
  function EventBytes(e: Event): Result<seq<byte>, Contract.Failure> { Encode(EventValue(e)) }

  lemma {:induction false} KindNamed(j: EventKind, k: EventKind)
    requires Ascii(KindName(j)) == Ascii(KindName(k))
    ensures j == k
  {
    var a, b := KindName(j), KindName(k);
    assert |a| == |b| && Ascii(a)[0] == Ascii(b)[0];
  }

  lemma {:induction false} AsciiIsText(s: string)
    requires forall i | 0 <= i < |s| :: s[i] < 128 as char
    ensures Utf8(Ascii(s))
    decreases |s|
  {
    if s != [] {
      AsciiIsText(s[1..]);
      assert Ascii(s)[1..] == Ascii(s[1..]);
    }
  }

  lemma {:induction false} FirstLess(a: seq<byte>, b: seq<byte>)
    requires a != [] && b != [] && a[0] < b[0]
    ensures Less(a, b)
  {
  }

  lemma {:induction false} ThirdLess(a: seq<byte>, b: seq<byte>)
    requires |a| > 2 && |b| > 2 && a[..2] == b[..2] && a[2] < b[2]
    ensures Less(a, b)
  {
    assert a[0] == a[..2][0] && a[1] == a[..2][1];
    FirstLess(a[1..][1..], b[1..][1..]);
    assert Less(a[1..], b[1..]);
  }

  /** The field names of a record are strings in ascending order. */
  lemma {:induction false} EventKeys()
    ensures Utf8(Ascii("call_id")) && Utf8(Ascii("data")) && Utf8(Ascii("kind")) && Utf8(Ascii("run"))
    ensures Utf8(Ascii("sequence")) && Utf8(Ascii("session")) && Utf8(Ascii("text"))
    ensures Less(Ascii("call_id"), Ascii("data")) && Less(Ascii("data"), Ascii("kind"))
    ensures Less(Ascii("kind"), Ascii("run")) && Less(Ascii("run"), Ascii("sequence"))
    ensures Less(Ascii("sequence"), Ascii("session")) && Less(Ascii("session"), Ascii("text"))
  {
    hide Utf8, Less;
    AsciiIsText("call_id");
    AsciiIsText("data");
    AsciiIsText("kind");
    AsciiIsText("run");
    AsciiIsText("sequence");
    AsciiIsText("session");
    AsciiIsText("text");
    FirstLess(Ascii("call_id"), Ascii("data"));
    FirstLess(Ascii("data"), Ascii("kind"));
    FirstLess(Ascii("kind"), Ascii("run"));
    FirstLess(Ascii("run"), Ascii("sequence"));
    ThirdLess(Ascii("sequence"), Ascii("session"));
    FirstLess(Ascii("session"), Ascii("text"));
  }

  lemma {:induction false} EventPortable(e: Event)
    requires Typed(e)
    ensures Portable(EventValue(e))
  {
    hide Utf8, Less, Ascii;
    EventKeys();
    KindIsText(e.kind);
  }

  lemma KindIsText(k: EventKind)
    ensures Utf8(Ascii(KindName(k)))
  {
    hide Utf8;
    AsciiIsText(KindName(k));
  }

  /** A record's canonical bytes determine the record. */
  lemma {:induction false} EventBytesDetermine(a: Event, b: Event)
    requires Typed(a) && Typed(b) && EventBytes(a).Ok? && EventBytes(a) == EventBytes(b)
    ensures a == b
  {
    hide Encode, Decode, Portable, Utf8;
    EventPortable(a);
    EventPortable(b);
    Bijection(EventValue(a), EventBytes(a).value);
    Bijection(EventValue(b), EventBytes(a).value);
    var f, g := EventValue(a).fields, EventValue(b).fields;
    assert EventValue(a) == EventValue(b);
    assert forall i | 0 <= i < 7 :: f[i].value == g[i].value;
    KindNamed(a.kind, b.kind);
  }

  // ----- messages

  function CallValue(c: ToolCall): Value {
    Map([Field(Ascii("arguments"), String(c.arguments)),
         Field(Ascii("id"), String(c.id)),
         Field(Ascii("tool"), String(c.tool))])
  }

  function OutcomeValue(o: ToolOutcome): Value {
    match o
    case Succeeded(text) => Tagged("Succeeded", [Field(Ascii("text"), String(text))])
    case Failed(output, reason) =>
      Tagged("Failed", [Field(Ascii("output"), String(output)), Field(Ascii("reason"), String(reason))])
  }

  function Tagged(name: string, fields: seq<Field>): Value { Map([Field(Ascii(name), Map(fields))]) }

  function MessageValue(m: Message): Value {
    match m
    case User(text) => Tagged("User", [Field(Ascii("text"), String(text))])
    case Assistant(text, calls) =>
      Tagged("Assistant", [
        Field(Ascii("calls"), List(seq(|calls|, i requires 0 <= i < |calls| => CallValue(calls[i])))),
        Field(Ascii("text"), String(text))])
    case Tool(id, outcome) =>
      Tagged("Tool", [Field(Ascii("call_id"), String(id)), Field(Ascii("outcome"), OutcomeValue(outcome))])
  }

  /** The payload of a tagged value with one of the given names. */
  predicate IsTagged(v: Value, name: string) {
    v.Map? && |v.fields| == 1 && v.fields[0].key == Ascii(name) && v.fields[0].value.Map?
  }

  predicate TextField(fields: seq<Field>, i: nat, name: string) {
    i < |fields| && fields[i].key == Ascii(name) && fields[i].value.String?
  }

  function CallOf(v: Value): Option<ToolCall> {
    if v.Map? && |v.fields| == 3
       && TextField(v.fields, 0, "arguments") && TextField(v.fields, 1, "id") && TextField(v.fields, 2, "tool")
    then Some(ToolCall(v.fields[1].value.text, v.fields[2].value.text, v.fields[0].value.text))
    else None
  }

  function CallsOf(items: seq<Value>): (r: Option<seq<ToolCall>>) {
    if forall v | v in items :: CallOf(v).Some?
    then Some(seq(|items|, i requires 0 <= i < |items| => assert items[i] in items; CallOf(items[i]).value))
    else None
  }

  function OutcomeOf(v: Value): Option<ToolOutcome> {
    if IsTagged(v, "Succeeded") then
      var fields := v.fields[0].value.fields;
      if |fields| == 1 && TextField(fields, 0, "text") then Some(Succeeded(fields[0].value.text)) else None
    else if IsTagged(v, "Failed") then
      var fields := v.fields[0].value.fields;
      if |fields| == 2 && TextField(fields, 0, "output") && TextField(fields, 1, "reason")
      then Some(Failed(fields[0].value.text, fields[1].value.text)) else None
    else None
  }

  /** `Message::from_value`. */
  function MessageOf(v: Value): Option<Message> {
    if IsTagged(v, "User") then
      var fields := v.fields[0].value.fields;
      if |fields| == 1 && TextField(fields, 0, "text") then Some(User(fields[0].value.text)) else None
    else if IsTagged(v, "Assistant") then
      var fields := v.fields[0].value.fields;
      if |fields| == 2 && fields[0].key == Ascii("calls") && fields[0].value.List? && TextField(fields, 1, "text") then
        match CallsOf(fields[0].value.items)
        case None => None
        case Some(calls) => Some(Assistant(fields[1].value.text, calls))
      else None
    else if IsTagged(v, "Tool") then
      var fields := v.fields[0].value.fields;
      if |fields| == 2 && TextField(fields, 0, "call_id") && fields[1].key == Ascii("outcome") then
        match OutcomeOf(fields[1].value)
        case None => None
        case Some(outcome) => Some(Tool(fields[0].value.text, outcome))
      else None
    else None
  }

  lemma {:induction false} CallBijection(c: ToolCall, v: Value)
    ensures CallOf(v) == Some(c) <==> v == CallValue(c)
  {
    if CallOf(v) == Some(c) { assert v.fields == [v.fields[0], v.fields[1], v.fields[2]]; }
  }

  lemma {:induction false} OutcomeBijection(o: ToolOutcome, v: Value)
    ensures OutcomeOf(v) == Some(o) <==> v == OutcomeValue(o)
  {
    if OutcomeOf(v) == Some(o) {
      assert v.fields == [v.fields[0]];
      var fields := v.fields[0].value.fields;
      if o.Failed? { assert fields == [fields[0], fields[1]]; } else { assert fields == [fields[0]]; }
    }
  }

  lemma {:induction false} CallsBijection(calls: seq<ToolCall>, items: seq<Value>)
    ensures CallsOf(items) == Some(calls)
            <==> items == seq(|calls|, i requires 0 <= i < |calls| => CallValue(calls[i]))
  {
    hide CallOf, CallValue;
    var values := seq(|calls|, i requires 0 <= i < |calls| => CallValue(calls[i]));
    if CallsOf(items) == Some(calls) {
      forall i | 0 <= i < |items| ensures items[i] == values[i] {
        assert items[i] in items;
        CallBijection(calls[i], items[i]);
      }
    }
    if items == values {
      forall i | 0 <= i < |items| ensures CallOf(items[i]) == Some(calls[i]) { CallBijection(calls[i], items[i]); }
      assert forall v | v in items :: exists i | 0 <= i < |items| :: v == items[i];
      assert CallsOf(items).value == calls;
    }
  }

  /** A message and its value determine each other. */
  lemma {:induction false} MessageBijection(m: Message, v: Value)
    ensures MessageOf(v) == Some(m) <==> v == MessageValue(m)
  {
    hide CallsOf, OutcomeOf, OutcomeValue, CallValue;
    assert Ascii("User")[0] != Ascii("Tool")[0] && |Ascii("Assistant")| == 9;
    if m.Assistant? && IsTagged(v, "Assistant") {
      var fields := v.fields[0].value.fields;
      if |fields| == 2 && fields[0].value.List? { CallsBijection(m.calls, fields[0].value.items); }
    }
    if m.Tool? && IsTagged(v, "Tool") {
      var fields := v.fields[0].value.fields;
      if |fields| == 2 { OutcomeBijection(m.outcome, fields[1].value); }
    }
    if MessageOf(v) == Some(m) {
      assert v.fields == [v.fields[0]];
      var fields := v.fields[0].value.fields;
      if m.User? { assert fields == [fields[0]]; } else { assert fields == [fields[0], fields[1]]; }
    }
  }

  /** One message of each kind, and its portable value. */
  lemma KnownMessages(a: seq<byte>, b: seq<byte>, c: seq<byte>)
    ensures MessageValue(User(a)) == Map([Field(Ascii("User"), Map([Field(Ascii("text"), String(a))]))])
    ensures MessageValue(Assistant(a, [])) ==
      Map([Field(Ascii("Assistant"), Map([Field(Ascii("calls"), List([])), Field(Ascii("text"), String(a))]))])
    ensures MessageValue(Tool(a, Succeeded(b))) ==
      Map([Field(Ascii("Tool"), Map([Field(Ascii("call_id"), String(a)), Field(Ascii("outcome"),
        Map([Field(Ascii("Succeeded"), Map([Field(Ascii("text"), String(b))]))]))]))])
    ensures MessageValue(Tool(a, Failed(b, c))) ==
      Map([Field(Ascii("Tool"), Map([Field(Ascii("call_id"), String(a)), Field(Ascii("outcome"),
        Map([Field(Ascii("Failed"), Map([
          Field(Ascii("output"), String(b)), Field(Ascii("reason"), String(c))]))]))]))])
    ensures CallValue(ToolCall(a, b, c)) ==
      Map([Field(Ascii("arguments"), String(c)), Field(Ascii("id"), String(a)), Field(Ascii("tool"), String(b))])
  {
    hide Ascii;
    assert MessageValue(Assistant(a, [])).fields[0].value.fields[0].value.items == [];
  }

  /** `decode::<Message>` of a receipt. */
  function DecodeMessage(data: seq<byte>): Option<Message> {
    match Decode(data)
    case Err(_) => None
    case Ok(v) => MessageOf(v)
  }

  /** A receipt that decodes to a message consists of exactly the bytes of that message. */
  lemma {:induction false} ReceiptIsExact(data: seq<byte>, m: Message)
    ensures DecodeMessage(data) == Some(m) <==> Portable(MessageValue(m)) && Encode(MessageValue(m)) == Ok(data)
  {
    hide Encode, Decode, Portable, MessageOf, MessageValue;
    Bijection(MessageValue(m), data);
    if Decode(data).Ok? { MessageBijection(m, Decode(data).value); }
  }

  /** `decode::<ToolCompletion>`: whether the completed call failed. */
  function DecodeFailed(data: seq<byte>): Option<bool> {
    match Decode(data)
    case Ok(String(name)) =>
      if name == Ascii("Succeeded") then Some(false) else if name == Ascii("Failed") then Some(true) else None
    case _ => None
  }
}
