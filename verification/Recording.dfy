/** What the agent records of a conversation, and that the verifier reads it. */
module Recording {
  import opened Bytes
  import opened Checkpoints
  import opened Conversations
  import opened HistoryModel
  import opened Replay
  import opened Transcripts
  import opened Values
  import opened Wrappers
  import ValueCodec

  /** A call and how it ended. */
  datatype Done = Done(call: ToolCall, outcome: ToolOutcome)

  /** One reply that asks for calls, with the outcome of each. `noise` is what the journal holds before the
      receipt of the reply, the start of the model and pieces of its text, and `rest` what it holds after
      it: text that had not been streamed. The receipt is the adapter's, and may be missing. */
  datatype Round = Round(noise: seq<Event>, text: seq<byte>, receipt: bool, rest: seq<Event>, tools: seq<Done>) {
    function Calls(): seq<ToolCall> { seq(|tools|, i requires 0 <= i < |tools| => tools[i].call) }

    function Reply(): Message { Assistant(text, Calls()) }
  }

  /** How a turn has ended, if it has. A turn that was stopped, by a failure or a cancellation, may show more of
      what it did after its whole rounds: a reply, and results of some of its calls. */
  datatype End =
    | Answered(text: seq<byte>)
    | Stopped(kind: EventKind, reason: seq<byte>, shown: seq<Message>)
    | Unfinished

  /** A turn as it happens: a prompt, rounds of calls, and its end. */
  datatype Script = Script(run: seq<byte>, prompt: seq<byte>, rounds: seq<Round>, noise: seq<Event>, end: End)

  // ----- the history

  function Results(tools: seq<Done>): seq<Message> {
    seq(|tools|, i requires 0 <= i < |tools| => Tool(tools[i].call.id, tools[i].outcome))
  }

  function RoundMessages(r: Round): seq<Message> { [r.Reply()] + Results(r.tools) }

  function RoundsMessages(rounds: seq<Round>): seq<Message> {
    if rounds == [] then [] else RoundsMessages(rounds[..|rounds| - 1]) + RoundMessages(rounds[|rounds| - 1])
  }

  function Messages(s: Script): seq<Message> {
    [User(s.prompt)] + RoundsMessages(s.rounds) + LastMessages(s.end)
  }

  function LastMessages(end: End): seq<Message> {
    match end
    case Answered(text) => [Assistant(text, [])]
    case Stopped(_, _, shown) => shown
    case Unfinished => []
  }

  // ----- the journal

  function Record(run: seq<byte>, kind: EventKind, callId: seq<byte>, text: seq<byte>, data: seq<byte>): Event {
    Event(0, [], run, kind, callId, text, data)
  }

  function Receipt(m: Message): seq<byte> {
    match ValueCodec.Encode(MessageValue(m)) case Ok(bytes) => bytes case Err(_) => []
  }

  function Completion(o: ToolOutcome): seq<byte> {
    match ValueCodec.Encode(String(Ascii(if o.Failed? then "Failed" else "Succeeded")))
    case Ok(bytes) => bytes
    case Err(_) => []
  }

  function OutcomeText(o: ToolOutcome): seq<byte> { if o.Failed? then o.reason else o.text }

  /** Each call is recorded when it starts and when it ends. */
  function CallEvents(run: seq<byte>, tools: seq<Done>): seq<Event> {
    if tools == [] then []
    else
      CallEvents(run, tools[..|tools| - 1]) + StartAndEnd(run, tools[|tools| - 1])
  }

  function StartAndEnd(run: seq<byte>, d: Done): (records: seq<Event>)
    ensures |records| == 2
  {
    [Start(run, d), Finish(run, d)]
  }

  function Start(run: seq<byte>, d: Done): Event { Record(run, ToolStarted, d.call.id, d.call.tool, []) }

  function Finish(run: seq<byte>, d: Done): Event {
    Record(run, ToolFinished, d.call.id, OutcomeText(d.outcome), Completion(d.outcome))
  }

  function ReceiptEvents(run: seq<byte>, r: Round): seq<Event> {
    if r.receipt then [Record(run, AssistantReply, [], r.text, Receipt(r.Reply()))] else []
  }

  function RoundEvents(run: seq<byte>, r: Round): seq<Event> {
    r.noise + (ReceiptEvents(run, r) + (r.rest + CallEvents(run, r.tools)))
  }

  function RoundsEvents(run: seq<byte>, rounds: seq<Round>): seq<Event> {
    if rounds == [] then [] else RoundsEvents(run, rounds[..|rounds| - 1]) + RoundEvents(run, rounds[|rounds| - 1])
  }

  function Events(s: Script): seq<Event> {
    [Record(s.run, PromptAccepted, [], s.prompt, [])] + (RoundsEvents(s.run, s.rounds) + (s.noise + Ending(s)))
  }

  function Ending(s: Script): seq<Event> {
    match s.end
    case Answered(text) => [Record(s.run, Answer, [], text, [])]
    case Stopped(kind, reason, _) => [Record(s.run, kind, [], reason, [])]
    case Unfinished => []
  }

  // ----- what a turn must be

  predicate Noise(run: seq<byte>, noise: seq<Event>) {
    forall e | e in noise :: (e.kind.ModelStarted? || e.kind.TextDelta?) && e.run == run
  }

  /** The agent rejects a reply in which a call identity is empty or repeated, and records failures without
      output. */
  predicate RoundOk(run: seq<byte>, r: Round) {
    && r.tools != [] && Noise(run, r.noise) && Noise(run, r.rest)
    && FreshCalls({}, r.Calls())
    && (forall d | d in r.tools && d.outcome.Failed? :: d.outcome.output == [])
    && ValueCodec.Portable(MessageValue(r.Reply())) && ValueCodec.Encode(MessageValue(r.Reply())).Ok?
  }

  /** Before it stops a turn, the agent may have recorded more than its history shows. */
  predicate ScriptOk(s: Script) {
    && (forall r | r in s.rounds :: RoundOk(s.run, r))
    && (if s.end.Stopped? then s.end.kind.Failure? || s.end.kind.Cancelled? else Noise(s.run, s.noise))
  }

  /** No reply of the turn uses a call identity of an earlier reply of the turn. The agent compares only the
      calls of one reply. */
  predicate Fresh(rounds: seq<Round>) {
    forall k, d | 0 <= k < |rounds| && d in rounds[k].tools :: d.call.id !in CallIds(RoundsMessages(rounds[..k]))
  }

  /** ... and a reply without a receipt is told by the start of its first call, if the turn is kept. */
  predicate Readable(rounds: seq<Round>, kept: bool) { Fresh(rounds) && (kept || forall r | r in rounds :: r.receipt) }

  // ----- a journal that echoes a script

  /** The event is this record, with a place in a journal. */
  predicate Echo(c: Checkpoint, e: Event, record: Event, kept: bool) {
    e == record.(sequence := e.sequence, session := e.session) && Shown(c, e) == kept
  }

  /** From event `i` on the journal holds these records, all of them on one side. */
  predicate Echoes(c: Checkpoint, J: seq<Event>, i: nat, records: seq<Event>, kept: bool) {
    i + |records| <= |J| && forall j | i <= j < i + |records| :: Echo(c, J[j], records[j - i], kept)
  }

  lemma EchoSplits(c: Checkpoint, J: seq<Event>, i: nat, a: seq<Event>, b: seq<Event>, kept: bool)
    requires Echoes(c, J, i, a + b, kept)
    ensures Echoes(c, J, i, a, kept) && Echoes(c, J, i + |a|, b, kept)
  {
    hide Echo;
    forall j | i <= j < i + |a| ensures Echo(c, J[j], a[j - i], kept) { assert (a + b)[j - i] == a[j - i]; }
    forall j | i + |a| <= j < i + |a| + |b| ensures Echo(c, J[j], b[j - i - |a|], kept) {
      assert (a + b)[j - i] == b[j - i - |a|];
    }
  }

  /** From message `m` on the history holds these messages. */
  predicate Stands(H: seq<Message>, m: nat, messages: seq<Message>) {
    m + |messages| <= |H| && H[m..m + |messages|] == messages
  }

  lemma StandsSplits(H: seq<Message>, m: nat, a: seq<Message>, b: seq<Message>)
    requires Stands(H, m, a + b)
    ensures Stands(H, m, a) && Stands(H, m + |a|, b)
  {
    var all := H[m..m + |a| + |b|];
    assert a == (a + b)[..|a|] == all[..|a|] == H[m..m + |a|];
    assert b == (a + b)[|a|..] == all[|a|..] == H[m + |a|..m + |a| + |b|];
  }

  // ----- the records are readable

  lemma {:induction false} CompletionReads(o: ToolOutcome)
    ensures DecodeFailed(Completion(o)) == Some(o.Failed?)
  {
    hide ValueCodec.Decode;
    var name := if o.Failed? then "Failed" else "Succeeded";
    AsciiIsText(name);
    NameEncodes(name);
    ValueCodec.Bijection(String(Ascii(name)), ValueCodec.Encode(String(Ascii(name))).value);
    assert |Ascii("Failed")| == 6 && |Ascii("Succeeded")| == 9;
  }

  lemma NameEncodes(name: string)
    requires |name| < 100
    ensures ValueCodec.Encode(String(Ascii(name))).Ok?
  {
  }

  lemma {:induction false} ReceiptReads(m: Message)
    requires ValueCodec.Encode(MessageValue(m)).Ok? && ValueCodec.Portable(MessageValue(m))
    ensures DecodeMessage(Receipt(m)) == Some(m)
  {
    hide ValueCodec.Encode, ValueCodec.Decode, ValueCodec.Portable, MessageValue;
    ReceiptIsExact(Receipt(m), m);
  }

  // ----- reading a script

  /** The journal up to event `i` reads `m` messages and leaves this turn open, with these calls waiting. */
  predicate Reads(H: seq<Message>, c: Checkpoint, J: seq<Event>, i: nat, m: nat, t: OpenTurn, waiting: seq<ToolCall>) {
    && i <= |J| && At(H, c, J[..i]) == Some(Position(m, Some(t)))
    && t.start < m <= |H| && Outstanding(H[t.start..m]) == Some(waiting)
  }

  lemma {:induction false} NoiseReads(
    H: seq<Message>, c: Checkpoint, J: seq<Event>, i: nat, m: nat, t: OpenTurn, waiting: seq<ToolCall>,
    noise: seq<Event>)
    requires Reads(H, c, J, i, m, t, waiting) && Noise(t.run, noise) && Echoes(c, J, i, noise, t.kept)
    ensures Reads(H, c, J, i + |noise|, m, t, waiting)
    decreases |noise|
  {
    hide At, VisibilityOf, Outstanding, Echoes;
    EchoesNone(c, J, i, noise, t.kept);
    if noise != [] {
      var n := |noise| - 1;
      assert noise == noise[..n] + [noise[n]];
      EchoSplits(c, J, i, noise[..n], [noise[n]], t.kept);
      NoiseReads(H, c, J, i, m, t, waiting, noise[..n]);
      OneMore(H, c, J, i + n);
      EchoesOne(c, J, i + n, noise[n], t.kept);
      assert noise[n] in noise;
    }
  }

  lemma EchoesNone(c: Checkpoint, J: seq<Event>, i: nat, records: seq<Event>, kept: bool)
    requires Echoes(c, J, i, records, kept)
    ensures i + |records| <= |J|
  {
  }

  lemma EchoesOne(c: Checkpoint, J: seq<Event>, i: nat, record: Event, kept: bool)
    requires Echoes(c, J, i, [record], kept)
    ensures i < |J| && Echo(c, J[i], record, kept)
  {
    assert Echo(c, J[i], [record][0], kept);
  }

  /** A call is started and ended: its result is matched. */
  lemma {:induction false} CallReads(
    H: seq<Message>, c: Checkpoint, J: seq<Event>, i: nat, m: nat, t: OpenTurn, waiting: seq<ToolCall>, d: Done)
    requires Reads(H, c, J, i, m, t, waiting) && !t.started && waiting != [] && waiting[0] == d.call
    requires d.outcome.Failed? ==> d.outcome.output == []
    requires m < |H| && H[m] == Tool(d.call.id, d.outcome)
    requires Echoes(c, J, i, StartAndEnd(t.run, d), t.kept)
    ensures Reads(H, c, J, i + 2, m + 1, t, waiting[1..])
  {
    hide VisibilityOf, DecodeFailed, Completion, FreshCalls, CallIds, Outstanding, At, DecodeMessage;
    CompletionReads(d.outcome);
    TurnGrows(H, t.start, m);
    OneMore(H, c, J, i);
    OneMore(H, c, J, i + 1);
    assert Echo(c, J[i], Start(t.run, d), t.kept);
    assert Echo(c, J[i + 1], Finish(t.run, d), t.kept);
  }

  /** The last of some calls, apart from those before. */
  lemma {:induction false} LastCall(H: seq<Message>, c: Checkpoint, J: seq<Event>, i: nat, m: nat, run: seq<byte>,
                                    kept: bool, tools: seq<Done>)
    requires tools != []
    requires Stands(H, m, Results(tools)) && Echoes(c, J, i, CallEvents(run, tools), kept)
    ensures var n := |tools| - 1;
      var before, d := tools[..n], tools[n];
      && Stands(H, m, Results(before)) && m + n < |H| && H[m + n] == Tool(d.call.id, d.outcome)
      && Echoes(c, J, i, CallEvents(run, before), kept)
      && Echoes(c, J, i + |CallEvents(run, before)|, StartAndEnd(run, d), kept)
      && |CallEvents(run, tools)| == |CallEvents(run, before)| + 2
  {
    hide Echoes, StartAndEnd;
    var n := |tools| - 1;
    var before, d := tools[..n], tools[n];
    assert Results(tools) == Results(before) + [Tool(d.call.id, d.outcome)];
    StandsSplits(H, m, Results(before), [Tool(d.call.id, d.outcome)]);
    EchoSplits(c, J, i, CallEvents(run, before), StartAndEnd(run, d), kept);
    assert H[m + n] == H[m + n..m + n + 1][0];
  }

  lemma StandsFirst(H: seq<Message>, m: nat, message: Message)
    requires Stands(H, m, [message])
    ensures m < |H| && H[m] == message
  {
    assert H[m] == H[m..m + 1][0];
  }

  lemma {:induction false} CallsRead(
    H: seq<Message>, c: Checkpoint, J: seq<Event>, i: nat, m: nat, t: OpenTurn, calls: seq<ToolCall>, tools: seq<Done>)
    requires Reads(H, c, J, i, m, t, calls) && !t.started
    requires |tools| <= |calls| && forall k | 0 <= k < |tools| :: tools[k].call == calls[k]
    requires forall d | d in tools && d.outcome.Failed? :: d.outcome.output == []
    requires Stands(H, m, Results(tools)) && Echoes(c, J, i, CallEvents(t.run, tools), t.kept)
    ensures Reads(H, c, J, i + |CallEvents(t.run, tools)|, m + |tools|, t, calls[|tools|..])
    decreases |tools|
  {
    hide Reads, Echoes, Stands, Results, StartAndEnd, Completion;
    if tools == [] {
      assert calls[0..] == calls;
    } else {
      var n := |tools| - 1;
      var before, d := tools[..n], tools[n];
      LastCall(H, c, J, i, m, t.run, t.kept, tools);
      CallsRead(H, c, J, i, m, t, calls, before);
      CallReads(H, c, J, i + |CallEvents(t.run, before)|, m + n, t, calls[n..], d);
      assert calls[n..][1..] == calls[n + 1..];
    }
  }

  lemma {:induction false} ReplyReads(H: seq<Message>, c: Checkpoint, J: seq<Event>, i: nat, m: nat, t: OpenTurn,
                                      reply: Message)
    requires Reads(H, c, J, i, m, t, []) && !t.started
    requires reply.Assistant? && reply.calls != [] && FreshCalls(CallIds(H[t.start..m]), reply.calls)
    requires ValueCodec.Encode(MessageValue(reply)).Ok? && ValueCodec.Portable(MessageValue(reply))
    requires Stands(H, m, [reply])
    requires Echoes(c, J, i, [Record(t.run, AssistantReply, [], reply.text, Receipt(reply))], t.kept)
    ensures Reads(H, c, J, i + 1, m + 1, t, reply.calls)
  {
    hide VisibilityOf, Receipt, FreshCalls, CallIds, Outstanding, At, DecodeMessage, Echoes, MessageValue;
    hide ValueCodec.Encode, ValueCodec.Portable;
    assert H[m] == H[m..m + 1][0];
    ReceiptReads(reply);
    EchoesOne(c, J, i, Record(t.run, AssistantReply, [], reply.text, Receipt(reply)), t.kept);
    TurnGrows(H, t.start, m);
    OneMore(H, c, J, i);
  }

  /** The first call of a reply without a receipt, in a kept turn: its start matches the reply. */
  lemma {:induction false} FirstCallReads(
    H: seq<Message>, c: Checkpoint, J: seq<Event>, i: nat, m: nat, t: OpenTurn, reply: Message, d: Done)
    requires Reads(H, c, J, i, m, t, []) && !t.started && t.kept
    requires reply.Assistant? && reply.calls != [] && FreshCalls(CallIds(H[t.start..m]), reply.calls)
    requires reply.calls[0] == d.call && (d.outcome.Failed? ==> d.outcome.output == [])
    requires m + 1 < |H| && H[m] == reply && H[m + 1] == Tool(d.call.id, d.outcome)
    requires Echoes(c, J, i, StartAndEnd(t.run, d), t.kept)
    ensures Reads(H, c, J, i + 2, m + 2, t, reply.calls[1..])
  {
    hide VisibilityOf, DecodeFailed, Completion, FreshCalls, CallIds, Outstanding, At, DecodeMessage;
    CompletionReads(d.outcome);
    TurnGrows(H, t.start, m);
    TurnGrows(H, t.start, m + 1);
    OneMore(H, c, J, i);
    OneMore(H, c, J, i + 1);
    assert Echo(c, J[i], Start(t.run, d), t.kept);
    assert Echo(c, J[i + 1], Finish(t.run, d), t.kept);
  }

  /** The calls of a reply without a receipt, in a kept turn. */
  lemma {:induction false} OpenCallsRead(
    H: seq<Message>, c: Checkpoint, J: seq<Event>, i: nat, m: nat, t: OpenTurn, reply: Message, tools: seq<Done>)
    requires Reads(H, c, J, i, m, t, []) && !t.started && t.kept && tools != []
    requires reply.Assistant? && FreshCalls(CallIds(H[t.start..m]), reply.calls)
    requires |tools| <= |reply.calls| && forall k | 0 <= k < |tools| :: tools[k].call == reply.calls[k]
    requires forall d | d in tools && d.outcome.Failed? :: d.outcome.output == []
    requires Stands(H, m, [reply]) && Stands(H, m + 1, Results(tools))
      && Echoes(c, J, i, CallEvents(t.run, tools), t.kept)
    ensures Reads(H, c, J, i + |CallEvents(t.run, tools)|, m + 1 + |tools|, t, reply.calls[|tools|..])
    decreases |tools|
  {
    hide Reads, Echoes, Stands, Results, StartAndEnd, Completion, FreshCalls, CallIds;
    var n := |tools| - 1;
    var before, d := tools[..n], tools[n];
    LastCall(H, c, J, i, m + 1, t.run, t.kept, tools);
    StandsFirst(H, m, reply);
    if n == 0 {
      assert CallEvents(t.run, before) == [];
      FirstCallReads(H, c, J, i, m, t, reply, d);
    } else {
      OpenCallsRead(H, c, J, i, m, t, reply, before);
      CallReads(H, c, J, i + |CallEvents(t.run, before)|, m + 1 + n, t, reply.calls[n..], d);
      assert reply.calls[n..][1..] == reply.calls[n + 1..];
    }
  }

  lemma {:induction false} RoundReads(H: seq<Message>, c: Checkpoint, J: seq<Event>, i: nat, m: nat, t: OpenTurn,
                                      r: Round)
    requires Reads(H, c, J, i, m, t, []) && !t.started && RoundOk(t.run, r) && (t.kept || r.receipt)
    requires FreshCalls(CallIds(H[t.start..m]), r.Calls())
    requires Stands(H, m, RoundMessages(r)) && Echoes(c, J, i, RoundEvents(t.run, r), t.kept)
    ensures Reads(H, c, J, i + |RoundEvents(t.run, r)|, m + |RoundMessages(r)|, t, [])
  {
    hide Reads, Echoes, Receipt, FreshCalls, CallIds, MessageValue, ValueCodec.Encode, ValueCodec.Portable, CallEvents;
    RoundSplits(H, c, J, i, m, t, r);
    NoiseReads(H, c, J, i, m, t, [], r.noise);
    if r.receipt {
      ReplyReads(H, c, J, i + |r.noise|, m, t, r.Reply());
      NoiseReads(H, c, J, i + |r.noise| + 1, m + 1, t, r.Calls(), r.rest);
      CallsRead(H, c, J, i + |r.noise| + 1 + |r.rest|, m + 1, t, r.Calls(), r.tools);
    } else {
      NoiseReads(H, c, J, i + |r.noise|, m, t, [], r.rest);
      OpenCallsRead(H, c, J, i + |r.noise| + |r.rest|, m, t, r.Reply(), r.tools);
    }
    assert r.Calls()[|r.tools|..] == [];
  }

  lemma RoundSplits(H: seq<Message>, c: Checkpoint, J: seq<Event>, i: nat, m: nat, t: OpenTurn, r: Round)
    requires Stands(H, m, RoundMessages(r)) && Echoes(c, J, i, RoundEvents(t.run, r), t.kept)
    ensures Stands(H, m, [r.Reply()]) && Stands(H, m + 1, Results(r.tools))
    ensures var n := |ReceiptEvents(t.run, r)|;
      && Echoes(c, J, i, r.noise, t.kept) && Echoes(c, J, i + |r.noise| + n, r.rest, t.kept)
      && Echoes(c, J, i + |r.noise|, ReceiptEvents(t.run, r), t.kept)
      && Echoes(c, J, i + |r.noise| + n + |r.rest|, CallEvents(t.run, r.tools), t.kept)
  {
    hide Echoes, ReceiptEvents, CallEvents, Stands;
    var receipt := ReceiptEvents(t.run, r);
    EchoSplits(c, J, i, r.noise, receipt + (r.rest + CallEvents(t.run, r.tools)), t.kept);
    EchoSplits(c, J, i + |r.noise|, receipt, r.rest + CallEvents(t.run, r.tools), t.kept);
    EchoSplits(c, J, i + |r.noise| + |receipt|, r.rest, CallEvents(t.run, r.tools), t.kept);
    StandsSplits(H, m, [r.Reply()], Results(r.tools));
  }

  /** A receipt whose reply reuses an identity of the turn is not read. */
  lemma {:induction false} ReplyStalls(H: seq<Message>, c: Checkpoint, J: seq<Event>, i: nat, m: nat, t: OpenTurn,
                                       reply: Message)
    requires Reads(H, c, J, i, m, t, []) && reply.Assistant? && !FreshCalls(CallIds(H[t.start..m]), reply.calls)
    requires Stands(H, m, [reply])
    requires Echoes(c, J, i, [Record(t.run, AssistantReply, [], reply.text, Receipt(reply))], t.kept)
    ensures i < |J| && At(H, c, J[..i + 1]) == None
  {
    hide VisibilityOf, Receipt, FreshCalls, CallIds, Outstanding, At, DecodeMessage, Echoes, MessageValue;
    assert H[m] == H[m..m + 1][0];
    EchoesOne(c, J, i, Record(t.run, AssistantReply, [], reply.text, Receipt(reply)), t.kept);
    TurnGrows(H, t.start, m);
    OneMore(H, c, J, i);
  }

  /** So is the start of a call that no receipt announces, if its reply reuses an identity or the turn is elided. */
  lemma {:induction false} StartStalls(
    H: seq<Message>, c: Checkpoint, J: seq<Event>, i: nat, m: nat, t: OpenTurn, reply: Message, tools: seq<Done>)
    requires Reads(H, c, J, i, m, t, []) && reply.Assistant? && Stands(H, m, [reply]) && tools != []
    requires !t.kept || !FreshCalls(CallIds(H[t.start..m]), reply.calls)
    requires Echoes(c, J, i, CallEvents(t.run, tools), t.kept)
    ensures i < |J| && At(H, c, J[..i + 1]) == None
  {
    hide VisibilityOf, Completion, FreshCalls, CallIds, Outstanding, At, Echoes;
    assert H[m] == H[m..m + 1][0];
    FirstCallEvent(t.run, tools);
    EchoSplits(c, J, i, CallEvents(t.run, tools)[..1], CallEvents(t.run, tools)[1..], t.kept);
    EchoesOne(c, J, i, Start(t.run, tools[0]), t.kept);
    TurnGrows(H, t.start, m);
    OneMore(H, c, J, i);
  }

  lemma {:induction false} FirstCallEvent(run: seq<byte>, tools: seq<Done>)
    requires tools != []
    ensures CallEvents(run, tools) != []
    ensures var all := CallEvents(run, tools);
      all == all[..1] + all[1..] && all[..1] == [Start(run, tools[0])]
    decreases |tools|
  {
    hide Completion;
    if |tools| > 1 { FirstCallEvent(run, tools[..|tools| - 1]); }
  }

  lemma {:induction false} RoundStalls(H: seq<Message>, c: Checkpoint, J: seq<Event>, i: nat, m: nat, t: OpenTurn,
                                       r: Round)
    requires Reads(H, c, J, i, m, t, []) && !t.started && RoundOk(t.run, r)
    requires !FreshCalls(CallIds(H[t.start..m]), r.Calls()) || (!t.kept && !r.receipt)
    requires Stands(H, m, RoundMessages(r)) && Echoes(c, J, i, RoundEvents(t.run, r), t.kept)
    ensures i + |RoundEvents(t.run, r)| <= |J| && At(H, c, J[..i + |RoundEvents(t.run, r)|]) == None
  {
    hide Reads, Echoes, Receipt, FreshCalls, CallIds, MessageValue, ValueCodec.Encode, ValueCodec.Portable;
    hide CallEvents, At;
    RoundSplits(H, c, J, i, m, t, r);
    NoiseReads(H, c, J, i, m, t, [], r.noise);
    EchoesNone(c, J, i, RoundEvents(t.run, r), t.kept);
    if r.receipt {
      ReplyStalls(H, c, J, i + |r.noise|, m, t, r.Reply());
      Refused(H, c, J, i + |r.noise| + 1, i + |RoundEvents(t.run, r)|);
    } else {
      NoiseReads(H, c, J, i + |r.noise|, m, t, [], r.rest);
      StartStalls(H, c, J, i + |r.noise| + |r.rest|, m, t, r.Reply(), r.tools);
      FirstCallEvent(t.run, r.tools);
      Refused(H, c, J, i + |r.noise| + |r.rest| + 1, i + |RoundEvents(t.run, r)|);
    }
  }

  /** What has been refused stays refused. */
  lemma {:induction false} Refused(H: seq<Message>, c: Checkpoint, J: seq<Event>, i: nat, k: nat)
    requires i <= k <= |J| && At(H, c, J[..i]) == None
    ensures At(H, c, J[..k]) == None
  {
    hide At;
    assert J[..k][..i] == J[..i];
    NeverMends(H, c, J[..k], i);
  }

  /** The identities of a turn are fresh for the next reply exactly when none of them is used again. */
  lemma FreshAgain(prompt: seq<byte>, before: seq<Message>, r: Round, run: seq<byte>)
    requires RoundOk(run, r)
    ensures FreshCalls(CallIds([User(prompt)] + before), r.Calls()) <==>
      forall d | d in r.tools :: d.call.id !in CallIds(before)
  {
    hide MessageValue, ValueCodec.Encode, ValueCodec.Portable;
    SameIds(prompt, before);
    forall i | 0 <= i < |r.tools| ensures r.tools[i] in r.tools && r.Calls()[i] == r.tools[i].call {}
  }

  lemma SameIds(prompt: seq<byte>, before: seq<Message>)
    ensures CallIds([User(prompt)] + before) == CallIds(before)
  {
    var all := [User(prompt)] + before;
    assert forall m | m in all :: m == User(prompt) || m in before;
    assert forall m | m in before :: m in all;
    forall id ensures id in CallIds(all) <==> id in CallIds(before) {
      if m, call :| m in all && call in m.Calls() && call.id == id { assert m in before; }
      if m, call :| m in before && call in m.Calls() && call.id == id { assert m in all; }
    }
  }

  lemma ReadableBefore(rounds: seq<Round>, n: nat, kept: bool)
    requires |rounds| == n + 1
    ensures Readable(rounds, kept) <==>
      && Readable(rounds[..n], kept) && (kept || rounds[n].receipt)
      && forall d | d in rounds[n].tools :: d.call.id !in CallIds(RoundsMessages(rounds[..n]))
  {
    hide CallIds, RoundsMessages;
    assert rounds == rounds[..n] + [rounds[n]];
    assert forall k | 0 <= k < n :: rounds[..n][..k] == rounds[..k] && rounds[..n][k] == rounds[k];
  }

  /** Rounds are read to their end exactly when they are readable; otherwise the journal is refused. */
  lemma {:induction false} RoundsRead(
    H: seq<Message>, c: Checkpoint, J: seq<Event>, i: nat, m: nat, t: OpenTurn, prompt: seq<byte>, rounds: seq<Round>)
    requires forall r | r in rounds :: RoundOk(t.run, r)
    requires m == t.start + 1 && Reads(H, c, J, i, m, t, []) && !t.started && H[t.start] == User(prompt)
    requires Stands(H, m, RoundsMessages(rounds)) && Echoes(c, J, i, RoundsEvents(t.run, rounds), t.kept)
    ensures i + |RoundsEvents(t.run, rounds)| <= |J|
    ensures Readable(rounds, t.kept) ==>
      Reads(H, c, J, i + |RoundsEvents(t.run, rounds)|, m + |RoundsMessages(rounds)|, t, [])
    ensures !Readable(rounds, t.kept) ==> At(H, c, J[..i + |RoundsEvents(t.run, rounds)|]) == None
    decreases |rounds|
  {
    hide Reads, Echoes, FreshCalls, CallIds, RoundEvents, RoundMessages, RoundOk, Readable, At;
    EchoesNone(c, J, i, RoundsEvents(t.run, rounds), t.kept);
    if rounds == [] {
      NoRounds(rounds, t.kept);
    } else {
      var n := |rounds| - 1;
      var before, r := rounds[..n], rounds[n];
      assert r in rounds && forall x | x in before :: x in rounds;
      EchoSplits(c, J, i, RoundsEvents(t.run, before), RoundEvents(t.run, r), t.kept);
      StandsSplits(H, m, RoundsMessages(before), RoundMessages(r));
      RoundsRead(H, c, J, i, m, t, prompt, before);
      ReadableBefore(rounds, n, t.kept);
      FreshAgain(prompt, RoundsMessages(before), r, t.run);
      var next, at := m + |RoundsMessages(before)|, i + |RoundsEvents(t.run, before)|;
      assert H[t.start..next] == [User(prompt)] + H[m..next];
      if !Readable(before, t.kept) {
        Refused(H, c, J, at, i + |RoundsEvents(t.run, rounds)|);
      } else if FreshCalls(CallIds(H[t.start..next]), r.Calls()) && (t.kept || r.receipt) {
        RoundReads(H, c, J, at, next, t, r);
      } else {
        RoundStalls(H, c, J, at, next, t, r);
      }
    }
  }

  lemma NoRounds(rounds: seq<Round>, kept: bool)
    ensures rounds == [] ==> Readable(rounds, kept)
  {
  }

  lemma {:induction false} PromptReads(H: seq<Message>, c: Checkpoint, J: seq<Event>, i: nat, m: nat, t: OpenTurn,
                                       prompt: seq<byte>)
    requires i <= |J| && At(H, c, J[..i]) == Some(Position(m, None))
    requires t == OpenTurn(m, t.kept, t.run, false) && m < |H| && H[m] == User(prompt)
    requires Echoes(c, J, i, [Record(t.run, PromptAccepted, [], prompt, [])], t.kept)
    ensures Reads(H, c, J, i + 1, m + 1, t, [])
  {
    hide VisibilityOf, Echoes, At, Outstanding;
    EchoesOne(c, J, i, Record(t.run, PromptAccepted, [], prompt, []), t.kept);
    FirstOfTurn(H, m);
    OneMore(H, c, J, i);
  }

  lemma {:induction false} AnswerReads(H: seq<Message>, c: Checkpoint, J: seq<Event>, i: nat, m: nat, t: OpenTurn,
                                       answer: seq<byte>)
    requires Reads(H, c, J, i, m, t, []) && !t.started && m < |H| && H[m] == Assistant(answer, [])
    requires Echoes(c, J, i, [Record(t.run, Answer, [], answer, [])], t.kept)
    ensures i < |J| && At(H, c, J[..i + 1]) == Some(Position(m + 1, None))
  {
    hide VisibilityOf, Echoes, At, Outstanding;
    EchoesOne(c, J, i, Record(t.run, Answer, [], answer, []), t.kept);
    OneMore(H, c, J, i);
  }

  /** A failure or a cancellation is never read. */
  lemma {:induction false} FailureStalls(H: seq<Message>, c: Checkpoint, J: seq<Event>, i: nat)
    requires i < |J| && (J[i].kind.Failure? || J[i].kind.Cancelled?)
    ensures At(H, c, J[..i + 1]) == None
  {
    hide At, VisibilityOf;
    OneMore(H, c, J, i);
  }

  /** One recorded turn with an answer, or one that waits for the model, is read to its end exactly when its rounds
      are readable; a stopped turn never is. */
  lemma {:induction false} ScriptReads(
    H: seq<Message>, c: Checkpoint, J: seq<Event>, i: nat, m: nat, s: Script, kept: bool)
    requires i <= |J| && At(H, c, J[..i]) == Some(Position(m, None)) && ScriptOk(s)
    requires Stands(H, m, Messages(s)) && Echoes(c, J, i, Events(s), kept)
    ensures i + |Events(s)| <= |J| && m + |Messages(s)| <= |H|
    ensures s.end.Answered? && Readable(s.rounds, kept) ==>
      At(H, c, J[..i + |Events(s)|]) == Some(Position(m + |Messages(s)|, None))
    ensures s.end.Unfinished? && Readable(s.rounds, kept) ==>
      Reads(H, c, J, i + |Events(s)|, m + |Messages(s)|, OpenTurn(m, kept, s.run, false), [])
    ensures s.end.Stopped? || !Readable(s.rounds, kept) ==> At(H, c, J[..i + |Events(s)|]) == None
  {
    hide VisibilityOf, Echoes, At, RoundsEvents, RoundsMessages, Outstanding, RoundOk, FreshCalls, CallIds, Noise;
    hide Readable;
    var t := OpenTurn(m, kept, s.run, false);
    var prompt := Record(s.run, PromptAccepted, [], s.prompt, []);
    var answer := LastMessages(s.end);
    var rounds := RoundsEvents(s.run, s.rounds);
    assert Messages(s) == [User(s.prompt)] + (RoundsMessages(s.rounds) + answer);
    StandsSplits(H, m, [User(s.prompt)], RoundsMessages(s.rounds) + answer);
    StandsSplits(H, m + 1, RoundsMessages(s.rounds), answer);
    EchoesNone(c, J, i, Events(s), kept);
    EchoSplits(c, J, i, [prompt], rounds + (s.noise + Ending(s)), kept);
    EchoSplits(c, J, i + 1, rounds, s.noise + Ending(s), kept);
    EchoSplits(c, J, i + 1 + |rounds|, s.noise, Ending(s), kept);
    assert H[m] == H[m..m + 1][0];
    PromptReads(H, c, J, i, m, t, s.prompt);
    RoundsRead(H, c, J, i + 1, m + 1, t, s.prompt, s.rounds);
    var next, last := m + 1 + |RoundsMessages(s.rounds)|, i + 1 + |rounds| + |s.noise|;
    if s.end.Stopped? {
      EchoesOne(c, J, last, Record(s.run, s.end.kind, [], s.end.reason, []), kept);
      FailureStalls(H, c, J, last);
    } else if !Readable(s.rounds, kept) {
      Refused(H, c, J, i + 1 + |rounds|, i + |Events(s)|);
    } else {
      NoiseReads(H, c, J, i + 1 + |rounds|, next, t, [], s.noise);
      if s.end.Answered? {
        assert H[next] == H[next..next + 1][0];
        AnswerReads(H, c, J, last, next, t, s.end.text);
      }
    }
  }

  // ----- whole conversations

  function AllEvents(scripts: seq<Script>): seq<Event> {
    if scripts == [] then [] else AllEvents(scripts[..|scripts| - 1]) + Events(scripts[|scripts| - 1])
  }

  function AllMessages(scripts: seq<Script>): seq<Message> {
    if scripts == [] then [] else AllMessages(scripts[..|scripts| - 1]) + Messages(scripts[|scripts| - 1])
  }

  /** The journal is the record of the turns, and each turn is kept or elided as a whole. */
  predicate Transcribes(c: Checkpoint, J: seq<Event>, scripts: seq<Script>, kept: seq<bool>)
    requires |kept| == |scripts|
  {
    scripts == []
    || var n := |scripts| - 1;
       && Echoes(c, J, |AllEvents(scripts[..n])|, Events(scripts[n]), kept[n])
       && Transcribes(c, J, scripts[..n], kept[..n])
  }

  /** The verifier can follow these turns. */
  predicate Followable(scripts: seq<Script>, kept: seq<bool>)
    requires |kept| == |scripts|
  {
    forall i | 0 <= i < |scripts| :: scripts[i].end.Answered? && Readable(scripts[i].rounds, kept[i])
  }

  lemma FollowableBefore(scripts: seq<Script>, kept: seq<bool>, n: nat)
    requires |kept| == |scripts| == n + 1
    ensures Followable(scripts, kept) <==>
      Followable(scripts[..n], kept[..n]) && scripts[n].end.Answered? && Readable(scripts[n].rounds, kept[n])
  {
    hide Readable;
    assert forall k | 0 <= k < n :: scripts[..n][k] == scripts[k] && kept[..n][k] == kept[k];
  }

  lemma {:induction false} ConversationReads(
    H: seq<Message>, c: Checkpoint, J: seq<Event>, scripts: seq<Script>, kept: seq<bool>)
    requires |kept| == |scripts| && Transcribes(c, J, scripts, kept)
    requires forall s | s in scripts :: ScriptOk(s) && !s.end.Unfinished?
    requires Stands(H, 0, AllMessages(scripts))
    ensures |AllEvents(scripts)| <= |J|
    ensures At(H, c, J[..|AllEvents(scripts)|]) ==
      if Followable(scripts, kept) then Some(Position(|AllMessages(scripts)|, None)) else None
    decreases |scripts|
  {
    hide At, Echoes, Events, Messages, ScriptOk, Readable, Followable;
    if scripts == [] {
      NothingYet(H, c, J);
      NobodyYet(scripts, kept);
    } else {
      var n := |scripts| - 1;
      assert scripts[n] in scripts && forall s | s in scripts[..n] :: s in scripts;
      StandsSplits(H, 0, AllMessages(scripts[..n]), Messages(scripts[n]));
      ConversationReads(H, c, J, scripts[..n], kept[..n]);
      FollowableBefore(scripts, kept, n);
      EchoesNone(c, J, |AllEvents(scripts[..n])|, Events(scripts[n]), kept[n]);
      if Followable(scripts[..n], kept[..n]) {
        ScriptReads(H, c, J, |AllEvents(scripts[..n])|, |AllMessages(scripts[..n])|, scripts[n], kept[n]);
      } else {
        Refused(H, c, J, |AllEvents(scripts[..n])|, |AllEvents(scripts)|);
      }
    }
  }

  lemma NobodyYet(scripts: seq<Script>, kept: seq<bool>)
    requires |kept| == |scripts|
    ensures scripts == [] ==> Followable(scripts, kept)
  {
  }

  lemma {:induction false} NothingYet(H: seq<Message>, c: Checkpoint, J: seq<Event>)
    ensures At(H, c, J[..0]) == Some(Position(0, None))
  {
  }

  /** A recorded conversation, with finished turns kept or elided as wholes and the current one kept, is read
      to its end exactly when every finished turn was answered, no turn uses a call identity twice, and no elided
      turn lacks a receipt. */
  lemma {:induction false} RecordedIsCurrent(
    a: ModelRequest, c: Checkpoint, J: seq<Event>, scripts: seq<Script>, kept: seq<bool>, current: Script)
    requires |kept| == |scripts| && Transcribes(c, J, scripts, kept)
    requires forall s | s in scripts :: ScriptOk(s) && !s.end.Unfinished?
    requires ScriptOk(current) && current.end.Unfinished? && current.run == a.run
    requires Echoes(c, J, |AllEvents(scripts)|, Events(current), true)
    requires |J| == |AllEvents(scripts)| + |Events(current)|
    requires a.history == AllMessages(scripts) + Messages(current)
    requires current.rounds != [] ==> current.noise != [] && current.noise[|current.noise| - 1].kind.ModelStarted?
    ensures Current(a, c, J) <==> Followable(scripts, kept) && Readable(current.rounds, true)
  {
    hide At, Echoes, ScriptOk, Events, Messages, AllEvents, AllMessages, Transcribes, Outstanding, Readable, Followable;
    var H := a.history;
    assert H[0..|H|] == H && J[..|J|] == J;
    StandsSplits(H, 0, AllMessages(scripts), Messages(current));
    ConversationReads(H, c, J, scripts, kept);
    if Followable(scripts, kept) {
      ScriptReads(H, c, J, |AllEvents(scripts)|, |AllMessages(scripts)|, current, true);
      LastSaid(current);
      assert H[|H| - 1] == Messages(current)[|Messages(current)| - 1];
      if current.rounds != [] { LastNoise(c, J, |AllEvents(scripts)|, current); }
    } else {
      Refused(H, c, J, |AllEvents(scripts)|, |J|);
    }
  }

  /** A turn that the agent records and the verifier refuses: two replies with a call of the same identity.
      Each reply alone is in order. */
  lemma {:induction false} RepeatedIdentity() returns (s: Script)
    ensures ScriptOk(s) && s.end.Unfinished? && |s.rounds| == 2 && !Fresh(s.rounds)
    ensures Fresh(s.rounds[..1]) && Fresh(s.rounds[1..])
  {
    var call := ToolCall(Ascii("c"), Ascii("t"), []);
    var round := Round([], [], true, [], [Done(call, Succeeded([]))]);
    s := Script([], [], [round, round], [], Unfinished);
    SmallReply(call);
    assert round.Calls() == [call];
    assert s.rounds[..1] == [round] && s.rounds[..1][..0] == [];
    assert RoundsMessages([round]) == RoundMessages(round);
    assert RoundsMessages([round])[0] == round.Reply() && call in round.Reply().Calls();
    assert call.id in CallIds(RoundsMessages(s.rounds[..1]));
    assert s.rounds[1].tools[0] in s.rounds[1].tools;
  }

  lemma {:induction false} FieldSize(fields: seq<Field>)
    requires fields != []
    ensures |ValueCodec.WireFields(fields)| ==
      4 + |fields[0].key| + |ValueCodec.Wire(fields[0].value)| + |ValueCodec.WireFields(fields[1..])|
  {
  }

  lemma TextSize(text: seq<byte>)
    ensures |ValueCodec.Wire(String(text))| == 5 + |text|
  {
  }

  lemma {:induction false} MapSize(fields: seq<Field>)
    ensures |ValueCodec.Wire(Map(fields))| == 5 + |ValueCodec.WireFields(fields)|
  {
  }

  lemma {:induction false} OneItemSize(item: Value)
    ensures |ValueCodec.Wire(List([item]))| == 5 + |ValueCodec.Wire(item)|
  {
    assert ValueCodec.WireItems([item]) == ValueCodec.Wire(item) + ValueCodec.WireItems([item][1..]);
  }

  lemma {:induction false} SmallReply(call: ToolCall)
    requires call == ToolCall(Ascii("c"), Ascii("t"), [])
    ensures ValueCodec.Portable(MessageValue(Assistant([], [call])))
    ensures ValueCodec.Encode(MessageValue(Assistant([], [call]))).Ok?
  {
    hide ValueCodec.Wire, ValueCodec.WireFields, Utf8, Less, ValueCodec.Fits;
    SmallPortable(call);
    SmallFits(call);
    var calls := seq(1, i requires 0 <= i < 1 => CallValue([call][i]));
    assert calls == [CallValue(call)];
    var c := [Field(Ascii("arguments"), String([])), Field(Ascii("id"), String(Ascii("c"))),
      Field(Ascii("tool"), String(Ascii("t")))];
    var inner := [Field(Ascii("calls"), List(calls)), Field(Ascii("text"), String([]))];
    var outer := [Field(Ascii("Assistant"), Map(inner))];
    TextSize([]);
    TextSize(Ascii("c"));
    TextSize(Ascii("t"));
    FieldSize(c);
    FieldSize(c[1..]);
    FieldSize(c[2..]);
    MapSize(c);
    OneItemSize(Map(c));
    FieldSize(inner);
    FieldSize(inner[1..]);
    MapSize(inner);
    FieldSize(outer);
    MapSize(outer);
    NoFields(c[3..], inner[2..], outer[1..]);
    assert c[1..][1..] == c[2..] && c[2..][1..] == c[3..] && inner[1..][1..] == inner[2..];
    Letters();
  }

  lemma {:induction false} NoFields(a: seq<Field>, b: seq<Field>, c: seq<Field>)
    ensures a == [] ==> ValueCodec.WireFields(a) == []
    ensures b == [] ==> ValueCodec.WireFields(b) == []
    ensures c == [] ==> ValueCodec.WireFields(c) == []
  {
  }

  lemma Letters()
    ensures |Ascii("arguments")| == 9 && |Ascii("id")| == 2 && |Ascii("tool")| == 4 && |Ascii("calls")| == 5
    ensures |Ascii("text")| == 4 && |Ascii("Assistant")| == 9 && |Ascii("c")| == 1 && |Ascii("t")| == 1
  {
  }

  lemma {:induction false} SmallPortable(call: ToolCall)
    requires call == ToolCall(Ascii("c"), Ascii("t"), [])
    ensures ValueCodec.Portable(MessageValue(Assistant([], [call])))
  {
    hide Utf8, Less, Ascii;
    NoText();
    AsciiIsText("c");
    AsciiIsText("t");
    AsciiIsText("arguments");
    AsciiIsText("id");
    AsciiIsText("tool");
    AsciiIsText("calls");
    AsciiIsText("text");
    AsciiIsText("Assistant");
    InOrder();
    var calls := seq(1, i requires 0 <= i < 1 => CallValue([call][i]));
    assert ValueCodec.Portable(CallValue(call));
    assert ValueCodec.Portable(List(calls));
    var inner := [Field(Ascii("calls"), List(calls)), Field(Ascii("text"), String([]))];
    assert ValueCodec.Portable(Map(inner));
    assert ValueCodec.Portable(Map([Field(Ascii("Assistant"), Map(inner))]));
  }

  lemma InOrder()
    ensures Less(Ascii("arguments"), Ascii("id")) && Less(Ascii("id"), Ascii("tool"))
      && Less(Ascii("calls"), Ascii("text"))
  {
    FirstLess(Ascii("arguments"), Ascii("id"));
    FirstLess(Ascii("id"), Ascii("tool"));
    FirstLess(Ascii("calls"), Ascii("text"));
  }

  lemma NoText()
    ensures Utf8([])
  {
  }

  lemma {:induction false} SmallFits(call: ToolCall)
    requires call == ToolCall(Ascii("c"), Ascii("t"), [])
    ensures ValueCodec.Fits(MessageValue(Assistant([], [call])), 0)
  {
    Letters();
    var calls := seq(1, i requires 0 <= i < 1 => CallValue([call][i]));
    assert ValueCodec.Fits(CallValue(call), 3);
    assert ValueCodec.Fits(List(calls), 2);
  }

  lemma LastSaid(s: Script)
    ensures Messages(s) != []
    ensures s.rounds == [] && s.end.Unfinished? ==> Messages(s)[|Messages(s)| - 1].User?
  {
  }

  lemma LastNoise(c: Checkpoint, J: seq<Event>, i: nat, s: Script)
    requires Echoes(c, J, i, Events(s), true) && |J| == i + |Events(s)| && s.end.Unfinished? && s.noise != []
    ensures J != [] && J[|J| - 1].kind == s.noise[|s.noise| - 1].kind
  {
    hide RoundsEvents, VisibilityOf;
    var all := Events(s);
    assert all[|all| - 1] == s.noise[|s.noise| - 1];
    assert Echo(c, J[|J| - 1], all[|J| - 1 - i], true);
  }
}
