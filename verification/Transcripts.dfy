/** The reference reading of a journal beside an authoritative history. */
module Transcripts {
  import opened Bytes
  import opened Checkpoints
  import opened Conversations
  import opened Replay
  import opened Wrappers
  import ValueCodec

  // ----- the grammar of a turn

  function CallIds(turn: seq<Message>): set<seq<byte>> {
    set m, call | m in turn && call in m.Calls() :: call.id
  }

  /** Every call has an identity of its own, unused so far. */
  predicate FreshCalls(used: set<seq<byte>>, calls: seq<ToolCall>) {
    && (forall i | 0 <= i < |calls| :: calls[i].id != [] && calls[i].id !in used)
    && (forall i, j | 0 <= i < j < |calls| :: calls[i].id != calls[j].id)
  }

  /** The calls that still wait for a result after some messages of a turn; nothing when the messages
      are no turn. A turn begins with the user; with no call waiting the assistant may ask for calls,
      and with calls waiting only the result of the first one may come. */
  function Outstanding(turn: seq<Message>): Option<seq<ToolCall>> {
    if turn == [] then None
    else if |turn| == 1 then if turn[0].User? then Some([]) else None
    else
      var before, m := turn[..|turn| - 1], turn[|turn| - 1];
      match Outstanding(before)
      case None => None
      case Some(waiting) =>
        if waiting == [] then
          if m.Assistant? && m.calls != [] && FreshCalls(CallIds(before), m.calls) then Some(m.calls) else None
        else if m.Tool? && m.callId == waiting[0].id then Some(waiting[1..])
        else None
  }

  /** A finished turn ends with an answer that asks for nothing. */
  predicate WholeTurn(turn: seq<Message>) {
    && |turn| > 1 && Outstanding(turn[..|turn| - 1]) == Some([])
    && turn[|turn| - 1].Assistant? && turn[|turn| - 1].calls == []
  }

  // ----- reading the journal

  /** A turn that has begun at message `start`; `started` when a tool is at work. */
  datatype OpenTurn = OpenTurn(start: nat, kept: bool, run: seq<byte>, started: bool)

  datatype Position = Position(matched: nat, open: Option<OpenTurn>)

  function ResultOf(e: Event): Option<Message> {
    match DecodeFailed(e.data)
    case None => None
    case Some(true) => Some(Tool(e.callId, Failed([], e.text)))
    case Some(false) => Some(Tool(e.callId, Succeeded(e.text)))
  }

  /** The message after the matched ones continues the open turn. */
  predicate Continues(H: seq<Message>, p: Position)
    requires p.open.Some?
  {
    p.open.value.start <= p.matched < |H| && Outstanding(H[p.open.value.start..p.matched + 1]).Some?
  }

  /** The message after the matched ones asks for calls. */
  predicate Asks(H: seq<Message>, p: Position)
    requires p.open.Some?
  {
    Waiting(H, p) == [] && Continues(H, p) && H[p.matched].Assistant? && H[p.matched].calls != []
  }

  /** The calls that wait in the open turn. */
  function Waiting(H: seq<Message>, p: Position): seq<ToolCall>
    requires p.open.Some?
  {
    if p.open.value.start <= p.matched <= |H| && Outstanding(H[p.open.value.start..p.matched]).Some?
    then Outstanding(H[p.open.value.start..p.matched]).value else []
  }

  predicate Shown(c: Checkpoint, e: Event) { VisibilityOf(c, e) == Retained }

  /** What one event says about the history: an accepted prompt opens a turn, a receipt or the first
      start of an unrecorded reply matches an assistant message, an end matches a tool result, an
      answer closes the turn. */
  function Next(H: seq<Message>, c: Checkpoint, p: Position, e: Event): Option<Position> {
    var m, kept := p.matched, Shown(c, e);
    if e.kind.PromptAccepted? then
      if p.open.None? && m < |H| && H[m] == User(e.text)
      then Some(Position(m + 1, Some(OpenTurn(m, kept, e.run, false)))) else None
    else if p.open.None? || p.open.value.run != e.run then None
    else
      var t := p.open.value;
      match e.kind
      case ModelStarted => Some(p)
      case TextDelta => Some(p)
      case AssistantReply =>
        if kept == t.kept && !t.started && Asks(H, p) && H[m].text == e.text && DecodeMessage(e.data) == Some(H[m])
        then Some(Position(m + 1, p.open)) else None
      case ToolStarted =>
        if kept != t.kept || t.started then None
        else if Waiting(H, p) != [] then
          if Waiting(H, p)[0].id == e.callId && Waiting(H, p)[0].tool == e.text
          then Some(Position(m, Some(t.(started := true)))) else None
        else if kept && Asks(H, p) && H[m].calls[0].id == e.callId && H[m].calls[0].tool == e.text
        then Some(Position(m + 1, Some(t.(started := true)))) else None
      case ToolFinished =>
        if kept == t.kept && t.started && Continues(H, p) && ResultOf(e) == Some(H[m])
        then Some(Position(m + 1, Some(t.(started := false)))) else None
      case Answer =>
        if kept == t.kept && !t.started && Waiting(H, p) == [] && m < |H| && H[m] == Assistant(e.text, [])
        then Some(Position(m + 1, None)) else None
      case _ => None
  }

  /** How far a journal reads the history; nothing when the two do not align. */
  function At(H: seq<Message>, c: Checkpoint, events: seq<Event>): Option<Position> {
    if events == [] then Some(Position(0, None))
    else
      match At(H, c, events[..|events| - 1])
      case None => None
      case Some(p) => Next(H, c, p, events[|events| - 1])
  }

  /** A position makes sense: its open turn is a turn so far, and a tool at work answers a call. */
  predicate Sound(H: seq<Message>, p: Position) {
    && p.matched <= |H|
    && (p.open.Some? ==>
          && p.open.value.start < p.matched
          && Outstanding(H[p.open.value.start..p.matched]).Some?
          && (p.open.value.started ==> Waiting(H, p) != []))
  }

  /** The messages that the kept events match, in order. */
  function KeptSoFar(H: seq<Message>, c: Checkpoint, events: seq<Event>): seq<Message> {
    if events == [] then []
    else
      var prefix, e := events[..|events| - 1], events[|events| - 1];
      KeptSoFar(H, c, prefix)
      + if Matches(H, c, events) && Shown(c, e) then [H[At(H, c, prefix).value.matched]] else []
  }

  /** The last of the events matches a message. */
  predicate Matches(H: seq<Message>, c: Checkpoint, events: seq<Event>)
    requires events != []
  {
    var before, after := At(H, c, events[..|events| - 1]), At(H, c, events);
    after.Some? && before.Some? && before.value.matched < after.value.matched <= |H|
  }

  // ----- positions stay sound

  lemma {:induction false} TurnGrows(H: seq<Message>, start: nat, m: nat)
    requires start < m < |H|
    ensures H[start..m + 1] == H[start..m] + [H[m]]
    ensures Outstanding(H[start..m]).Some? ==>
      var waiting := Outstanding(H[start..m]).value;
      Outstanding(H[start..m + 1]) ==
        if waiting == [] then
          if H[m].Assistant? && H[m].calls != [] && FreshCalls(CallIds(H[start..m]), H[m].calls)
          then Some(H[m].calls) else None
        else if H[m].Tool? && H[m].callId == waiting[0].id then Some(waiting[1..])
        else None
  {
    assert H[start..m + 1][..m - start] == H[start..m];
  }

  lemma FirstOfTurn(H: seq<Message>, m: nat)
    ensures m < |H| && H[m].User? ==> Outstanding(H[m..m + 1]) == Some([])
  {
  }

  lemma {:induction false} NextSound(H: seq<Message>, c: Checkpoint, p: Position, e: Event)
    requires Sound(H, p) && Next(H, c, p, e).Some?
    ensures Sound(H, Next(H, c, p, e).value)
    ensures p.matched <= Next(H, c, p, e).value.matched <= p.matched + 1
  {
    hide VisibilityOf, DecodeMessage, ResultOf, FreshCalls, CallIds, Outstanding;
    FirstOfTurn(H, p.matched);
    if p.matched < |H| {
      if p.open.Some? { TurnGrows(H, p.open.value.start, p.matched); }
    }
  }

  lemma {:induction false} AtSound(H: seq<Message>, c: Checkpoint, events: seq<Event>)
    requires At(H, c, events).Some?
    ensures Sound(H, At(H, c, events).value) && At(H, c, events).value.matched <= |events|
    decreases |events|
  {
    hide Next, Sound;
    if events == [] {
      NothingRead(H);
    } else {
      var prefix := events[..|events| - 1];
      AtSound(H, c, prefix);
      NextSound(H, c, At(H, c, prefix).value, events[|events| - 1]);
    }
  }

  lemma NothingRead(H: seq<Message>)
    ensures Sound(H, Position(0, None))
  {
  }

  /** One more event. */
  lemma {:induction false} OneMore(H: seq<Message>, c: Checkpoint, events: seq<Event>, i: nat)
    requires i < |events|
    ensures At(H, c, events[..i + 1]) ==
      if At(H, c, events[..i]).None? then None else Next(H, c, At(H, c, events[..i]).value, events[i])
    ensures At(H, c, events[..i + 1]).Some? ==>
      var more, m := Matches(H, c, events[..i + 1]), At(H, c, events[..i]).value.matched;
      && more == (m < At(H, c, events[..i + 1]).value.matched)
      && KeptSoFar(H, c, events[..i + 1]) ==
           KeptSoFar(H, c, events[..i]) + (if more && Shown(c, events[i]) then [H[m]] else [])
  {
    hide Next, Shown;
    assert events[..i + 1][..i] == events[..i];
    if At(H, c, events[..i + 1]).Some? {
      AtSound(H, c, events[..i + 1]);
      AtSound(H, c, events[..i]);
    }
  }

  /** What does not align cannot be mended later. */
  lemma {:induction false} NeverMends(H: seq<Message>, c: Checkpoint, events: seq<Event>, i: nat)
    requires i <= |events| && At(H, c, events[..i]).None?
    ensures At(H, c, events).None?
    decreases |events| - i
  {
    hide Next;
    if i < |events| {
      OneMore(H, c, events, i);
      NeverMends(H, c, events, i + 1);
    } else {
      assert events[..i] == events;
    }
  }

  // ----- turns

  /** Messages `from` to `to` of the history. */
  datatype Turn = Turn(from: nat, to: nat, kept: bool)

  /** The turns that the events close. */
  function Turns(H: seq<Message>, c: Checkpoint, events: seq<Event>): seq<Turn> {
    if events == [] then []
    else
      var prefix := events[..|events| - 1];
      var before, after := At(H, c, prefix), At(H, c, events);
      Turns(H, c, prefix)
      + if before.Some? && after.Some? && before.value.open.Some? && after.value.open.None?
        then [Turn(before.value.open.value.start, after.value.matched, before.value.open.value.kept)]
        else []
  }

  /** The turns follow one another from the first message to message `end`. */
  predicate Consecutive(turns: seq<Turn>, end: nat) {
    if turns == [] then end == 0
    else
      && turns[|turns| - 1].from < turns[|turns| - 1].to == end
      && Consecutive(turns[..|turns| - 1], turns[|turns| - 1].from)
  }

  predicate TurnOk(H: seq<Message>, t: Turn) { t.from < t.to <= |H| && WholeTurn(H[t.from..t.to]) }

  /** The kept turns, one after the other. */
  function Kept(H: seq<Message>, turns: seq<Turn>): seq<Message> {
    if turns == [] then []
    else
      var t := turns[|turns| - 1];
      Kept(H, turns[..|turns| - 1]) + if t.kept && t.from <= t.to <= |H| then H[t.from..t.to] else []
  }

  /** The part of the open turn that has been matched. */
  function OpenPart(H: seq<Message>, p: Position): seq<Message> {
    if p.open.Some? && p.open.value.start <= p.matched <= |H| then H[p.open.value.start..p.matched] else []
  }

  /** The history read so far is `turns` and the open turn, and `shown` is the kept part of it. */
  predicate Cut(H: seq<Message>, p: Position, turns: seq<Turn>, shown: seq<Message>) {
    && Consecutive(turns, if p.open.Some? then p.open.value.start else p.matched)
    && (forall t | t in turns :: TurnOk(H, t))
    && shown == Kept(H, turns) + if p.open.Some? && p.open.value.kept then OpenPart(H, p) else []
  }

  /** Conversation turns stay whole. The history read so far is cut into finished turns and at most one
      open turn; what the kept events match is exactly the concatenation of the kept turns and of the
      open one, when it is kept. */
  lemma {:induction false} TurnsStayWhole(H: seq<Message>, c: Checkpoint, events: seq<Event>)
    requires At(H, c, events).Some?
    ensures Cut(H, At(H, c, events).value, Turns(H, c, events), KeptSoFar(H, c, events))
    decreases |events|
  {
    hide Next, Cut, Shown;
    if events == [] {
      NothingCut(H);
    } else {
      var n := |events| - 1;
      var before := events[..n];
      TurnsStayWhole(H, c, before);
      AtSound(H, c, before);
      AtSound(H, c, events);
      CutStep(H, c, At(H, c, before).value, events[n], Turns(H, c, before), KeptSoFar(H, c, before));
    }
  }

  lemma NothingCut(H: seq<Message>)
    ensures Cut(H, Position(0, None), [], [])
  {
  }

  lemma {:induction false} CutStep(H: seq<Message>, c: Checkpoint, p: Position, e: Event, turns: seq<Turn>,
                                   shown: seq<Message>)
    requires Sound(H, p) && Next(H, c, p, e).Some? && Cut(H, p, turns, shown)
    ensures var q := Next(H, c, p, e).value;
      Cut(H, q,
          turns + (if p.open.Some? && q.open.None? then [Turn(p.open.value.start, q.matched, p.open.value.kept)]
            else []),
          shown + (if p.matched < q.matched <= |H| && Shown(c, e) then [H[p.matched]] else []))
  {
    hide Next, TurnOk, Shown, OpenPart;
    var q := Next(H, c, p, e).value;
    NextSound(H, c, p, e);
    TurnStep(H, c, p, e);
    var kept, open := Kept(H, turns), OpenPart(H, p);
    assert turns + [] == turns && shown + [] == shown && kept + [] == kept;
    if p.open.Some? && q.open.Some? {
      var x := if p.matched < q.matched <= |H| then [H[p.matched]] else [];
      assert (kept + open) + x == kept + (open + x);
      assert open + [] == open;
    } else if p.open.Some? {
      var t := Turn(p.open.value.start, q.matched, p.open.value.kept);
      assert (turns + [t])[..|turns|] == turns;
      assert H[t.from..t.to] == open + [H[p.matched]];
      assert (kept + open) + [H[p.matched]] == kept + (open + [H[p.matched]]);
    }
  }

  /** One event opens, continues or closes a turn. */
  lemma {:induction false} TurnStep(H: seq<Message>, c: Checkpoint, p: Position, e: Event)
    requires Sound(H, p) && Next(H, c, p, e).Some?
    ensures var q := Next(H, c, p, e).value;
      && (p.open.Some? && q.open.Some? ==>
            && q.open.value.start == p.open.value.start && q.open.value.kept == p.open.value.kept
            && OpenPart(H, q) == OpenPart(H, p) + (if p.matched < q.matched <= |H| then [H[p.matched]] else []))
      && (p.open.None? ==>
            && q.open.Some? && q.open.value.start == p.matched && q.open.value.kept == Shown(c, e)
            && q.matched == p.matched + 1 <= |H| && OpenPart(H, q) == [H[p.matched]])
      && (p.open.Some? && q.open.None? ==>
            && q.matched == p.matched + 1 <= |H|
            && TurnOk(H, Turn(p.open.value.start, q.matched, p.open.value.kept))
            && H[p.open.value.start..q.matched] == OpenPart(H, p) + [H[p.matched]])
      && (p.open.Some? && p.matched < q.matched ==> Shown(c, e) == p.open.value.kept)
  {
    hide VisibilityOf, DecodeMessage, ResultOf, FreshCalls, CallIds, Outstanding;
    NextSound(H, c, p, e);
    if p.matched < |H| && p.open.Some? {
      var start := p.open.value.start;
      TurnGrows(H, start, p.matched);
      assert H[start..p.matched + 1][..p.matched - start] == H[start..p.matched];
    }
  }

  /** In a turn where no call waits, the last word is the user's or a tool's. */
  lemma {:induction false} LastWord(turn: seq<Message>)
    requires Outstanding(turn) == Some([])
    ensures turn != [] && (turn[|turn| - 1].User? || turn[|turn| - 1].Tool?)
  {
  }

  /** Each call of a turn in which none waits any more has its result, in the order of the calls,
      directly after the message that asked. */
  lemma {:induction false} ResultsFollowCalls(turn: seq<Message>, i: nat, j: nat)
    requires Outstanding(turn) == Some([]) && i < |turn| && turn[i].Assistant? && j < |turn[i].calls|
    ensures i + 1 + j < |turn| && turn[i + 1 + j].Tool? && turn[i + 1 + j].callId == turn[i].calls[j].id
  {
    assert turn[..|turn|] == turn;
    WaitingSince(turn, i, |turn|);
    var n := i + 1 + |turn[i].calls|;
    assert |turn| >= n;
    WaitingSince(turn, i, i + 2 + j);
  }

  /** Until its calls are answered, what waits after an assistant message is the rest of its calls. */
  lemma {:induction false} WaitingSince(turn: seq<Message>, i: nat, n: nat)
    requires i < n <= |turn| && Outstanding(turn).Some? && turn[i].Assistant?
    ensures Outstanding(turn[..n]).Some?
    ensures n - i - 1 <= |turn[i].calls| ==> Outstanding(turn[..n]) == Some(turn[i].calls[n - i - 1..])
    ensures 1 < n - i <= |turn[i].calls| + 1 ==>
      turn[n - 1].Tool? && turn[n - 1].callId == turn[i].calls[n - i - 2].id
    decreases n
  {
    hide FreshCalls, CallIds;
    PrefixOutstanding(turn, n);
    assert turn[..n][..n - 1] == turn[..n - 1];
    if n > i + 1 {
      WaitingSince(turn, i, n - 1);
    }
  }

  lemma {:induction false} PrefixOutstanding(turn: seq<Message>, n: nat)
    requires 0 < n <= |turn| && Outstanding(turn).Some?
    ensures Outstanding(turn[..n]).Some?
    decreases |turn|
  {
    if n < |turn| {
      PrefixOutstanding(turn[..|turn| - 1], n);
      assert turn[..|turn| - 1][..n] == turn[..n];
    } else {
      assert turn[..n] == turn;
    }
  }

  // ----- the source of each message

  /** What the journal must record for a message to be matched. */
  predicate Tells(c: Checkpoint, e: Event, m: Message) {
    match m
    case User(text) => e.kind.PromptAccepted? && e.text == text
    case Tool(_, _) => e.kind.ToolFinished? && ResultOf(e) == Some(m)
    case Assistant(text, calls) =>
      if calls == [] then e.kind.Answer? && e.text == text
      else
        || (e.kind.AssistantReply? && e.text == text && DecodeMessage(e.data) == Some(m))
        || (e.kind.ToolStarted? && Shown(c, e) && calls[0].id == e.callId && calls[0].tool == e.text)
  }

  /** The events that match the messages, in order. */
  function Sources(H: seq<Message>, c: Checkpoint, events: seq<Event>): seq<nat> {
    if events == [] then []
    else Sources(H, c, events[..|events| - 1]) + if Matches(H, c, events) then [|events| - 1] else []
  }

  /** `sources` are the events that tell the first `m` messages, and no speaking event is left out. */
  predicate Told(H: seq<Message>, c: Checkpoint, events: seq<Event>, m: nat, sources: seq<nat>) {
    && |sources| == m <= |H|
    && (forall k | 0 <= k < m :: sources[k] < |events| && Tells(c, events[sources[k]], H[k]))
    && (forall j, k | 0 <= j < k < m :: sources[j] < sources[k])
    && (forall i | 0 <= i < |events| && Speaks(events[i]) :: i in sources)
  }

  /** Events that always stand for a message of the history. */
  predicate Speaks(e: Event) {
    e.kind.PromptAccepted? || e.kind.AssistantReply? || e.kind.ToolFinished? || e.kind.Answer?
  }

  /** Each message is matched exactly once: the k-th message by the k-th of the matching events, which
      records it, and no prompt, receipt, result or answer of the journal is left over. */
  lemma {:induction false} EachMessageOnce(H: seq<Message>, c: Checkpoint, events: seq<Event>)
    requires At(H, c, events).Some?
    ensures Told(H, c, events, At(H, c, events).value.matched, Sources(H, c, events))
    decreases |events|
  {
    hide Next, Told, Speaks, Tells;
    if events == [] {
      NothingTold(H, c);
    } else {
      var n := |events| - 1;
      EachMessageOnce(H, c, events[..n]);
      AtSound(H, c, events[..n]);
      AtSound(H, c, events);
      NextSound(H, c, At(H, c, events[..n]).value, events[n]);
      MatchTells(H, c, At(H, c, events[..n]).value, events[n]);
      ToldStep(H, c, events, At(H, c, events[..n]).value.matched, Sources(H, c, events[..n]), Matches(H, c, events));
    }
  }

  lemma NothingTold(H: seq<Message>, c: Checkpoint)
    ensures Told(H, c, [], 0, [])
  {
  }

  lemma ToldStep(H: seq<Message>, c: Checkpoint, events: seq<Event>, m: nat, sources: seq<nat>, more: bool)
    requires events != [] && Told(H, c, events[..|events| - 1], m, sources)
    requires more ==> m < |H| && Tells(c, events[|events| - 1], H[m])
    requires Speaks(events[|events| - 1]) ==> more
    ensures var after := sources + if more then [|events| - 1] else [];
      Told(H, c, events, if more then m + 1 else m, after)
  {
    hide Speaks, Tells;
    var n := |events| - 1;
    var after := sources + if more then [n] else [];
    assert forall i | 0 <= i < n :: events[..n][i] == events[i];
    forall i | 0 <= i < |events| && Speaks(events[i]) ensures i in after {
      if i < n { assert Speaks(events[..n][i]) && i in sources; } else { assert after[m] == i; }
    }
  }

  lemma {:induction false} MatchTells(H: seq<Message>, c: Checkpoint, p: Position, e: Event)
    requires Sound(H, p) && Next(H, c, p, e).Some?
    ensures var q := Next(H, c, p, e).value;
      && (Speaks(e) ==> p.matched < q.matched)
      && (p.matched < q.matched ==> q.matched == p.matched + 1 <= |H| && Tells(c, e, H[p.matched]))
  {
    hide VisibilityOf, DecodeMessage, FreshCalls, CallIds, Outstanding, DecodeFailed;
  }

  // ----- the calls of the tools

  /** The calls that the messages ask for, in order. */
  function CallsOf(H: seq<Message>): seq<ToolCall> {
    if H == [] then [] else CallsOf(H[..|H| - 1]) + H[|H| - 1].Calls()
  }

  /** The events of a kind, in order. */
  function OfKind(events: seq<Event>, kind: EventKind): (indices: seq<nat>)
    ensures forall i: nat :: i in indices <==> i < |events| && events[i].kind == kind
    ensures forall j, k | 0 <= j < k < |indices| :: indices[j] < indices[k]
  {
    if events == [] then []
    else
      var n := |events| - 1;
      var before := OfKind(events[..n], kind);
      assert forall k | 0 <= k < |before| :: before[k] in before;
      if events[n].kind == kind then
        assert forall i: nat :: i in before + [n] <==> i in before || i == n;
        before + [n]
      else before
  }

  /** The k-th of `starts` is the start and the k-th of `ends` the end of the k-th call. A call starts only when
      the one before it has ended, and it ends on the same side on which it started. */
  predicate InTurn(c: Checkpoint, events: seq<Event>, calls: seq<ToolCall>, starts: seq<nat>, ends: seq<nat>) {
    && |ends| <= |starts| <= |ends| + 1 && |starts| <= |calls|
    && (forall k | 0 <= k < |starts| ::
          && starts[k] < |events| && events[starts[k]].callId == calls[k].id && events[starts[k]].text == calls[k].tool)
    && (forall k | 0 <= k < |ends| ::
          && starts[k] < ends[k] < |events| && events[ends[k]].callId == calls[k].id
          && Shown(c, events[starts[k]]) == Shown(c, events[ends[k]]))
    && (forall k | 0 < k < |starts| :: ends[k - 1] < starts[k])
  }

  predicate Started(p: Position) { p.open.Some? && p.open.value.started }

  /** The calls that wait, if a turn is open. */
  function Left(H: seq<Message>, p: Position): seq<ToolCall> { if p.open.Some? then Waiting(H, p) else [] }

  /** ... and the calls `left` have not ended; the first of them has started if a tool is at work. */
  predicate Unended(c: Checkpoint, events: seq<Event>, p: Position, calls: seq<ToolCall>, left: seq<ToolCall>,
                    starts: seq<nat>, ends: seq<nat>)
  {
    && |ends| <= |calls| && calls[|ends|..] == left
    && |starts| == |ends| + (if Started(p) then 1 else 0)
    && (Started(p) ==>
          starts[|ends|] < |events| && Shown(c, events[starts[|ends|]]) == p.open.value.kept)
  }

  /** What an event does to the calls that wait: `more` is what the message it matches asks for. */
  predicate Moves(c: Checkpoint, p: Position, q: Position, e: Event, left: seq<ToolCall>, more: seq<ToolCall>,
                  rest: seq<ToolCall>)
  {
    if e.kind == ToolFinished then
      && Started(p) && !Started(q) && more == [] && left != [] && rest == left[1..]
      && e.callId == left[0].id && Shown(c, e) == p.open.value.kept
    else
      && rest == left + more
      && if e.kind == ToolStarted then
           && !Started(p) && Started(q) && rest != [] && e.callId == rest[0].id && e.text == rest[0].tool
           && Shown(c, e) == q.open.value.kept
         else Started(p) == Started(q) && (Started(p) ==> q.open.value.kept == p.open.value.kept)
  }

  lemma {:induction false} NextMoves(H: seq<Message>, c: Checkpoint, p: Position, e: Event)
    requires Sound(H, p) && Next(H, c, p, e).Some?
    ensures var q := Next(H, c, p, e).value;
      && p.matched <= q.matched <= p.matched + 1 && q.matched <= |H|
      && Moves(c, p, q, e, Left(H, p), if p.matched < q.matched then H[p.matched].Calls() else [], Left(H, q))
  {
    hide VisibilityOf, DecodeMessage, DecodeFailed, FreshCalls, CallIds, Outstanding, Shown;
    NextSound(H, c, p, e);
    FirstOfTurn(H, p.matched);
    if p.matched < |H| && p.open.Some? { TurnGrows(H, p.open.value.start, p.matched); }
  }

  lemma CallsGrow(H: seq<Message>, m: nat)
    requires m < |H|
    ensures CallsOf(H[..m + 1]) == CallsOf(H[..m]) + H[m].Calls()
  {
    assert H[..m + 1][..m] == H[..m];
  }

  /** The starts of a journal are those of the calls of the history, one by one and in order: each carries the
      identity and the tool of its own call, and only when a call has ended the next one starts. A journal with any
      other start does not align. */
  lemma {:induction false} CallsStartInTurn(H: seq<Message>, c: Checkpoint, events: seq<Event>)
    requires At(H, c, events).Some?
    ensures At(H, c, events).value.matched <= |H|
    ensures
      var p, starts, ends := At(H, c, events).value, OfKind(events, ToolStarted), OfKind(events, ToolFinished);
      var calls := CallsOf(H[..p.matched]);
      InTurn(c, events, calls, starts, ends) && Unended(c, events, p, calls, Left(H, p), starts, ends)
    decreases |events|
  {
    hide Next, InTurn, Unended, Sound, Moves, Left;
    AtSound(H, c, events);
    if events == [] {
      NoCalls(H, c);
    } else {
      var n := |events| - 1;
      CallsStartInTurn(H, c, events[..n]);
      AtSound(H, c, events[..n]);
      var p, q := At(H, c, events[..n]).value, At(H, c, events).value;
      NextMoves(H, c, p, events[n]);
      if p.matched < q.matched { CallsGrow(H, p.matched); }
      var more := if p.matched < q.matched then H[p.matched].Calls() else [];
      assert CallsOf(H[..p.matched]) + [] == CallsOf(H[..p.matched]);
      CallStep(c, events, p, q, CallsOf(H[..p.matched]), Left(H, p), more, Left(H, q),
               OfKind(events[..n], ToolStarted), OfKind(events[..n], ToolFinished));
      LastOfKind(events, ToolStarted);
      LastOfKind(events, ToolFinished);
    }
  }

  lemma {:induction false} LastOfKind(events: seq<Event>, kind: EventKind)
    requires events != []
    ensures var n := |events| - 1;
      OfKind(events, kind) == OfKind(events[..n], kind) + if events[n].kind == kind then [n] else []
  {
  }

  lemma NoCalls(H: seq<Message>, c: Checkpoint)
    ensures InTurn(c, [], CallsOf(H[..0]), [], [])
    ensures Unended(c, [], Position(0, None), CallsOf(H[..0]), Left(H, Position(0, None)), [], [])
  {
  }

  lemma {:induction false} CallStep(
    c: Checkpoint, events: seq<Event>, p: Position, q: Position, calls: seq<ToolCall>, left: seq<ToolCall>,
    more: seq<ToolCall>, rest: seq<ToolCall>, starts: seq<nat>, ends: seq<nat>)
    requires events != [] && Moves(c, p, q, events[|events| - 1], left, more, rest)
    requires InTurn(c, events[..|events| - 1], calls, starts, ends)
    requires Unended(c, events[..|events| - 1], p, calls, left, starts, ends)
    ensures var n := |events| - 1;
      var s := starts + if events[n].kind == ToolStarted then [n] else [];
      var e := ends + if events[n].kind == ToolFinished then [n] else [];
      InTurn(c, events, calls + more, s, e) && Unended(c, events, q, calls + more, rest, s, e)
  {
    hide InTurn, Unended, Shown;
    var n := |events| - 1;
    StillInTurn(c, events, p, calls, left, more, starts, ends);
    if events[n].kind == ToolStarted {
      OneStart(c, events, p, q, calls + more, left + more, starts, ends);
      assert ends + [] == ends;
    } else if events[n].kind == ToolFinished {
      OneEnd(c, events, p, q, calls + more, left + more, starts, ends);
      assert starts + [] == starts && left + more == left;
    } else {
      SameCalls(c, events, p, q, calls + more, left + more, starts, ends);
      assert starts + [] == starts && ends + [] == ends;
    }
  }

  lemma StillInTurn(c: Checkpoint, events: seq<Event>, p: Position, calls: seq<ToolCall>, left: seq<ToolCall>,
                    more: seq<ToolCall>, starts: seq<nat>, ends: seq<nat>)
    requires events != [] && InTurn(c, events[..|events| - 1], calls, starts, ends)
    requires Unended(c, events[..|events| - 1], p, calls, left, starts, ends)
    ensures InTurn(c, events, calls + more, starts, ends)
    ensures Unended(c, events, p, calls + more, left + more, starts, ends)
    ensures forall k | 0 <= k < |starts| :: starts[k] < |events| - 1
    ensures forall k | 0 <= k < |ends| :: ends[k] < |events| - 1
  {
    hide Shown;
    var n := |events| - 1;
    assert forall i | 0 <= i < n :: events[..n][i] == events[i];
    assert (calls + more)[|ends|..] == calls[|ends|..] + more;
  }

  lemma OneStart(c: Checkpoint, events: seq<Event>, p: Position, q: Position, calls: seq<ToolCall>,
                 left: seq<ToolCall>, starts: seq<nat>, ends: seq<nat>)
    requires events != [] && InTurn(c, events, calls, starts, ends) && Unended(c, events, p, calls, left, starts, ends)
    requires forall k | 0 <= k < |ends| :: ends[k] < |events| - 1
    requires left != [] && !Started(p) && Started(q)
    requires var e := events[|events| - 1];
      e.callId == left[0].id && e.text == left[0].tool && Shown(c, e) == q.open.value.kept
    ensures InTurn(c, events, calls, starts + [|events| - 1], ends)
    ensures Unended(c, events, q, calls, left, starts + [|events| - 1], ends)
  {
    hide Shown;
    assert calls[|ends|] == left[0];
  }

  lemma OneEnd(c: Checkpoint, events: seq<Event>, p: Position, q: Position, calls: seq<ToolCall>,
               left: seq<ToolCall>, starts: seq<nat>, ends: seq<nat>)
    requires events != [] && InTurn(c, events, calls, starts, ends) && Unended(c, events, p, calls, left, starts, ends)
    requires forall k | 0 <= k < |starts| :: starts[k] < |events| - 1
    requires left != [] && Started(p) && !Started(q)
    requires var e := events[|events| - 1]; e.callId == left[0].id && Shown(c, e) == p.open.value.kept
    ensures InTurn(c, events, calls, starts, ends + [|events| - 1])
    ensures Unended(c, events, q, calls, left[1..], starts, ends + [|events| - 1])
  {
    hide Shown;
    assert calls[|ends|] == left[0];
    assert calls[|ends| + 1..] == left[1..];
  }

  lemma SameCalls(c: Checkpoint, events: seq<Event>, p: Position, q: Position, calls: seq<ToolCall>,
                  left: seq<ToolCall>, starts: seq<nat>, ends: seq<nat>)
    requires Unended(c, events, p, calls, left, starts, ends) && Started(q) == Started(p)
    requires Started(p) ==> q.open.value.kept == p.open.value.kept
    ensures Unended(c, events, q, calls, left, starts, ends)
  {
  }

  // ----- the run of a turn

  /** The prompt of the turn that is open after the events: the last prompt, if no answer has come since. */
  function Opening(events: seq<Event>): (prompt: Option<nat>)
    ensures prompt.Some? ==> prompt.value < |events| && events[prompt.value].kind.PromptAccepted?
  {
    if events == [] then None
    else
      var n := |events| - 1;
      if events[n].kind.PromptAccepted? then Some(n)
      else if events[n].kind.Answer? then None
      else Opening(events[..n])
  }

  /** An event belongs to the turn that is open, and to its run; only a prompt comes where none is open. */
  predicate Belongs(before: seq<Event>, e: Event) {
    match Opening(before)
    case None => e.kind.PromptAccepted?
    case Some(i) =>
      && e.run == before[i].run
      && (e.kind.ModelStarted? || e.kind.TextDelta? || e.kind.AssistantReply? || e.kind.ToolStarted?
          || e.kind.ToolFinished? || e.kind.Answer?)
  }

  /** A journal that aligns consists of turns: each event belongs to the run of the prompt that opened its turn, and
      no other kind of event occurs. */
  lemma {:induction false} EventsBelong(H: seq<Message>, c: Checkpoint, events: seq<Event>)
    requires At(H, c, events).Some?
    ensures forall i | 0 <= i < |events| :: Belongs(events[..i], events[i])
    ensures var p := At(H, c, events).value;
      && (p.open.Some? <==> Opening(events).Some?)
      && (p.open.Some? ==>
            && p.open.value.run == events[Opening(events).value].run
            && p.open.value.kept == Shown(c, events[Opening(events).value]))
    decreases |events|
  {
    hide Shown, Next, Belongs;
    if events != [] {
      var n := |events| - 1;
      EventsBelong(H, c, events[..n]);
      NextBelongs(H, c, events, At(H, c, events[..n]).value);
      forall i | 0 <= i < |events| ensures Belongs(events[..i], events[i]) {
        if i < n { assert events[..n][..i] == events[..i] && events[..n][i] == events[i]; }
      }
    }
  }

  lemma {:induction false} NextBelongs(H: seq<Message>, c: Checkpoint, events: seq<Event>, p: Position)
    requires events != [] && Next(H, c, p, events[|events| - 1]).Some?
    requires p.open.Some? <==> Opening(events[..|events| - 1]).Some?
    requires p.open.Some? ==> p.open.value.run == events[Opening(events[..|events| - 1]).value].run
    requires p.open.Some? ==> p.open.value.kept == Shown(c, events[Opening(events[..|events| - 1]).value])
    ensures Belongs(events[..|events| - 1], events[|events| - 1])
    ensures var q := Next(H, c, p, events[|events| - 1]).value;
      && (q.open.Some? <==> Opening(events).Some?)
      && (q.open.Some? ==>
            && q.open.value.run == events[Opening(events).value].run
            && q.open.value.kept == Shown(c, events[Opening(events).value]))
  {
    hide Shown, Next;
    NextRun(H, c, p, events[|events| - 1]);
  }

  lemma NextRun(H: seq<Message>, c: Checkpoint, p: Position, e: Event)
    requires Next(H, c, p, e).Some?
    ensures var q := Next(H, c, p, e).value;
      if p.open.None? then
        e.kind.PromptAccepted? && q.open.Some? && q.open.value.run == e.run && q.open.value.kept == Shown(c, e)
      else
        && e.run == p.open.value.run
        && (e.kind.ModelStarted? || e.kind.TextDelta? || e.kind.AssistantReply? || e.kind.ToolStarted?
            || e.kind.ToolFinished? || e.kind.Answer?)
        && (e.kind.Answer? <==> q.open.None?)
        && (q.open.Some? ==> q.open.value.run == e.run && q.open.value.kept == p.open.value.kept)
  {
    hide Shown, Waiting, Asks, Continues, ResultOf, DecodeMessage;
  }

  // ----- what is kept and what is elided

  /** Every message is told by an event on the side of its turn. */
  predicate OneSide(c: Checkpoint, events: seq<Event>, t: Turn, sources: seq<nat>) {
    forall k | t.from <= k < t.to && k < |sources| :: sources[k] < |events| && Shown(c, events[sources[k]]) == t.kept
  }

  function OpenAsTurn(p: Position): Turn
    requires p.open.Some?
  {
    Turn(p.open.value.start, p.matched, p.open.value.kept)
  }

  predicate Sides(c: Checkpoint, events: seq<Event>, p: Position, turns: seq<Turn>, sources: seq<nat>) {
    && |sources| == p.matched
    && (forall t | t in turns :: t.to <= p.matched && OneSide(c, events, t, sources))
    && (p.open.Some? ==> OneSide(c, events, OpenAsTurn(p), sources))
  }

  /** A turn is kept or elided as one: all its messages are told by kept events, or none of them. */
  lemma {:induction false} TurnsHaveOneSide(H: seq<Message>, c: Checkpoint, events: seq<Event>)
    requires At(H, c, events).Some?
    ensures Sides(c, events, At(H, c, events).value, Turns(H, c, events), Sources(H, c, events))
    decreases |events|
  {
    hide Next, Sides, Shown;
    if events == [] {
      NoSides(c);
    } else {
      var n := |events| - 1;
      TurnsHaveOneSide(H, c, events[..n]);
      AtSound(H, c, events[..n]);
      AtSound(H, c, events);
      SidesStep(H, c, events, At(H, c, events[..n]).value, Turns(H, c, events[..n]), Sources(H, c, events[..n]));
    }
  }

  lemma NoSides(c: Checkpoint)
    ensures Sides(c, [], Position(0, None), [], [])
  {
  }

  lemma {:induction false} SidesStep(
    H: seq<Message>, c: Checkpoint, events: seq<Event>, p: Position, turns: seq<Turn>, sources: seq<nat>)
    requires events != [] && Sound(H, p) && Next(H, c, p, events[|events| - 1]).Some?
    requires Sides(c, events[..|events| - 1], p, turns, sources)
    ensures var q := Next(H, c, p, events[|events| - 1]).value;
      Sides(c, events, q,
            turns + (if p.open.Some? && q.open.None? then [Turn(p.open.value.start, q.matched, p.open.value.kept)]
              else []),
            sources + (if p.matched < q.matched <= |H| then [|events| - 1] else []))
  {
    hide Next, Shown, TurnOk, OpenPart;
    var n := |events| - 1;
    var q := Next(H, c, p, events[n]).value;
    NextSound(H, c, p, events[n]);
    TurnStep(H, c, p, events[n]);
    assert forall i | 0 <= i < n :: events[..n][i] == events[i];
  }

  /** An elided message with tool calls is told by a receipt in the journal that consists of exactly
      its bytes. */
  lemma {:induction false} ElidedHasReceipt(H: seq<Message>, c: Checkpoint, events: seq<Event>, t: Turn, k: nat)
    requires At(H, c, events).Some? && t in Turns(H, c, events) && !t.kept && t.from <= k < t.to
    requires k < |H| && H[k].Calls() != []
    ensures k < |Sources(H, c, events)| && Sources(H, c, events)[k] < |events|
    ensures var e := events[Sources(H, c, events)[k]];
      && e.kind.AssistantReply? && e.text == H[k].text
      && ValueCodec.Encode(MessageValue(H[k])) == Ok(e.data)
  {
    hide Next, At, Shown, ValueCodec.Encode, ValueCodec.Decode, MessageValue, MessageOf, ValueCodec.Portable;
    TurnsHaveOneSide(H, c, events);
    EachMessageOnce(H, c, events);
    var e := events[Sources(H, c, events)[k]];
    assert Tells(c, e, H[k]);
    ReceiptIsExact(e.data, H[k]);
  }
}
