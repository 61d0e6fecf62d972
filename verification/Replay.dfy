/** Journal spans, the restoration of original events and the compacted view. */
module Replay {
  import opened Bytes
  import opened Checkpoints
  import opened Conversations
  import opened Wrappers
  import ValueCodec

  datatype ReplayProblem =
    | InvalidCheckpoint | InvalidSequence | IncompleteJournal | WrongSession | DigestChanged
    | InvalidEncoding | CapacityExceeded

  /** A digest function: SHA-256 in lower-case hexadecimal, here any function of the hashed bytes. */
  type Hash = seq<byte> -> seq<byte>

  const HASH_DOMAIN: seq<byte> := Ascii("phenix.compaction.journal-span.v1") + [0]
  const MAX_EVENTS_PER_SPAN := 65_536
  const MAX_ENCODED_EVENT_BYTES := 8 * 1024 * 1024

  // ----- what a digest covers

  predicate Small(e: Event) { EventBytes(e).Ok? && |EventBytes(e).value| <= MAX_ENCODED_EVENT_BYTES }

  /** One event of the hashed stream: its length and its canonical bytes. */
  function Frame(e: Event): seq<byte> {
    if EventBytes(e).Ok? then ValueCodec.ToBe(|EventBytes(e).value|, 8) + EventBytes(e).value else []
  }

  function Frames(events: seq<Event>): seq<byte> {
    if events == [] then [] else Frame(events[0]) + Frames(events[1..])
  }

  function Stream(events: seq<Event>): seq<byte> { HASH_DOMAIN + Frames(events) }

  lemma {:induction false} FramesAppend(events: seq<Event>, e: Event)
    ensures Frames(events + [e]) == Frames(events) + Frame(e)
  {
    hide Frame;
    if events == [] {
      assert events + [e] == [e];
      assert Frames([e]) == Frame(e) + Frames([]);
    } else {
      FramesAppend(events[1..], e);
      assert (events + [e])[1..] == events[1..] + [e];
    }
  }

  lemma {:induction false} NoFrames(events: seq<Event>)
    requires forall e | e in events :: EventBytes(e).Ok?
    ensures Frames(events) == [] <==> events == []
  {
    hide EventBytes, ValueCodec.ToBe;
    if events != [] { assert events[0] in events; }
  }

  /** The length prefix separates the first frame from the rest. */
  lemma {:induction false} FrameSplits(a: seq<byte>, b: seq<byte>, x: seq<byte>, y: seq<byte>)
    requires |a| <= MAX_ENCODED_EVENT_BYTES && |b| <= MAX_ENCODED_EVENT_BYTES
    requires ValueCodec.ToBe(|a|, 8) + a + x == ValueCodec.ToBe(|b|, 8) + b + y
    ensures a == b && x == y
  {
    var m, n := ValueCodec.ToBe(|a|, 8), ValueCodec.ToBe(|b|, 8);
    var l, r := m + a + x, n + b + y;
    ValueCodec.FromToBe(|a|, 8);
    ValueCodec.FromToBe(|b|, 8);
    ValueCodec.Widths();
    assert l[..8] == m && r[..8] == n;
    assert l[8..8 + |a|] == a && r[8..8 + |b|] == b;
    assert l[8 + |a|..] == x && r[8 + |b|..] == y;
  }

  /** The hashed stream determines the events: only a collision of the digest can confuse two spans. */
  lemma {:induction false} StreamDetermines(a: seq<Event>, b: seq<Event>)
    requires forall e | e in a + b :: Typed(e) && Small(e)
    requires Stream(a) == Stream(b)
    ensures a == b
    decreases |a|
  {
    hide Typed, EventBytes, ValueCodec.ToBe;
    assert Stream(a)[|HASH_DOMAIN|..] == Frames(a) && Stream(b)[|HASH_DOMAIN|..] == Frames(b);
    if a == [] || b == [] {
      NoFrames(a);
      NoFrames(b);
    } else {
      assert a[0] in a + b && b[0] in a + b;
      var x, y := EventBytes(a[0]).value, EventBytes(b[0]).value;
      FrameSplits(x, y, Frames(a[1..]), Frames(b[1..]));
      EventBytesDetermine(a[0], b[0]);
      StreamDetermines(a[1..], b[1..]);
      assert a == [a[0]] + a[1..] && b == [b[0]] + b[1..];
    }
  }

  // ----- spans

  predicate Contiguous(events: seq<Event>) {
    forall i | 0 <= i < |events| :: events[i].sequence as int == events[0].sequence + i
  }

  predicate Climbs(events: seq<Event>) {
    forall i | 0 <= i < |events| - 1 :: events[i].sequence < events[i + 1].sequence
  }

  /** One more event after an ascending prefix. */
  lemma Follow(events: seq<Event>, i: nat)
    requires 0 < i < |events| && Climbs(events[..i]) && events[i - 1].sequence < events[i].sequence
    ensures Climbs(events[..i + 1])
    ensures Contiguous(events[..i + 1]) <==>
      Contiguous(events[..i]) && events[i - 1].sequence as int + 1 == events[i].sequence as int
  {
    var before, after := events[..i], events[..i + 1];
    assert after[i] == events[i] && after[i - 1] == events[i - 1] == before[i - 1];
    assert forall j | 0 <= j < i :: after[j] == before[j];
  }

  /** One complete piece of one session's journal, within the limits of a span. */
  predicate Journal(events: seq<Event>) {
    && 0 < |events| <= MAX_EVENTS_PER_SPAN && events[0].sequence != 0 && Contiguous(events)
    && forall e | e in events :: e.session == events[0].session && Small(e)
  }

  function SpanOf(events: seq<Event>, hash: Hash): JournalSpan
    requires events != []
  {
    JournalSpan(events[0].sequence, events[|events| - 1].sequence, hash(Stream(events)))
  }

  function CheckedAdd(a: u64, b: u64): Option<u64> { if a + b <= MAX_U64 then Some(a + b) else None }

  /** `span_for_events`. A gap is reported only when the whole stream is otherwise in order. */
  method SpanForEvents(events: seq<Event>, hash: Hash) returns (r: Result<JournalSpan, ReplayProblem>)
    ensures r.Ok? <==> Journal(events)
    ensures r.Ok? ==> r.value == SpanOf(events, hash)
    ensures r.Err? ==> r.error != InvalidCheckpoint && r.error != DigestChanged
    ensures r == Err(IncompleteJournal) && events != [] ==>
      Climbs(events) && !Contiguous(events)
  {
    hide Small, Frame, EventBytes, Stream, ValueCodec.ToBe, Contiguous, Climbs;
    FirstFollows(events);
    if events == [] { return Err(IncompleteJournal); }
    if |events| > MAX_EVENTS_PER_SPAN { return Err(CapacityExceeded); }
    var session, first := events[0].session, events[0].sequence;
    if first == 0 { return Err(InvalidSequence); }
    var previous, gap, hashed := first, false, HASH_DOMAIN;
    StreamOfNone(events);
    for i := 0 to |events|
      invariant previous == events[if i == 0 then 0 else i - 1].sequence
      invariant Climbs(events[..i]) && (gap <==> !Contiguous(events[..i]))
      invariant forall e | e in events[..i] :: e.session == session && Small(e)
      invariant hashed == Stream(events[..i])
    {
      var event := events[i];
      assert event in events;
      if event.session != session { return Err(WrongSession); }
      if i != 0 {
        if event.sequence <= previous {
          NoClimb(events, i);
          return Err(InvalidSequence);
        }
        Follow(events, i);
        if CheckedAdd(previous, 1) != Some(event.sequence) { gap := true; }
      }
      previous := event.sequence;
      FrameGrows(hashed, events, i);
      var bytes := EventBytes(event);
      if bytes.Err? { return Err(InvalidEncoding); }
      if |bytes.value| > MAX_ENCODED_EVENT_BYTES { return Err(CapacityExceeded); }
      hashed := hashed + ValueCodec.ToBe(|bytes.value|, 8);
      hashed := hashed + bytes.value;
    }
    assert events[..|events|] == events;
    if gap { return Err(IncompleteJournal); }
    return Ok(JournalSpan(first, previous, hash(hashed)));
  }

  lemma FirstFollows(events: seq<Event>)
    ensures forall i | 0 <= i <= 1 && i <= |events| :: Climbs(events[..i]) && Contiguous(events[..i])
  {
  }

  lemma NoClimb(events: seq<Event>, i: nat)
    requires 0 < i < |events| && events[i].sequence <= events[i - 1].sequence
    ensures !Contiguous(events)
  {
  }

  lemma StreamOfNone(events: seq<Event>)
    ensures Stream(events[..0]) == HASH_DOMAIN
  {
  }

  lemma {:induction false} FrameGrows(hashed: seq<byte>, events: seq<Event>, i: nat)
    requires i < |events| && hashed == Stream(events[..i])
    ensures EventBytes(events[i]).Ok? ==>
      && (|EventBytes(events[i]).value| <= MAX_ENCODED_EVENT_BYTES <==> Small(events[i]))
      && hashed + ValueCodec.ToBe(|EventBytes(events[i]).value|, 8)
         + EventBytes(events[i]).value == Stream(events[..i + 1])
    ensures EventBytes(events[i]).Err? ==> !Small(events[i])
  {
    hide EventBytes, ValueCodec.ToBe;
    FramesAppend(events[..i], events[i]);
    assert events[..i + 1] == events[..i] + [events[i]];
  }

  // ----- restoration

  /** The events that a span of the checkpoint names. */
  function Slice(c: Checkpoint, events: seq<Event>, s: JournalSpan): seq<Event>
    requires c.input.first <= s.first <= s.last && s.last - c.input.first < |events|
  {
    events[s.first - c.input.first..s.last - c.input.first + 1]
  }

  /** The journal is the one the checkpoint was made from, as far as its digests tell. */
  ghost predicate Restores(c: Checkpoint, events: seq<Event>, hash: Hash) {
    && Sealed(c) && Journal(events) && events[0].session == c.session
    && SpanOf(events, hash) == c.input
    && (forall s | s in Spans(c) :: Matches(c, events, hash, s))
  }

  predicate Fits(c: Checkpoint, events: seq<Event>, s: JournalSpan) {
    c.input.first <= s.first <= s.last && s.last - c.input.first < |events|
  }

  /** `events.get(start..end)`. */
  function Get(events: seq<Event>, start: int, end: int): Option<seq<Event>> {
    if 0 <= start <= end <= |events| then Some(events[start..end]) else None
  }

  /** Every span of a sealed checkpoint names a complete piece of the journal: neither subtraction can
      underflow, the end never overflows, and the slice exists and is a span of its own. */
  lemma {:induction false} SliceIsJournal(c: Checkpoint, events: seq<Event>, hash: Hash, s: JournalSpan)
    requires Sealed(c) && Journal(events) && s in Spans(c)
    requires SpanOf(events, hash).first == c.input.first && SpanOf(events, hash).last == c.input.last
    ensures Fits(c, events, s) && s.last - c.input.first + 1 <= MAX_U64
    ensures Journal(Slice(c, events, s))
    ensures SpanOf(Slice(c, events, s), hash).first == s.first && SpanOf(Slice(c, events, s), hash).last == s.last
  {
    hide Small, Stream, Named, Descends, Cited, Bounded, Hydrates, Count, ValidDigest;
    assert SpanOk(s) && Inside(s, c.input);
    assert events[|events| - 1].sequence as int == events[0].sequence + |events| - 1;
    var piece, start := Slice(c, events, s), s.first - c.input.first;
    forall i | 0 <= i < |piece| ensures piece[i].sequence as int == s.first + i {
      assert piece[i] == events[start + i];
    }
    forall e | e in piece ensures e.session == piece[0].session && Small(e) {
      assert e in events && piece[0] in events;
    }
  }

  /** `restore_original_events`: it returns the events themselves, unchanged, exactly when every digest
      agrees. Once the range of the journal is the checkpoint's, only a digest can refuse. */
  method RestoreOriginalEvents(c: Checkpoint, events: seq<Event>, hash: Hash)
    returns (r: Result<seq<Event>, ReplayProblem>)
    ensures r.Ok? <==> Restores(c, events, hash)
    ensures r.Ok? ==> r.value == events
    ensures Sealed(c) && Journal(events) && events[0].session == c.session
            && events[0].sequence == c.input.first && events[|events| - 1].sequence == c.input.last ==>
      r.Ok? || r.error == DigestChanged
  {
    hide Sealed, Small, Stream, Contiguous, Spans;
    var valid := ValidateCheckpoint(c);
    if valid.Err? { return Err(InvalidCheckpoint); }
    var entire := SpanForEvents(events, hash);
    if entire.Err? { return Err(entire.error); }
    assert events[0] in events;
    if exists e | e in events :: e.session != c.session { return Err(WrongSession); }
    if entire.value.first != c.input.first || entire.value.last != c.input.last { return Err(IncompleteJournal); }
    if entire.value.digest != c.input.digest { return Err(DigestChanged); }
    var checked := CheckSpans(c, events, hash);
    if checked.Err? { return Err(checked.error); }
    return Ok(events);
  }

  /** The digest of span `s` is that of the events it names. */
  ghost predicate Matches(c: Checkpoint, events: seq<Event>, hash: Hash, s: JournalSpan) {
    Fits(c, events, s) && hash(Stream(Slice(c, events, s))) == s.digest
  }

  /** The loop over the spans: each is recomputed from its slice of the journal. */
  method CheckSpans(c: Checkpoint, events: seq<Event>, hash: Hash) returns (r: Result<(), ReplayProblem>)
    requires Sealed(c) && Journal(events)
    requires SpanOf(events, hash).first == c.input.first && SpanOf(events, hash).last == c.input.last
    ensures r.Ok? <==> forall s | s in Spans(c) :: Matches(c, events, hash, s)
    ensures r.Err? ==> r.error == DigestChanged
  {
    hide Sealed, Small, Stream, Contiguous, Spans;
    var spans := Spans(c);
    for k := 0 to |spans|
      invariant forall s | s in spans[..k] :: Matches(c, events, hash, s)
    {
      var expected := spans[k];
      assert expected in spans;
      SliceIsJournal(c, events, hash, expected);
      var start: u64 := expected.first - c.input.first;
      var end: u64 := expected.last - c.input.first + 1;
      var actual := Get(events, start, end);
      if actual.None? { return Err(IncompleteJournal); }
      var span := SpanForEvents(actual.value, hash);
      match span {
        case Err(problem) => return Err(problem);
        case Ok(found) => if found.digest != expected.digest { return Err(DigestChanged); }
      }
    }
    assert spans[..|spans|] == spans;
    return Ok(());
  }

  /** Two journals that restore the same checkpoint are the same journal, unless the digest collides on
      their two streams. */
  lemma {:induction false} OneOriginal(c: Checkpoint, a: seq<Event>, b: seq<Event>, hash: Hash)
    requires Restores(c, a, hash) && Restores(c, b, hash)
    requires forall e | e in a + b :: Typed(e)
    ensures a == b || (Stream(a) != Stream(b) && hash(Stream(a)) == hash(Stream(b)))
  {
    hide Sealed, Typed, Small, Frames, Contiguous;
    if Stream(a) == Stream(b) {
      forall e | e in a + b ensures Typed(e) && Small(e) { assert e in a || e in b; }
      StreamDetermines(a, b);
    }
  }

  // ----- the view

  datatype ContextPart =
    | Summary(checkpoint: seq<byte>, text: seq<byte>, sources: seq<JournalSpan>)
    | Original(event: Event)

  datatype ContextProjection = ContextProjection(
    checkpoint: seq<byte>, source: JournalSpan, parts: seq<ContextPart>, excluded: seq<JournalSpan>,
    visiblePayload: u64)

  datatype ViewProblem =
    | ReplayFailed(problem: ReplayProblem) | InvalidBudget | OverBudget | InvalidToolSequence | SplitToolCall
    | UnresolvedToolCall | NonPrefixSummary

  function VisibilityOf(c: Checkpoint, e: Event): Visibility { Visible(c, e.sequence) }

  /** The summarized events are a prefix of the journal. */
  predicate SummaryFirst(c: Checkpoint, events: seq<Event>) {
    forall i, j | 0 <= i < j < |events| ::
      VisibilityOf(c, events[j]) == Summarized ==> VisibilityOf(c, events[i]) == Summarized
  }

  /** The tool calls that have begun and not ended, with the visibility of their beginning; nothing
      when the events break the protocol. */
  function OpenCalls(c: Checkpoint, events: seq<Event>): Option<map<seq<byte>, Visibility>> {
    if events == [] then Some(map[])
    else
      var before, e := OpenCalls(c, events[..|events| - 1]), events[|events| - 1];
      if before.None? then None
      else if e.kind.ToolStarted? then
        if e.callId == [] || e.callId in before.value then None
        else Some(before.value[e.callId := VisibilityOf(c, e)])
      else if e.kind.ToolFinished? then
        if e.callId !in before.value || before.value[e.callId] != VisibilityOf(c, e) then None
        else Some(before.value - {e.callId})
      else before
  }

  function Payload(e: Event): nat { |e.text| + |e.data| + |e.callId| }

  /** The visible parts: the summary once, where the summarized prefix was, and the retained events. */
  function Parts(c: Checkpoint, events: seq<Event>): seq<ContextPart> {
    if events == [] then []
    else
      var before, e := Parts(c, events[..|events| - 1]), events[|events| - 1];
      match VisibilityOf(c, e)
      case Summarized => if before == [] then [Summary(c.id, c.summary, c.summarized)] else before
      case Retained => before + [Original(e)]
      case Excluded => before
  }

  function PartsPayload(parts: seq<ContextPart>): nat {
    if parts == [] then 0
    else
      PartsPayload(parts[..|parts| - 1])
      + match parts[|parts| - 1] case Summary(_, text, _) => |text| case Original(e) => Payload(e)
  }

  ghost predicate Viewable(c: Checkpoint, events: seq<Event>, max: u64, hash: Hash) {
    && max != 0 && Restores(c, events, hash) && SummaryFirst(c, events)
    && OpenCalls(c, events) == Some(map[]) && PartsPayload(Parts(c, events)) <= max
  }

  function Projection(c: Checkpoint, events: seq<Event>): ContextProjection
    requires PartsPayload(Parts(c, events)) <= MAX_U64
  {
    ContextProjection(c.id, c.input, Parts(c, events), c.excluded, PartsPayload(Parts(c, events)))
  }

  /** `compacted_view`: three passes over the restored events. */
  method CompactedView(c: Checkpoint, journal: seq<Event>, max: u64, hash: Hash)
    returns (r: Result<ContextProjection, ViewProblem>)
    ensures r.Ok? <==> Viewable(c, journal, max, hash)
    ensures r.Ok? ==> r.value == Projection(c, journal)
  {
    hide Restores, VisibilityOf;
    if max == 0 { return Err(InvalidBudget); }
    var restored := RestoreOriginalEvents(c, journal, hash);
    if restored.Err? { return Err(ReplayFailed(restored.error)); }
    var original := restored.value;
    var prefix := CheckPrefix(c, original);
    if !prefix { return Err(NonPrefixSummary); }
    var tools := CheckTools(c, original);
    if tools.Err? { return Err(tools.error); }
    r := Project(c, original, max);
  }

  /** The first pass: nothing is summarized after an event that is not. */
  method CheckPrefix(c: Checkpoint, events: seq<Event>) returns (ok: bool)
    ensures ok <==> SummaryFirst(c, events)
  {
    hide VisibilityOf;
    var left := false;
    for i := 0 to |events|
      invariant SummaryFirst(c, events[..i])
      invariant left <==> exists j | 0 <= j < i :: VisibilityOf(c, events[j]) != Summarized
    {
      if VisibilityOf(c, events[i]) == Summarized {
        if left { return false; }
      } else {
        left := true;
      }
    }
    assert events[..|events|] == events;
    return true;
  }

  /** The second pass: tool calls begin and end once, on the same side. */
  method CheckTools(c: Checkpoint, events: seq<Event>) returns (r: Result<(), ViewProblem>)
    ensures r.Ok? <==> OpenCalls(c, events) == Some(map[])
    ensures r == Err(UnresolvedToolCall) ==> OpenCalls(c, events).Some?
  {
    hide VisibilityOf;
    var active: map<seq<byte>, Visibility> := map[];
    for i := 0 to |events|
      invariant OpenCalls(c, events[..i]) == Some(active)
    {
      var event := events[i];
      assert events[..i + 1][..i] == events[..i];
      match event.kind {
        case ToolStarted =>
          var visibility := VisibilityOf(c, event);
          if event.callId == [] || event.callId in active {
            NeverReopens(c, events, i + 1);
            return Err(InvalidToolSequence);
          }
          active := active[event.callId := visibility];
        case ToolFinished =>
          if event.callId !in active {
            NeverReopens(c, events, i + 1);
            return Err(InvalidToolSequence);
          }
          var start := active[event.callId];
          active := active - {event.callId};
          if start != VisibilityOf(c, event) {
            NeverReopens(c, events, i + 1);
            return Err(SplitToolCall);
          }
        case _ =>
      }
    }
    assert events[..|events|] == events;
    if active != map[] { return Err(UnresolvedToolCall); }
    return Ok(());
  }

  lemma {:induction false} NeverReopens(c: Checkpoint, events: seq<Event>, i: nat)
    requires i <= |events| && OpenCalls(c, events[..i]).None?
    ensures OpenCalls(c, events).None?
    decreases |events| - i
  {
    if i < |events| {
      assert events[..i + 1][..i] == events[..i];
      NeverReopens(c, events, i + 1);
    } else {
      assert events[..i] == events;
    }
  }

  /** The third pass builds the parts within the byte budget. */
  method Project(c: Checkpoint, events: seq<Event>, max: u64) returns (r: Result<ContextProjection, ViewProblem>)
    requires SummaryFirst(c, events)
    ensures r.Ok? <==> PartsPayload(Parts(c, events)) <= max
    ensures r.Ok? ==> r.value == Projection(c, events)
  {
    hide VisibilityOf, Parts, PartsPayload, Payload;
    var bytes: u64, parts: seq<ContextPart>, emitted := 0, [], false;
    NoParts(c, events);
    for i := 0 to |events|
      invariant parts == Parts(c, events[..i]) && bytes as int == PartsPayload(parts) <= max
      invariant emitted ==> parts != []
      invariant !emitted ==> i == 0 || VisibilityOf(c, events[0]) != Summarized
    {
      var event := events[i];
      PartsStep(c, events, i);
      GrowsTo(c, events, i + 1);
      match VisibilityOf(c, event) {
        case Summarized =>
          if !emitted {
            assert i == 0;
            if bytes + |c.summary| > MAX_U64 { return Err(OverBudget); }
            bytes := bytes + |c.summary|;
            parts := parts + [Summary(c.id, c.summary, c.summarized)];
            emitted := true;
          }
        case Retained =>
          if bytes + Payload(event) > MAX_U64 { return Err(OverBudget); }
          bytes := bytes + Payload(event);
          parts := parts + [Original(event)];
        case Excluded =>
      }
      if bytes > max { return Err(OverBudget); }
    }
    assert events[..|events|] == events;
    return Ok(ContextProjection(c.id, c.input, parts, c.excluded, bytes));
  }

  lemma {:induction false} NoParts(c: Checkpoint, events: seq<Event>)
    ensures Parts(c, events[..0]) == [] && PartsPayload([]) == 0
  {
  }

  /** What one more event adds to the parts and their payload. */
  lemma {:induction false} PartsStep(c: Checkpoint, events: seq<Event>, i: nat)
    requires i < |events|
    ensures var before, after, e := Parts(c, events[..i]), Parts(c, events[..i + 1]), events[i];
      match VisibilityOf(c, e)
      case Summarized =>
        after == (if before == [] then [Summary(c.id, c.summary, c.summarized)] else before)
        && (before == [] ==> PartsPayload(after) == |c.summary|)
      case Retained => after == before + [Original(e)] && PartsPayload(after) == PartsPayload(before) + Payload(e)
      case Excluded => after == before
  {
    hide VisibilityOf, Payload;
    var more, before := events[..i + 1], Parts(c, events[..i]);
    assert more[..i] == events[..i];
    assert (before + [Original(events[i])])[..|before|] == before;
    var summary := [Summary(c.id, c.summary, c.summarized)];
    assert summary[..0] == [];
  }

  /** The payload of the parts never shrinks. */
  lemma {:induction false} GrowsTo(c: Checkpoint, events: seq<Event>, i: nat)
    requires i <= |events|
    ensures PartsPayload(Parts(c, events[..i])) <= PartsPayload(Parts(c, events))
    decreases |events| - i
  {
    hide VisibilityOf, Parts, PartsPayload, Payload;
    if i < |events| {
      PartsStep(c, events, i);
      NoParts(c, events);
      GrowsTo(c, events, i + 1);
    } else {
      assert events[..i] == events;
    }
  }

  // ----- what a view shows

  /** Between `i` and `j` the call of event `i` is neither begun again nor ended. */
  predicate Quiet(events: seq<Event>, i: nat, j: nat)
    requires i < |events| && j <= |events|
  {
    forall k | i < k < j :: events[k].kind.ToolStarted? || events[k].kind.ToolFinished? ==>
      events[k].callId != events[i].callId
  }

  predicate Ends(c: Checkpoint, events: seq<Event>, i: nat, j: nat) {
    && i < j < |events| && events[j].kind.ToolFinished? && events[j].callId == events[i].callId
    && VisibilityOf(c, events[j]) == VisibilityOf(c, events[i]) && Quiet(events, i, j)
  }

  /** A tool call is never split between what is shown and what is not: in a viewable journal every
      beginning has its end, the next event of the same call, with the same visibility. */
  lemma {:induction false} CallsStayWhole(c: Checkpoint, events: seq<Event>, i: nat)
    requires OpenCalls(c, events) == Some(map[]) && i < |events| && events[i].kind.ToolStarted?
    ensures exists j: nat :: Ends(c, events, i, j)
  {
    assert events[..|events|] == events;
    CallsOpenUntil(c, events, i, |events|);
  }

  lemma {:induction false} CallsOpenUntil(c: Checkpoint, events: seq<Event>, i: nat, n: nat)
    requires i < n <= |events| && events[i].kind.ToolStarted? && OpenCalls(c, events[..n]).Some?
    ensures (exists j: nat :: j < n && Ends(c, events, i, j))
            || (Quiet(events, i, n) && events[i].callId in OpenCalls(c, events[..n]).value
                && OpenCalls(c, events[..n]).value[events[i].callId] == VisibilityOf(c, events[i]))
    decreases n
  {
    hide VisibilityOf;
    assert events[..n][..n - 1] == events[..n - 1];
    if i < n - 1 {
      CallsOpenUntil(c, events, i, n - 1);
      if Quiet(events, i, n - 1) && events[n - 1].kind.ToolFinished? && events[n - 1].callId == events[i].callId
         && !(exists j: nat :: j < n - 1 && Ends(c, events, i, j))
      {
        assert Ends(c, events, i, n - 1);
      }
    }
  }

  /** The events shown are the retained ones, in their order, and the summary stands before them. */
  function RetainedEvents(c: Checkpoint, events: seq<Event>): seq<Event> {
    if events == [] then []
    else
      RetainedEvents(c, events[..|events| - 1])
      + if VisibilityOf(c, events[|events| - 1]) == Retained then [events[|events| - 1]] else []
  }

  lemma {:induction false} PartsAre(c: Checkpoint, events: seq<Event>)
    requires SummaryFirst(c, events)
    ensures var kept := RetainedEvents(c, events);
      Parts(c, events) ==
        (if events != [] && VisibilityOf(c, events[0]) == Summarized then [Summary(c.id, c.summary, c.summarized)]
          else [])
        + seq(|kept|, i requires 0 <= i < |kept| => Original(kept[i]))
  {
    hide VisibilityOf;
    if events != [] {
      var before := events[..|events| - 1];
      PartsAre(c, before);
      if before != [] {
        assert before[0] == events[0];
        assert VisibilityOf(c, events[|events| - 1]) == Summarized ==> VisibilityOf(c, events[0]) == Summarized;
      }
    }
  }
}
