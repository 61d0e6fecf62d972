/** The assembly of a model request from a verified view of the journal. */
module HistoryModel {
  import opened Bytes
  import opened Checkpoints
  import opened Conversations
  import opened Replay
  import opened Transcripts
  import opened Wrappers

  datatype TranscriptProblem =
    | WrongSession | UnalignedSource | UnalignedHistory | UnsupportedToolHistory | SplitTurn | ContextConflict
    | MissingCurrentPrompt

  datatype ContextItem = ContextItem(id: seq<byte>, text: seq<byte>)

  /** A model request; tools, skills and limits are carried along in `settings`. */
  datatype ModelRequest = ModelRequest(
    session: seq<byte>, run: seq<byte>, history: seq<Message>, context: seq<ContextItem>, settings: seq<byte>)

  /** The variables of the loop over the journal. */
  datatype Cursor = Cursor(
    matched: nat,
    pendingPrompt: Option<bool>,
    currentRun: Option<seq<byte>>,
    queuedCalls: seq<ToolCall>,
    activeTool: Option<seq<byte>>,
    seenIds: set<seq<byte>>,
    retainedHistory: seq<Message>)

  /** What the variables of the loop stand for. */
  predicate Tracks(H: seq<Message>, p: Position, s: Cursor) {
    && Sound(H, p) && s.matched == p.matched
    && match p.open
       case None => s.pendingPrompt == None && s.currentRun == None && s.queuedCalls == [] && s.activeTool == None
       case Some(t) =>
         && s.pendingPrompt == Some(t.kept) && s.currentRun == Some(t.run)
         && s.seenIds == CallIds(H[t.start..p.matched])
         && (t.started ==> s.activeTool == Some(Waiting(H, p)[0].id) && s.queuedCalls == Waiting(H, p)[1..])
         && (!t.started ==> s.activeTool == None && s.queuedCalls == Waiting(H, p))
  }

  /** The step from `s` to `t` reads what the reference reads. */
  predicate Advances(H: seq<Message>, c: Checkpoint, p: Position, e: Event, s: Cursor, t: Cursor) {
    && Next(H, c, p, e).Some?
    && var q := Next(H, c, p, e).value;
       && Tracks(H, q, t)
       && t.retainedHistory == s.retainedHistory
          + (if p.matched < q.matched <= |H| && Shown(c, e) then [H[p.matched]] else [])
  }

  /** The errors of the loop over the journal. */
  predicate Misaligned(problem: TranscriptProblem) {
    problem in {UnalignedSource, UnalignedHistory, UnsupportedToolHistory, SplitTurn}
  }

  /** `seen_ids.insert` for each call in turn. */
  method Claim(seen: set<seq<byte>>, calls: seq<ToolCall>) returns (ok: bool, claimed: set<seq<byte>>)
    ensures ok <==> FreshCalls(seen, calls)
    ensures ok ==> claimed == seen + set call | call in calls :: call.id
  {
    claimed := seen;
    for i := 0 to |calls|
      invariant FreshCalls(seen, calls[..i])
      invariant claimed == seen + set call | call in calls[..i] :: call.id
    {
      if calls[i].id == [] || calls[i].id in claimed { return false, claimed; }
      claimed := claimed + {calls[i].id};
    }
    assert calls[..|calls|] == calls;
    ok := true;
  }

  method AcceptPrompt(H: seq<Message>, c: Checkpoint, e: Event, s: Cursor, retained: bool, ghost p: Position)
    returns (r: Result<Cursor, TranscriptProblem>)
    requires Tracks(H, p, s) && retained == Shown(c, e) && e.kind.PromptAccepted?
    ensures r.Ok? <==> Next(H, c, p, e).Some?
    ensures r.Err? ==> Misaligned(r.error)
    ensures r.Ok? ==> Advances(H, c, p, e, s, r.value)
  {
    hide VisibilityOf;
    if s.pendingPrompt.Some? || s.activeTool.Some? || s.queuedCalls != [] { return Err(UnalignedHistory); }
    if s.matched >= |H| { return Err(UnalignedHistory); }
    var message := H[s.matched];
    if message != User(e.text) { return Err(UnalignedHistory); }
    assert H[s.matched..s.matched + 1] == [message];
    return Ok(s.(matched := s.matched + 1, pendingPrompt := Some(retained), currentRun := Some(e.run), seenIds := {},
                 retainedHistory := s.retainedHistory + if retained then [message] else []));
  }

  method AcceptReceipt(H: seq<Message>, c: Checkpoint, e: Event, s: Cursor, retained: bool, ghost p: Position)
    returns (r: Result<Cursor, TranscriptProblem>)
    requires Tracks(H, p, s) && retained == Shown(c, e) && e.kind.AssistantReply?
    requires s.pendingPrompt.Some? ==> s.currentRun == Some(e.run)
    ensures r.Ok? <==> Next(H, c, p, e).Some?
    ensures r.Err? ==> Misaligned(r.error)
    ensures r.Ok? ==> Advances(H, c, p, e, s, r.value)
  {
    hide VisibilityOf, DecodeMessage, FreshCalls, CallIds, Outstanding;
    if s.pendingPrompt != Some(retained) || s.activeTool.Some? || s.queuedCalls != [] { return Err(UnalignedHistory); }
    var receipt := DecodeMessage(e.data);
    if receipt.None? { return Err(UnalignedSource); }
    if s.matched >= |H| { return Err(UnalignedHistory); }
    var assistant := H[s.matched];
    TurnGrows(H, p.open.value.start, p.matched);
    OneMoreMessage(H[p.open.value.start..p.matched], assistant);
    if receipt.value != assistant || !receipt.value.Assistant? || receipt.value.text != e.text
      || receipt.value.calls == []
    {
      return Err(UnalignedHistory);
    }
    var unused, seen := Claim(s.seenIds, receipt.value.calls);
    if !unused { return Err(UnalignedHistory); }
    return Ok(s.(matched := s.matched + 1, seenIds := seen, queuedCalls := s.queuedCalls + receipt.value.calls,
                 retainedHistory := s.retainedHistory + if retained then [assistant] else []));
  }

  lemma OneMoreMessage(turn: seq<Message>, m: Message)
    ensures CallIds(turn + [m]) == CallIds(turn) + set call | call in m.Calls() :: call.id
  {
    forall id | id in CallIds(turn) + set call | call in m.Calls() :: call.id ensures id in CallIds(turn + [m]) {
      if id in CallIds(turn) {
        var x, call :| x in turn && call in x.Calls() && call.id == id;
        assert x in turn + [m];
      } else {
        var call :| call in m.Calls() && call.id == id;
        assert m in turn + [m];
      }
    }
  }

  method BeginTool(H: seq<Message>, c: Checkpoint, e: Event, s: Cursor, retained: bool, ghost p: Position)
    returns (r: Result<Cursor, TranscriptProblem>)
    requires Tracks(H, p, s) && retained == Shown(c, e) && e.kind.ToolStarted?
    requires s.pendingPrompt.Some? ==> s.currentRun == Some(e.run)
    ensures r.Ok? <==> Next(H, c, p, e).Some?
    ensures r.Err? ==> Misaligned(r.error)
    ensures r.Ok? ==> Advances(H, c, p, e, s, r.value)
  {
    hide VisibilityOf, FreshCalls, CallIds, Outstanding;
    if s.pendingPrompt != Some(retained) || s.activeTool.Some? { return Err(UnsupportedToolHistory); }
    var t := s;
    if s.queuedCalls == [] {
      if !retained { return Err(UnsupportedToolHistory); }
      if s.matched >= |H| { return Err(UnalignedHistory); }
      var assistant := H[s.matched];
      TurnGrows(H, p.open.value.start, p.matched);
      OneMoreMessage(H[p.open.value.start..p.matched], assistant);
      if !assistant.Assistant? || assistant.calls == [] { return Err(UnalignedHistory); }
      var unused, seen := Claim(s.seenIds, assistant.calls);
      if !unused { return Err(UnalignedHistory); }
      t := s.(matched := s.matched + 1, seenIds := seen, queuedCalls := s.queuedCalls + assistant.calls,
              retainedHistory := s.retainedHistory + [assistant]);
    }
    var call := t.queuedCalls[0];
    t := t.(queuedCalls := t.queuedCalls[1..]);
    if call.id != e.callId || call.tool != e.text { return Err(UnalignedHistory); }
    return Ok(t.(activeTool := Some(call.id)));
  }

  method EndTool(H: seq<Message>, c: Checkpoint, e: Event, s: Cursor, retained: bool, ghost p: Position)
    returns (r: Result<Cursor, TranscriptProblem>)
    requires Tracks(H, p, s) && retained == Shown(c, e) && e.kind.ToolFinished?
    requires s.pendingPrompt.Some? ==> s.currentRun == Some(e.run)
    ensures r.Ok? <==> Next(H, c, p, e).Some?
    ensures r.Err? ==> Misaligned(r.error)
    ensures r.Ok? ==> Advances(H, c, p, e, s, r.value)
  {
    hide VisibilityOf, FreshCalls, CallIds, DecodeFailed, Outstanding;
    if s.pendingPrompt != Some(retained) { return Err(UnsupportedToolHistory); }
    if s.activeTool.None? { return Err(UnalignedHistory); }
    var id := s.activeTool.value;
    if s.matched >= |H| { return Err(UnalignedHistory); }
    var message := H[s.matched];
    TurnGrows(H, p.open.value.start, p.matched);
    OneMoreMessage(H[p.open.value.start..p.matched], message);
    if !message.Tool? || message.callId != id || e.callId != id { return Err(UnalignedHistory); }
    var failed := DecodeFailed(e.data);
    if failed.None? { return Err(UnalignedSource); }
    if failed.value {
      if message.outcome != Failed([], e.text) { return Err(UnalignedHistory); }
    } else if message.outcome != Succeeded(e.text) {
      return Err(UnalignedHistory);
    }
    return Ok(s.(matched := s.matched + 1, activeTool := None,
                 retainedHistory := s.retainedHistory + if retained then [message] else []));
  }

  method AcceptAnswer(H: seq<Message>, c: Checkpoint, e: Event, s: Cursor, retained: bool, ghost p: Position)
    returns (r: Result<Cursor, TranscriptProblem>)
    requires Tracks(H, p, s) && retained == Shown(c, e) && e.kind.Answer?
    requires s.pendingPrompt.Some? ==> s.currentRun == Some(e.run)
    ensures r.Ok? <==> Next(H, c, p, e).Some?
    ensures r.Err? ==> Misaligned(r.error)
    ensures r.Ok? ==> Advances(H, c, p, e, s, r.value)
  {
    hide VisibilityOf, FreshCalls, CallIds, Outstanding;
    if s.pendingPrompt.None? { return Err(UnalignedHistory); }
    if s.pendingPrompt.value != retained { return Err(SplitTurn); }
    if s.activeTool.Some? || s.queuedCalls != [] { return Err(UnalignedHistory); }
    if s.matched >= |H| { return Err(UnalignedHistory); }
    var message := H[s.matched];
    if message != Assistant(e.text, []) { return Err(UnalignedHistory); }
    return Ok(s.(matched := s.matched + 1, pendingPrompt := None, currentRun := None,
                 retainedHistory := s.retainedHistory + if retained then [message] else []));
  }

  /** One journal event. */
  method ReadEvent(H: seq<Message>, c: Checkpoint, e: Event, s: Cursor, retained: bool, ghost p: Position)
    returns (r: Result<Cursor, TranscriptProblem>)
    requires Tracks(H, p, s) && retained == Shown(c, e)
    ensures r.Ok? <==> Next(H, c, p, e).Some?
    ensures r.Err? ==> Misaligned(r.error)
    ensures r.Ok? ==> Advances(H, c, p, e, s, r.value)
  {
    hide VisibilityOf, FreshCalls, CallIds, DecodeFailed, DecodeMessage, Outstanding;
    if e.kind.PromptAccepted? {
      r := AcceptPrompt(H, c, e, s, retained, p);
    } else if s.pendingPrompt.Some? && s.currentRun != Some(e.run) {
      r := Err(UnalignedHistory);
    } else {
      match e.kind {
        case AssistantReply => r := AcceptReceipt(H, c, e, s, retained, p);
        case ToolStarted => r := BeginTool(H, c, e, s, retained, p);
        case ToolFinished => r := EndTool(H, c, e, s, retained, p);
        case Answer => r := AcceptAnswer(H, c, e, s, retained, p);
        case ModelStarted => r := if s.pendingPrompt.None? then Err(UnalignedHistory) else Ok(s);
        case TextDelta => r := if s.pendingPrompt.None? then Err(UnalignedHistory) else Ok(s);
        case _ => r := Err(UnalignedHistory);
      }
    }
  }

  // ----- the view

  /** The parts of the view: the sequence numbers that are retained and the summary, if there is one.
      A view that has been derived from the journal passes every check. */
  method ReadParts(c: Checkpoint, journal: seq<Event>, view: ContextProjection)
    returns (r: Result<(set<u64>, Option<seq<byte>>), TranscriptProblem>)
    requires SummaryFirst(c, journal) && Contiguous(journal)
    requires view.checkpoint == c.id && view.parts == Parts(c, journal)
    ensures r.Ok?
    ensures forall e | e in journal :: e.sequence in r.value.0 <==> Shown(c, e)
    ensures r.value.1 == SummaryOf(c, journal)
  {
    hide VisibilityOf, Parts, RetainedEvents;
    PartsAre(c, journal);
    RetainedAscend(c, journal);
    var kept := RetainedEvents(c, journal);
    var first := if SummaryOf(c, journal).Some? then 1 else 0;
    var retained: set<u64>, summary: Option<seq<byte>> := {}, None;
    for k := 0 to |view.parts|
      invariant retained == set i | 0 <= i < k - first :: kept[i].sequence
      invariant summary == if k == 0 then None else SummaryOf(c, journal)
    {
      match view.parts[k] {
        case Summary(checkpoint, text, _) =>
          if checkpoint != view.checkpoint || summary.Some? { return Err(UnalignedSource); }
          summary := Some(text);
        case Original(event) =>
          assert event == kept[k - first] && event in kept;
          if event.sequence in retained || event !in journal { return Err(UnalignedSource); }
          retained := retained + {event.sequence};
      }
    }
    RetainedShow(c, journal, retained);
    return Ok((retained, summary));
  }

  lemma {:induction false} RetainedShow(c: Checkpoint, journal: seq<Event>, retained: set<u64>)
    requires var kept := RetainedEvents(c, journal);
      && retained == (set i | 0 <= i < |kept| :: kept[i].sequence)
      && forall e :: e in kept <==> e in journal && Shown(c, e)
    ensures forall e | e in journal :: e.sequence in retained <==> Shown(c, e)
  {
    hide RetainedEvents, Visible;
    var kept := RetainedEvents(c, journal);
    forall e | e in journal ensures e.sequence in retained <==> Shown(c, e) {
      if Shown(c, e) {
        assert e in kept;
        var i :| 0 <= i < |kept| && kept[i] == e;
      }
      if e.sequence in retained {
        var i :| 0 <= i < |kept| && kept[i].sequence == e.sequence;
        assert kept[i] in kept;
      }
    }
  }

  function SummaryOf(c: Checkpoint, journal: seq<Event>): Option<seq<byte>> {
    if journal != [] && VisibilityOf(c, journal[0]) == Summarized then Some(c.summary) else None
  }

  /** The retained events of a contiguous journal ascend, and they are the shown ones. */
  lemma {:induction false} RetainedAscend(c: Checkpoint, events: seq<Event>)
    requires Contiguous(events)
    ensures var kept := RetainedEvents(c, events);
      && (forall e :: e in kept <==> e in events && Shown(c, e))
      && (forall i, j | 0 <= i < j < |kept| :: kept[i].sequence < kept[j].sequence)
      && (forall e | e in kept :: e.sequence <= events[|events| - 1].sequence)
  {
    hide VisibilityOf;
    if events != [] {
      var n := |events| - 1;
      var before := events[..n];
      assert events == before + [events[n]];
      RetainedAscend(c, before);
      if n > 0 { assert before[n - 1] == events[n - 1]; }
    }
  }

  // ----- tool runs

  predicate IsTool(e: Event) { e.kind.ToolStarted? || e.kind.ToolFinished? }

  function ToolRuns(journal: seq<Event>): set<seq<byte>> { set e | e in journal && IsTool(e) :: e.run }

  /** A run with tools is retained as a whole or summarized as a whole. */
  predicate RunsWhole(c: Checkpoint, journal: seq<Event>, runs: set<seq<byte>>) {
    && (forall e | e in journal && e.run in runs :: VisibilityOf(c, e) != Excluded)
    && (forall d, e | d in journal && e in journal && d.run in runs && d.run == e.run :: Shown(c, d) == Shown(c, e))
  }

  /** The recorded visibility of the tool runs met so far. */
  predicate Recorded(c: Checkpoint, events: seq<Event>, runs: set<seq<byte>>, visibility: map<seq<byte>, bool>) {
    && (forall run | run in visibility :: exists e :: e in events && e.run == run)
    && (forall e | e in events && e.run in runs :: e.run in visibility && visibility[e.run] == Shown(c, e))
  }

  method CheckRun(c: Checkpoint, journal: seq<Event>, i: nat, retained: bool, runs: set<seq<byte>>,
                  visibility: map<seq<byte>, bool>)
    returns (r: Result<map<seq<byte>, bool>, TranscriptProblem>)
    requires i < |journal| && retained == Shown(c, journal[i])
    requires RunsWhole(c, journal[..i], runs) && Recorded(c, journal[..i], runs, visibility)
    requires forall run | run in visibility :: run in runs
    ensures r.Ok? ==> RunsWhole(c, journal[..i + 1], runs) && Recorded(c, journal[..i + 1], runs, r.value)
    ensures r.Ok? ==> forall run | run in r.value :: run in runs
    ensures r.Err? ==> !RunsWhole(c, journal, runs) && Misaligned(r.error)
  {
    var event := journal[i];
    OneVisibilityOf(c, event);
    assert journal[..i + 1] == journal[..i] + [event] && event in journal;
    if event.run !in runs { return Ok(visibility); }
    var summarized := Holds(c.summarized, event.sequence);
    if !retained && !summarized { return Err(UnsupportedToolHistory); }
    if event.run in visibility && visibility[event.run] != retained {
      var d :| d in journal[..i] && d.run == event.run;
      assert d in journal;
      return Err(SplitTurn);
    }
    return Ok(visibility[event.run := retained]);
  }

  lemma OneVisibilityOf(c: Checkpoint, e: Event)
    ensures !Shown(c, e) ==> (Holds(c.summarized, e.sequence) <==> VisibilityOf(c, e) != Excluded)
  {
  }

  // ----- the whole request

  function CompactionId(checkpoint: seq<byte>): seq<byte> { Ascii("compaction:") + checkpoint }

  predicate UsesTools(history: seq<Message>) { exists m | m in history :: m.Tool? || m.Calls() != [] }

  predicate RunsTools(journal: seq<Event>) { exists e | e in journal :: IsTool(e) }

  /** The journal reads the whole history up to an open turn of the request's run, which is kept and
      waits for the model. */
  predicate Current(a: ModelRequest, c: Checkpoint, journal: seq<Event>) {
    && At(a.history, c, journal).Some?
    && var p := At(a.history, c, journal).value;
       && p.matched == |a.history| && p.open.Some? && p.open.value.kept && p.open.value.run == a.run
       && !p.open.value.started && Waiting(a.history, p) == []
       && (a.history != [] && a.history[|a.history| - 1].Tool? ==>
             journal != [] && journal[|journal| - 1].kind.ModelStarted?)
  }

  /** When a request may be assembled. */
  ghost predicate Assembles(
    a: ModelRequest, journal: seq<Event>, c: Checkpoint, view: ContextProjection, hash: Hash)
  {
    && (forall e | e in journal :: e.session == a.session)
    && Viewable(c, journal, MAX_U64, hash) && view == Projection(c, journal)
    && (UsesTools(a.history) <==> RunsTools(journal))
    && RunsWhole(c, journal, ToolRuns(journal))
    && Current(a, c, journal)
    && (SummaryOf(c, journal).Some? ==> forall item | item in a.context :: item.id != CompactionId(c.id))
  }

  /** Some event of the journal is summarized. */
  predicate Summarizes(c: Checkpoint, journal: seq<Event>) {
    exists e | e in journal :: VisibilityOf(c, e) == Summarized
  }

  /** In a journal whose summarized events come first it is the first one that tells. */
  lemma SummaryTold(c: Checkpoint, journal: seq<Event>)
    requires SummaryFirst(c, journal)
    ensures SummaryOf(c, journal) == if Summarizes(c, journal) then Some(c.summary) else None
  {
    if Summarizes(c, journal) {
      var e :| e in journal && VisibilityOf(c, e) == Summarized;
      var i :| 0 <= i < |journal| && journal[i] == e;
      assert journal[0] in journal;
    } else if journal != [] {
      assert journal[0] in journal;
    }
  }

  /** The loop over the journal. */
  method ReadJournal(H: seq<Message>, c: Checkpoint, journal: seq<Event>, retainedSequences: set<u64>)
    returns (r: Result<Cursor, TranscriptProblem>)
    requires forall e | e in journal :: e.sequence in retainedSequences <==> Shown(c, e)
    ensures r.Ok? <==> At(H, c, journal).Some? && RunsWhole(c, journal, ToolRuns(journal))
    ensures r.Err? ==> Misaligned(r.error)
    ensures r.Ok? ==> Tracks(H, At(H, c, journal).value, r.value)
    ensures r.Ok? ==> r.value.retainedHistory == KeptSoFar(H, c, journal)
  {
    hide Next, Tracks, Shown, RunsWhole, Recorded;
    var runs := ToolRuns(journal);
    var visibility: map<seq<byte>, bool> := map[];
    var s := Cursor(0, None, None, [], None, {}, []);
    Beginning(H, c, journal, runs, s);
    for i := 0 to |journal|
      invariant At(H, c, journal[..i]).Some? && Tracks(H, At(H, c, journal[..i]).value, s)
      invariant s.retainedHistory == KeptSoFar(H, c, journal[..i])
      invariant RunsWhole(c, journal[..i], runs) && Recorded(c, journal[..i], runs, visibility)
      invariant forall run | run in visibility :: run in runs
    {
      var event := journal[i];
      assert event in journal;
      var retained := event.sequence in retainedSequences;
      var checked := CheckRun(c, journal, i, retained, runs, visibility);
      if checked.Err? { return Err(checked.error); }
      visibility := checked.value;
      OneMore(H, c, journal, i);
      ghost var p := At(H, c, journal[..i]).value;
      var read := ReadEvent(H, c, event, s, retained, p);
      if read.Err? {
        NeverMends(H, c, journal, i + 1);
        return Err(read.error);
      }
      AtSound(H, c, journal[..i + 1]);
      s := read.value;
    }
    assert journal[..|journal|] == journal;
    return Ok(s);
  }

  lemma {:induction false} Beginning(H: seq<Message>, c: Checkpoint, journal: seq<Event>, runs: set<seq<byte>>,
                                     s: Cursor)
    requires s == Cursor(0, None, None, [], None, {}, [])
    ensures At(H, c, journal[..0]) == Some(Position(0, None)) && Tracks(H, Position(0, None), s)
    ensures KeptSoFar(H, c, journal[..0]) == []
    ensures RunsWhole(c, journal[..0], runs) && Recorded(c, journal[..0], runs, map[])
  {
  }

  /** `assemble_verified_basic_request`. */
  method AssembleVerifiedBasicRequest(
    authoritative: ModelRequest, journal: seq<Event>, c: Checkpoint, view: ContextProjection, hash: Hash)
    returns (r: Result<ModelRequest, TranscriptProblem>)
    ensures r.Ok? <==> Assembles(authoritative, journal, c, view, hash)
    ensures r.Ok? ==>
      r.value == authoritative.(history := KeptSoFar(authoritative.history, c, journal), context := r.value.context)
    ensures r.Ok? && Summarizes(c, journal) ==>
      && r.value.context == authoritative.context + [ContextItem(Ascii("compaction:") + c.id, c.summary)]
      && forall item | item in authoritative.context :: item.id != Ascii("compaction:") + c.id
    ensures r.Ok? && !Summarizes(c, journal) ==> r.value.context == authoritative.context
    ensures r == Err(TranscriptProblem.WrongSession) <==> exists e | e in journal :: e.session != authoritative.session
    ensures r == Err(ContextConflict) ==>
      Summarizes(c, journal) && exists item | item in authoritative.context :: item.id == Ascii("compaction:") + c.id
  {
    hide At, Tracks, Parts, PartsPayload, RunsWhole, KeptSoFar, OpenCalls, SummaryFirst, Shown, Viewable;
    hide Waiting, Journal, Summarizes;
    if exists e | e in journal :: e.session != authoritative.session { return Err(TranscriptProblem.WrongSession); }
    ViewedJournal(c, journal, hash);
    var span := SpanForEvents(journal, hash);
    if span.Err? || span.value != view.source { return Err(UnalignedSource); }
    var verified := CompactedView(c, journal, MAX_U64, hash);
    if verified.Err? || verified.value != view { return Err(UnalignedSource); }
    SummaryTold(c, journal);
    var messageTools := UsesTools(authoritative.history);
    var journalTools := RunsTools(journal);
    if messageTools != journalTools { return Err(UnsupportedToolHistory); }
    var parts := ReadParts(c, journal, view);
    match parts {
      case Err(problem) => return Err(problem);
      case Ok(_) =>
    }
    var read := ReadJournal(authoritative.history, c, journal, parts.value.0);
    if read.Err? { return Err(read.error); }
    var s := read.value;
    LastKept(authoritative.history, c, journal, s);
    var retained := s.retainedHistory;
    if s.matched != |authoritative.history| { return Err(UnalignedHistory); }
    if s.currentRun != Some(authoritative.run) { return Err(UnalignedHistory); }
    if s.pendingPrompt != Some(true) || s.activeTool.Some? || s.queuedCalls != []
       || retained == [] || !(retained[|retained| - 1].User? || retained[|retained| - 1].Tool?)
    {
      return Err(MissingCurrentPrompt);
    }
    if retained[|retained| - 1].Tool? && (journal == [] || !journal[|journal| - 1].kind.ModelStarted?) {
      return Err(MissingCurrentPrompt);
    }
    var context := authoritative.context;
    if parts.value.1.Some? {
      var id := CompactionId(view.checkpoint);
      if exists item | item in context :: item.id == id { return Err(ContextConflict); }
      context := context + [ContextItem(id, parts.value.1.value)];
    }
    return Ok(authoritative.(history := retained, context := context));
  }

  lemma ViewedJournal(c: Checkpoint, journal: seq<Event>, hash: Hash)
    ensures Viewable(c, journal, MAX_U64, hash) ==>
      Journal(journal) && Contiguous(journal) && SummaryFirst(c, journal) && SpanOf(journal, hash) == c.input
  {
    hide Sealed, OpenCalls, Parts, PartsPayload, Stream, Small;
  }

  /** The last kept message of a request that has been read up to a kept open turn is the last message of
      the history, and when no call waits it is the user's or a tool's: the check of its role at the end
      of the assembly never refuses. */
  lemma {:induction false} LastKept(H: seq<Message>, c: Checkpoint, journal: seq<Event>, s: Cursor)
    requires At(H, c, journal).Some? && Tracks(H, At(H, c, journal).value, s)
    requires s.retainedHistory == KeptSoFar(H, c, journal)
    ensures var p := At(H, c, journal).value;
      && s.matched == p.matched
      && (s.pendingPrompt == Some(true) && s.matched == |H| ==>
            && p.open.Some? && H != [] && s.retainedHistory != []
            && s.retainedHistory[|s.retainedHistory| - 1] == H[|H| - 1])
      && (s.pendingPrompt == Some(true) && s.matched == |H| && s.activeTool.None? && s.queuedCalls == [] ==>
            H[|H| - 1].User? || H[|H| - 1].Tool?)
      && (s.pendingPrompt.Some? ==>
            && s.currentRun.Some? && p.open.Some?
            && p.open.value.kept == s.pendingPrompt.value && p.open.value.run == s.currentRun.value
            && p.open.value.started == s.activeTool.Some?)
      && (s.pendingPrompt.Some? && s.activeTool.None? ==> s.queuedCalls == Waiting(H, p))
      && (s.pendingPrompt.None? ==> p.open.None?)
  {
    hide At, Consecutive, TurnOk, Kept;
    TurnsStayWhole(H, c, journal);
    var p := At(H, c, journal).value;
    if p.open.Some? && p.open.value.kept {
      var turn := OpenPart(H, p);
      assert turn[|turn| - 1] == H[p.matched - 1];
      if Waiting(H, p) == [] { LastWord(turn); }
    }
  }
}
