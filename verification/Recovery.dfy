/** Crash recovery of an interrupted run: a marker file, a session record and a journal. */
module RecoveryModel {
  import opened Bytes
  import opened Conversations
  import opened Wrappers

  datatype RunStatus = Idle | Running | Completed | Failed | Cancelled | Indeterminate

  /** The part of a session snapshot that recovery reads and writes. */
  datatype Snapshot = Snapshot(status: RunStatus, run: seq<byte>, pending: seq<ToolCall>)

  /** What survives a crash. */
  datatype Disk = Disk(marker: seq<byte>, session: Snapshot, journal: seq<Event>)

  const OWNER_MARKER: seq<byte> := Ascii("phenix.basic.owner.v1\n")
  const RECOVERY_MARKER: seq<byte> := Ascii("phenix.basic.recovery.v1\n")
  const INTERRUPTED_MESSAGE: seq<byte> := Ascii("run interrupted after owner process exited")
  const MARKER_LIMIT := 256
  const PAGE_LIMIT := 128

  /** How an attempt ends: it returns Ok, a check refuses, or a fault stops it, be it an error of the file
      or of a provider or a crash of the process. */
  datatype Attempt = Done | Refused | Stopped

  // ----- markers

  /** `owner_marker` reads a bounded piece of the file. */
  function ReadMarker(file: seq<byte>): seq<byte> { if |file| <= MARKER_LIMIT then file else file[..MARKER_LIMIT] }

  function VerifiedMarker(marker: seq<byte>, prefix: seq<byte>, run: seq<byte>): bool {
    run != [] && marker == prefix + run
  }

  function MarkerText(prefix: seq<byte>, run: Option<seq<byte>>): seq<byte> {
    if run.Some? then prefix + run.value else []
  }

  /** What a write of `text` over `before` may leave when a fault stops it. */
  predicate Torn(before: seq<byte>, text: seq<byte>, after: seq<byte>) { after == before || after <= text }

  /** A marker that was written whole is verified exactly when the reader's limit holds it. */
  lemma WholeMarker(prefix: seq<byte>, run: seq<byte>)
    ensures VerifiedMarker(ReadMarker(prefix + run), prefix, run) <==> 0 < |run| <= MARKER_LIMIT - |prefix|
  {
    var text := prefix + run;
    if |text| > MARKER_LIMIT { assert |ReadMarker(text)| != |text|; }
  }

  /** A torn marker is never taken for a whole one. */
  lemma TornMarker(prefix: seq<byte>, run: seq<byte>, after: seq<byte>)
    requires after <= prefix + run && after != prefix + run
    ensures !VerifiedMarker(ReadMarker(after), prefix, run)
  {
  }

  /** The two kinds of marker cannot be confused. */
  lemma MarkersDiffer(marker: seq<byte>)
    ensures !(OWNER_MARKER <= marker && RECOVERY_MARKER <= marker)
  {
    assert OWNER_MARKER[13] != RECOVERY_MARKER[13];
    if OWNER_MARKER <= marker { assert marker[13] == OWNER_MARKER[13]; }
  }

  /** The bound of the reader is the same for both markers, but the recovery prefix is longer. A run whose
      name has 232 to 234 bytes is recognized as owned and not as recovering: an attempt that a fault
      stops after its first checkpoint can never be completed by a later one. */
  lemma LongNamesStall(run: seq<byte>)
    ensures VerifiedMarker(ReadMarker(OWNER_MARKER + run), OWNER_MARKER, run)
            && !VerifiedMarker(ReadMarker(RECOVERY_MARKER + run), RECOVERY_MARKER, run)
            <==> 232 <= |run| <= 234
  {
    WholeMarker(OWNER_MARKER, run);
    WholeMarker(RECOVERY_MARKER, run);
    assert |OWNER_MARKER| == 22 && |RECOVERY_MARKER| == 25;
  }

  // ----- the journal

  predicate Interruption(e: Event, run: seq<byte>) {
    e.run == run && e.kind.Failure? && e.text == INTERRUPTED_MESSAGE
  }

  function Interruptions(journal: seq<Event>, run: seq<byte>): nat {
    if journal == [] then 0
    else Interruptions(journal[..|journal| - 1], run) + if Interruption(journal[|journal| - 1], run) then 1 else 0
  }

  /** The journal provider numbers its events from one. */
  predicate Numbered(journal: seq<Event>) { forall i | 0 <= i < |journal| :: journal[i].sequence as int == i + 1 }

  datatype Page = Page(events: seq<Event>, next: nat)

  /** `page_from`: up to `limit` events after the offset, and the offset after them. */
  function PageFrom(journal: seq<Event>, after: nat, limit: nat): (page: Option<Page>)
    ensures page.None? <==> limit == 0 || after > |journal|
    ensures page.Some? ==>
      && page.value.events <= journal[after..] && |page.value.events| <= limit
      && (|page.value.events| < limit ==> page.value.events == journal[after..])
      && (Numbered(journal) ==> page.value.next == after + |page.value.events|)
  {
    if limit == 0 || after > |journal| then None
    else
      var end := if after + limit <= |journal| then after + limit else |journal|;
      Some(Page(journal[after..end], if end > after then journal[end - 1].sequence else after))
  }

  lemma {:induction false} InterruptionsSome(journal: seq<Event>, run: seq<byte>)
    ensures Interruptions(journal, run) > 0 <==> exists e :: e in journal && Interruption(e, run)
  {
    if journal != [] {
      var n := |journal| - 1;
      InterruptionsSome(journal[..n], run);
      assert journal == journal[..n] + [journal[n]];
    }
  }

  lemma {:induction false} InterruptionsAppend(journal: seq<Event>, more: seq<Event>, run: seq<byte>)
    ensures Interruptions(journal + more, run) == Interruptions(journal, run) + Interruptions(more, run)
  {
    if more == [] {
      assert journal + more == journal;
    } else {
      var n := |more| - 1;
      assert (journal + more)[..|journal| + n] == journal + more[..n];
      InterruptionsAppend(journal, more[..n], run);
    }
  }

  // ----- the session

  predicate DistinctCalls(calls: seq<ToolCall>) {
    && (forall i | 0 <= i < |calls| :: calls[i].id != [])
    && (forall i, j | 0 <= i < j < |calls| :: calls[i].id != calls[j].id)
  }

  predicate WellFormed(s: Snapshot) { (s.status.Running? ==> s.run != []) && DistinctCalls(s.pending) }

  /** What the session provider's checkpoint accepts. */
  predicate Accepts(prior: Snapshot, next: Snapshot) {
    (prior.status.Indeterminate? ==> next.status.Indeterminate?) && WellFormed(next)
  }

  predicate Ended(s: Snapshot) { !s.status.Idle? && !s.status.Running? }

  /** The run has ended with calls whose effect nobody knows, and no call can be reconciled. */
  predicate Stuck(s: Snapshot) { s.status.Failed? && s.pending != [] }

  /** Only a running, an indeterminate and a failed session has calls pending; an indeterminate one has some. */
  predicate Accounted(s: Snapshot) {
    && WellFormed(s)
    && (s.status.Indeterminate? ==> s.run != [] && s.pending != [])
    && (s.pending != [] ==> s.status.Running? || s.status.Indeterminate? || s.status.Failed?)
  }

  /** What one turn of the agent commits: a prompt starts a run where nothing is unresolved; a reply makes calls
      pending; a result takes one away; a run with no call pending ends; a failure of the kernel ends it wherever
      it is. */
  datatype AgentStep = Prompt(run: seq<byte>) | Calls(calls: seq<ToolCall>) | Result(id: seq<byte>)
    | End(status: RunStatus) | Break

  function Without(calls: seq<ToolCall>, id: seq<byte>): (rest: seq<ToolCall>)
    ensures forall c :: c in rest <==> c in calls && c.id != id
    ensures DistinctCalls(calls) ==> DistinctCalls(rest)
    ensures |rest| <= |calls| && ((exists c :: c in calls && c.id == id) ==> |rest| < |calls|)
  {
    if calls == [] then []
    else
      assert calls == [calls[0]] + calls[1..];
      assert DistinctCalls(calls) ==> DistinctCalls(calls[1..]);
      if calls[0].id == id then Without(calls[1..], id) else [calls[0]] + Without(calls[1..], id)
  }

  lemma OneCallLess(calls: seq<ToolCall>, i: nat)
    requires DistinctCalls(calls) && i < |calls|
    ensures DistinctCalls(calls[..i] + calls[i + 1..])
    ensures forall c :: c in calls[..i] + calls[i + 1..] <==> c in calls && c.id != calls[i].id
  {
    var rest := calls[..i] + calls[i + 1..];
    forall c ensures c in rest <==> c in calls && c.id != calls[i].id {
      if c in calls && c.id != calls[i].id {
        var k :| 0 <= k < |calls| && calls[k] == c;
        assert rest[if k < i then k else k - 1] == c;
      }
    }
  }

  /** The session that the agent means to commit. */
  function After(s: Snapshot, step: AgentStep): Snapshot {
    match step
    case Prompt(run) =>
      if s.status.Running? || s.status.Indeterminate? || s.pending != [] || run == [] then s
      else Snapshot(RunStatus.Running, run, [])
    case Calls(calls) =>
      if s.status.Running? && s.pending == [] && DistinctCalls(calls) then s.(pending := calls) else s
    case Result(id) => if s.status.Running? then s.(pending := Without(s.pending, id)) else s
    case End(status) =>
      if s.status.Running? && s.pending == [] && (status.Completed? || status.Failed? || status.Cancelled?)
      then s.(status := status) else s
    case Break => if s.status.Running? then s.(status := RunStatus.Failed) else s
  }

  /** A prompt, a reply with one call, and a failure of the kernel while the tool works: the session provider
      commits all of it, and nobody can reconcile the call. */
  lemma ALostCall(run: seq<byte>, call: ToolCall)
    requires run != [] && call.id != []
    ensures
      var idle := Snapshot(RunStatus.Idle, [], []);
      var running := After(idle, Prompt(run));
      var calling := After(running, Calls([call]));
      var broken := After(calling, Break);
      && Accounted(idle) && Accepts(idle, running) && Accepts(running, calling) && Accepts(calling, broken)
      && Stuck(broken) && broken.pending == [call]
  {
  }

  // ----- what every disk keeps

  ghost predicate OncePerRun(journal: seq<Event>) { forall run :: Interruptions(journal, run) <= 1 }

  /** A recovery marker beside a session that is not running names the session's run, and the session has
      been put into a recovered status. */
  predicate Fenced(d: Disk) {
    RECOVERY_MARKER <= d.marker && !d.session.status.Running? ==>
      && ReadMarker(d.marker) == ReadMarker(RECOVERY_MARKER + d.session.run) && d.session.run != []
      && (d.session.status.Failed? || d.session.status.Indeterminate?) && !Stuck(d.session)
  }

  ghost predicate Safe(d: Disk) {
    Numbered(d.journal) && OncePerRun(d.journal) && Fenced(d) && Accounted(d.session)
  }

  predicate Owned(d: Disk) { VerifiedMarker(ReadMarker(d.marker), OWNER_MARKER, d.session.run) }

  predicate Recovering(d: Disk) { VerifiedMarker(ReadMarker(d.marker), RECOVERY_MARKER, d.session.run) }

  /** The checks that refuse an attempt. */
  predicate Refuses(d: Disk) {
    if d.session.status.Running? then !Owned(d) && !Recovering(d)
    else !Recovering(d) && RECOVERY_MARKER <= d.marker
  }

  /** A host process that holds the lock of the session. */
  class Host {
    const name: seq<byte>
    var marker: seq<byte>
    var session: Snapshot
    var journal: seq<Event>
    /** Some fault has stopped the process. */
    ghost var faulted: bool
    /** A failure of the kernel has stopped the agent between a call and its result. */
    ghost var lost: bool

    constructor (name: seq<byte>, d: Disk)
      ensures this.name == name && OnDisk() == d && lost == Stuck(d.session)
    {
      this.name, marker, session, journal := name, d.marker, d.session, d.journal;
      faulted, lost := false, Stuck(d.session);
    }

    function OnDisk(): Disk
      reads this
    {
      Disk(marker, session, journal)
    }

    /** `set_marker`: the file is cut, then the prefix and the run are written; a fault may stop it
        anywhere. */
    method SetMarker(prefix: seq<byte>, run: Option<seq<byte>>) returns (alive: bool)
      modifies this`marker, this`faulted
      ensures (!alive ==> faulted) && (alive ==> faulted == old(faulted))
      ensures if alive then marker == MarkerText(prefix, run) else Torn(old(marker), MarkerText(prefix, run), marker)
    {
      alive := *;
      faulted := faulted || !alive;
      if !alive { return; }
      marker := [];
      if run.Some? {
        alive := Write(prefix);
        assert [] + prefix == prefix;
        if !alive { return; }
        alive := Write(run.value);
        if !alive {
          assert marker <= prefix + run.value;
          return;
        }
      }
      alive := *;
      faulted := faulted || !alive;
    }

    /** `write_all`: a fault leaves some first part of the data. */
    method Write(data: seq<byte>) returns (alive: bool)
      modifies this`marker, this`faulted
      ensures (!alive ==> faulted) && (alive ==> faulted == old(faulted))
      ensures alive ==> marker == old(marker) + data
      ensures exists n :: 0 <= n <= |data| && marker == old(marker) + data[..n]
    {
      alive := *;
      faulted := faulted || !alive;
      var n: nat :| n <= |data|;
      if alive { n := |data|; }
      marker := marker + data[..n];
      assert data[..|data|] == data;
    }

    /** The session provider commits a checkpoint in one transaction, if it accepts it. */
    method Checkpoint(s: Snapshot) returns (alive: bool)
      modifies this`session, this`faulted
      ensures (!alive ==> faulted || !Accepts(old(session), s)) && (alive ==> faulted == old(faulted))
        && (old(faulted) ==> faulted)
      ensures Accepts(old(session), s) ==> session == s || (!alive && session == old(session))
      ensures !Accepts(old(session), s) ==> !alive && session == old(session)
    {
      if !Accepts(session, s) { return false; }
      alive := *;
      faulted := faulted || !alive;
      var committed: bool := *;
      if alive || committed { session := s; }
    }

    /** The journal provider numbers and commits an event in one transaction. */
    method Append(e: Event) returns (alive: bool)
      requires Numbered(journal)
      modifies this`journal, this`faulted
      ensures (!alive ==> faulted || |old(journal)| >= MAX_U64) && (alive ==> faulted == old(faulted))
        && (old(faulted) ==> faulted)
      ensures Numbered(journal)
      ensures
        || (|old(journal)| < MAX_U64 && journal == old(journal) + [e.(sequence := |old(journal)| + 1)])
        || (!alive && journal == old(journal))
    {
      if |journal| >= MAX_U64 { return false; }
      alive := *;
      faulted := faulted || !alive;
      var committed: bool := *;
      if alive || committed { journal := journal + [e.(sequence := |journal| + 1)]; }
    }

    /** `recovery_event_exists`: page after page, until the event is found or the journal ends. */
    method RecoveryEventExists(run: seq<byte>) returns (r: Option<bool>)
      requires Numbered(journal)
      modifies this`faulted
      ensures (r.None? ==> faulted) && (r.Some? ==> faulted == old(faulted))
      ensures r.Some? ==> (r.value <==> Interruptions(journal, run) > 0)
    {
      var after: nat := 0;
      InterruptionsSome(journal, run);
      while true
        invariant after <= |journal| && faulted == old(faulted)
        invariant forall i | 0 <= i < after :: !Interruption(journal[i], run)
        decreases |journal| - after
      {
        var fault: bool := *;
        if fault {
          faulted := true;
          return None;
        }
        var page := PageFrom(journal, after, PAGE_LIMIT);
        if page.None? { return None; }
        if exists e | e in page.value.events :: Interruption(e, run) {
          var e :| e in page.value.events && Interruption(e, run);
          assert e in journal;
          return Some(true);
        }
        if page.value.events == [] { return Some(false); }
        if page.value.next <= after { return None; }
        forall i | after <= i < page.value.next ensures !Interruption(journal[i], run) {
          assert page.value.events[i - after] == journal[i];
        }
        after := page.value.next;
      }
    }

    /** `recover_owned_run`. Whatever stops it, the disk stays safe: no run is ever reported twice. Unless a
        fault stops it, or the journal is full, it returns Ok exactly when it is not refused. When it returns Ok
        the marker is gone, and if the session was running, or an earlier attempt had already
        claimed it, its run is reported exactly once: it has failed if no call was pending, and it is
        indeterminate if one was, so that the user can reconcile it. A fault strands the session only by tearing
        the very first write, before anything else has changed. */
    method RecoverOwnedRun() returns (r: Attempt)
      requires Safe(OnDisk())
      modifies this`marker, this`session, this`journal, this`faulted
      ensures Safe(OnDisk()) && old(journal) <= journal
      ensures session.run == old(session).run && session.pending == old(session).pending
      ensures session == old(session) || old(session).status.Running?
      ensures session != old(session) && session.pending == [] ==> session.status.Failed?
      ensures session != old(session) && session.pending != [] ==> session.status.Indeterminate?
      ensures forall run | run != session.run :: Interruptions(journal, run) == Interruptions(old(journal), run)
      ensures r.Refused? ==> old(Refuses(OnDisk()))
      ensures (old(faulted) ==> faulted) && (r.Stopped? ==> faulted || |old(journal)| >= MAX_U64)
      ensures !faulted && |old(journal)| < MAX_U64 ==> !r.Stopped? && (r.Done? <==> !old(Refuses(OnDisk())))
      ensures old(Refuses(OnDisk())) ==> !r.Done? && OnDisk() == old(OnDisk())
      ensures r.Done? ==> marker == []
      ensures r.Done? && (old(session).status.Running? || old(Recovering(OnDisk()))) ==>
        && (session.status.Indeterminate? <==> session.pending != [])
        && (session.status.Failed? <==> session.pending == [])
        && Interruptions(journal, session.run) == 1
      ensures r.Done? && !(old(session).status.Running? || old(Recovering(OnDisk()))) ==>
        session == old(session) && journal == old(journal)
      ensures r.Stopped? && |session.run| <= 231 && Refuses(OnDisk()) && !old(Refuses(OnDisk())) ==>
        session == old(session) && journal == old(journal) && marker < RECOVERY_MARKER + session.run
    {
      hide Interruptions, Interruption, OncePerRun, Numbered;
      Prefixes(session.run);
      ghost var d := OnDisk();
      var fault: bool := *;
      if fault {
        faulted := true;
        return Stopped;
      }
      var text := ReadMarker(marker);
      var snapshot := session;
      var recovering := VerifiedMarker(text, RECOVERY_MARKER, snapshot.run);
      if snapshot.status.Running? {
        if !VerifiedMarker(text, OWNER_MARKER, snapshot.run) && !recovering { return Refused; }
        if !recovering {
          var written := SetMarker(RECOVERY_MARKER, Some(snapshot.run));
          if !written { return Stopped; }
        }
        snapshot := snapshot.(status := if snapshot.pending == [] then RunStatus.Failed else Indeterminate);
        var committed := Checkpoint(snapshot);
        if !committed { return Stopped; }
      } else if !recovering {
        if RECOVERY_MARKER <= text { return Refused; }
        var cleared := SetMarker(OWNER_MARKER, None);
        return if cleared then Done else Stopped;
      }
      if !snapshot.status.Failed? && !snapshot.status.Indeterminate? { return Refused; }
      r := Announce(snapshot.run);
    }

    // ----- the life of a session

    /** The agent and its plugins work while the marker is not one of recovery: the agent takes a step, which is
        committed or not, and they append any events but reports of interruption. */
    method Work(step: AgentStep)
      requires Safe(OnDisk()) && !(RECOVERY_MARKER <= marker)
      modifies this`session, this`journal, this`lost
      ensures Safe(OnDisk()) && old(journal) <= journal && Accepts(old(session), session)
      ensures session == old(session) || session == After(old(session), step)
      ensures old(session).status.Indeterminate? || old(Stuck(session)) ==> session == old(session)
      ensures Stuck(session) && !old(Stuck(session)) ==>
        step.Break? && old(session).status.Running? && session.pending == old(session).pending
      ensures lost <==> old(lost) || (Stuck(session) && !old(Stuck(session)))
    {
      var next := After(session, step);
      var more: seq<Event> := *;
      var committed: bool := *;
      if committed {
        lost := lost || (Stuck(next) && !Stuck(session));
        session := next;
      }
      if Numbered(journal + more) && forall e | e in more :: !(e.kind.Failure? && e.text == INTERRUPTED_MESSAGE) {
        NoReports(journal, more);
        journal := journal + more;
      }
    }

    /** `mark_admitted_run`: only a run that has been committed as running is marked as owned. */
    method MarkAdmittedRun() returns (r: Option<bool>)
      requires Safe(OnDisk()) && !(RECOVERY_MARKER <= marker)
      modifies this`marker, this`faulted
      ensures (r.None? ==> faulted) && (old(faulted) ==> faulted)
      ensures !faulted ==> r == Some(session.status.Running? && session.run != [])
      ensures Safe(OnDisk()) && !(RECOVERY_MARKER <= marker)
      ensures r == Some(true) ==> session.status.Running? && marker == OWNER_MARKER + session.run
      ensures r == Some(true) && |session.run| <= 234 ==> Owned(OnDisk())
      ensures r == Some(false) ==> marker == old(marker)
    {
      hide OncePerRun, Numbered;
      WholeMarker(OWNER_MARKER, session.run);
      Prefixes(session.run);
      var fault: bool := *;
      if fault {
        faulted := true;
        return None;
      }
      if session.status.Running? && session.run != [] {
        var written := SetMarker(OWNER_MARKER, Some(session.run));
        if marker <= OWNER_MARKER + session.run { OwnerText(session.run, marker); }
        return if written then Some(true) else None;
      }
      return Some(false);
    }

    /** One process: it recovers, works, marks its run, works on, and clears the marker when the graph has
        finished, unless a fault stops it first. */
    method Serve(steps: seq<AgentStep>) returns (r: Attempt)
      requires Safe(OnDisk()) && (lost <==> Stuck(session))
      modifies this
      ensures Safe(OnDisk()) && old(journal) <= journal
      ensures lost <==> Stuck(session)
      ensures old(Stuck(session)) ==> session == old(session)
      ensures old(session).status.Indeterminate? ==> session == old(session)
      ensures r.Done? ==> marker == []
      ensures (old(faulted) ==> faulted) && (r.Stopped? ==> faulted || |old(journal)| >= MAX_U64)
    {
      hide OncePerRun, Numbered;
      r := RecoverOwnedRun();
      if !r.Done? { return; }
      var marked := false;
      for i := 0 to |steps|
        invariant (old(faulted) ==> faulted) && Safe(OnDisk()) && !(RECOVERY_MARKER <= marker)
          && old(journal) <= journal
        invariant lost <==> Stuck(session)
        invariant old(Stuck(session)) || old(session).status.Indeterminate? ==> session == old(session)
      {
        Work(steps[i]);
        if !marked {
          var mark := MarkAdmittedRun();
          if mark.None? { return Stopped; }
          marked := mark.value;
        }
      }
      var cleared := SetMarker(OWNER_MARKER, None);
      r := if cleared then Done else Stopped;
    }

    /** A user reconciles one call of an indeterminate session: it runs on once none is left. */
    method Reconcile(id: seq<byte>) returns (ok: bool)
      requires Safe(OnDisk())
      modifies this`session
      ensures Safe(OnDisk())
      ensures ok <==> old(session).status.Indeterminate? && exists c :: c in old(session).pending && c.id == id
      ensures !ok ==> session == old(session)
      ensures ok ==>
        && session.run == old(session).run
        && (forall c :: c in session.pending <==> c in old(session).pending && c.id != id)
        && (session.status.Running? <==> session.pending == [])
        && (session.status.Indeterminate? <==> session.pending != [])
    {
      if !session.status.Indeterminate? || id == [] { return false; }
      if i :| 0 <= i < |session.pending| && session.pending[i].id == id {
        var rest := session.pending[..i] + session.pending[i + 1..];
        assert session.pending[i] in session.pending;
        OneCallLess(session.pending, i);
        session := session.(pending := rest, status := if rest == [] then Running else Indeterminate);
        return true;
      }
      return false;
    }

    /** A user reconciles the pending calls one by one, in any order. This resolves all of them exactly when the
        session is indeterminate. A session resolved after recovery is running and has no marker, so that the
        next host refuses it. */
    method ReconcileAll()
      requires Safe(OnDisk())
      modifies this`session
      ensures Safe(OnDisk())
      ensures old(session).status.Indeterminate? ==>
        session == old(session).(status := RunStatus.Running, pending := []) && (marker == [] ==> Refuses(OnDisk()))
      ensures !old(session).status.Indeterminate? ==> session == old(session)
      ensures Ended(old(session)) ==> (session.pending == [] <==> !Stuck(old(session)))
    {
      hide OncePerRun, Numbered;
      var ids := set c | c in session.pending :: c.id;
      while ids != {}
        invariant Safe(OnDisk()) && session.run == old(session).run
        invariant old(session).status.Indeterminate? ==>
          && (forall c :: c in session.pending <==> c in old(session).pending && c.id in ids)
          && (if session.pending == [] then session.status.Running? else session.status.Indeterminate?)
        invariant !old(session).status.Indeterminate? ==> session == old(session)
        decreases ids
      {
        var id :| id in ids;
        ids := ids - {id};
        var ok := Reconcile(id);
      }
      assert session.pending != [] ==> session.pending[0] in session.pending;
    }

    /** Any number of processes, one after the other, each stopped anywhere, with calls reconciled between them:
        no run is ever reported twice, and no report is ever lost. An ended run with calls pending can be
        reconciled exactly when no failure of the kernel has stopped the agent between a call and its result.
        Such a session stays as it is for ever. */
    method AnyHistory(processes: seq<seq<AgentStep>>)
      requires Safe(OnDisk()) && (lost <==> Stuck(session))
      modifies this
      ensures Safe(OnDisk()) && old(journal) <= journal
      ensures Ended(session) && session.pending != [] ==> (session.status.Indeterminate? <==> !lost)
      ensures lost <==> Stuck(session)
      ensures old(lost) ==> session == old(session)
    {
      hide OncePerRun, Numbered;
      for i := 0 to |processes|
        invariant Safe(OnDisk()) && old(journal) <= journal
        invariant lost <==> Stuck(session)
        invariant old(lost) ==> session == old(session)
      {
        var reconciled: bool := *;
        var id: seq<byte> := *;
        if reconciled { var ok := Reconcile(id); }
        var end := Serve(processes[i]);
      }
    }

    /** The second half of `recover_owned_run`: the report, unless the journal has it, and the end of the
        marker. */
    method Announce(run: seq<byte>) returns (r: Attempt)
      requires Numbered(journal) && OncePerRun(journal)
      modifies this`marker, this`journal, this`faulted
      ensures (old(faulted) ==> faulted) && (r.Stopped? ==> faulted || |old(journal)| >= MAX_U64)
      ensures Numbered(journal) && OncePerRun(journal) && old(journal) <= journal
      ensures forall other | other != run :: Interruptions(journal, other) == Interruptions(old(journal), other)
      ensures r.Done? || r.Stopped?
      ensures r.Done? ==> marker == [] && Interruptions(journal, run) == 1
      ensures r.Stopped? ==> marker == old(marker) || marker == []
    {
      hide Interruptions, Interruption;
      ghost var before := journal;
      var found := RecoveryEventExists(run);
      if found.None? { return Stopped; }
      if !found.value {
        var e := Event(0, name, run, EventKind.Failure, [], INTERRUPTED_MESSAGE, []);
        var appended := Append(e);
        Reported(before, journal, run);
        if !appended { return Stopped; }
      }
      var cleared := SetMarker(OWNER_MARKER, None);
      return if cleared then Done else Stopped;
    }
  }

  /** Nothing that is written of an owner marker looks like a recovery marker. */
  lemma OwnerText(run: seq<byte>, text: seq<byte>)
    requires text <= OWNER_MARKER + run
    ensures !(RECOVERY_MARKER <= text)
  {
    if |text| >= 22 { assert text[..22] == (OWNER_MARKER + run)[..22] == OWNER_MARKER; }
    MarkersDiffer(text);
    Prefixes(run);
  }

  lemma {:induction false} NoReports(journal: seq<Event>, more: seq<Event>)
    requires OncePerRun(journal) && forall e | e in more :: !(e.kind.Failure? && e.text == INTERRUPTED_MESSAGE)
    ensures OncePerRun(journal + more)
  {
    forall run ensures Interruptions(journal + more, run) <= 1 {
      InterruptionsAppend(journal, more, run);
      InterruptionsSome(more, run);
      assert Interruptions(journal, run) <= 1;
    }
  }

  lemma Prefixes(run: seq<byte>)
    ensures |OWNER_MARKER| == 22 && |RECOVERY_MARKER| == 25
  {
  }

  /** A report is appended only where there was none. */
  lemma {:induction false} Reported(before: seq<Event>, after: seq<Event>, run: seq<byte>)
    requires OncePerRun(before) && Interruptions(before, run) == 0
    requires before <= after && |after| <= |before| + 1
    requires |after| == |before| + 1 ==>
      after[|before|] == Event(after[|before|].sequence, after[|before|].session, run, EventKind.Failure, [],
        INTERRUPTED_MESSAGE, [])
    ensures OncePerRun(after)
    ensures |after| == |before| + 1 ==> Interruptions(after, run) == 1
    ensures forall other | other != run :: Interruptions(after, other) == Interruptions(before, other)
  {
    if |after| == |before| + 1 {
      assert after[..|before|] == before;
    } else {
      assert after == before;
    }
  }
}
