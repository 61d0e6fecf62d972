/** The serial kernel: dispatch, pending tickets, cancellation and release.

    Native plugin code is adversarial. It is modelled by `RunNative`, which makes any finite
    sequence of host requests and then returns any reply; `fuel` bounds how deeply native calls
    may nest, so the proofs, which hold for every `fuel`, cover every terminating execution. */
module KernelModel {
  import opened Wrappers
  import opened Contract
  import opened Bytes
  import V = Values
  import ValueCodec
  import StateCodec
  import Schemas
  import opened Prepared
  import opened Tickets
  import opened Worlds
  import C = CellStore
  import opened StateRequests

  /** A native reply: its status and value. */
  datatype Reply = Reply(status: nat, value: V.Value)

  datatype Ticket = Ticket(id: nat, root: nat)

  datatype Call = Done(outcome: Outcome) | Waiting(ticket: Ticket)

  datatype Caller = RootCaller | Plugin(id: string, slot: string) | Graph(owner: string) {
    function Name(): string {
      match this
      case RootCaller => "root"
      case Plugin(id, _) => id
      case Graph(owner) => owner
    }

    function Slot(): string { if Plugin? then slot else "" }
  }

  /** What native code may ask of its host. */
  datatype HostRequest =
    | StateCall(opcode: nat, bytes: seq<byte>)
    | Import(slot: string, selection: Selection, input: seq<byte>, scope: Option<ScopedRequest>)
    | BeginPending(slot: string, selection: Selection, input: seq<byte>, scope: Option<ScopedRequest>)
    | PollPending(slot: string, key: string, ticket: nat)
    | CancelPending(slot: string, key: string, ticket: nat)

  /** The native code of all plugins: any code at all, or code that, once its ticket is cancelled, polls
      each of its children and then ends. */
  datatype NativeCode = Anything | Devouring

  // ----- native replies

  /** Status 3: the native call goes on. */
  predicate StillPending(reply: Result<Reply, Failure>) { reply == Ok(Reply(3, V.Null)) }

  /** Status 4: native work has ended after a cancellation. */
  predicate Drained(reply: Result<Reply, Failure>) { reply == Ok(Reply(4, V.Null)) }

  /** Statuses 0, 1 and 5 end the native work. */
  predicate Finishes(reply: Result<Reply, Failure>) { reply.Ok? && reply.value.status in {0, 1, 5} }

  /** The reply carries a declared result. */
  predicate Completes(p: Prepared, selection: Selection, reply: Result<Reply, Failure>) {
    && p.Operation(selection).Ok?
    && reply.Ok?
    && var contract := p.Operation(selection).value;
    && (|| (reply.value.status == 0 && Schemas.Accepts(contract.response, reply.value.value))
        || (reply.value.status == 1 && Schemas.Accepts(contract.error, reply.value.value)))
  }

  function Completion(reply: Result<Reply, Failure>): Outcome
    requires Finishes(reply)
  {
    if reply.value.status == 0 then Success(reply.value.value) else Domain(reply.value.value)
  }

  /** Why a reply fails the call: work of its own is still live (`!quiet`), native code failed, the reply reports a
      failure, or it carries a value that is not declared or a status that does not exist. */
  predicate FailsAs(reply: Result<Reply, Failure>, quiet: bool, failure: Failure) {
    if Finishes(reply) && !quiet then failure.code == PluginFailed
    else if reply.Err? then failure == reply.error
    else reply.value.status in {2, 5} || failure.code == if Finishes(reply) then SchemaRejected else AbiIncompatible
  }

  /** The result that a reply stands for; `reported` is the failure its value decodes to. */
  function Verdict(p: Prepared, selection: Selection, reply: Result<Reply, Failure>, reported: Failure)
    : (r: Result<Outcome, Failure>)
    requires p.Operation(selection).Ok?
    ensures r.Ok? <==> Completes(p, selection, reply)
    ensures r.Ok? ==> Finishes(reply) && r.value == Completion(reply) && Declared(p, selection, r.value)
    ensures r.Err? ==> FailsAs(reply, true, r.error)
    ensures reply.Ok? && reply.value.status in {2, 5} ==> r == Err(reported)
  {
    match reply
    case Err(failure) => Err(failure)
    case Ok(Reply(status, value)) =>
      var contract := p.Operation(selection).value;
      if status == 0 && Schemas.Accepts(contract.response, value) then Ok(Success(value))
      else if status == 1 && Schemas.Accepts(contract.error, value) then Ok(Domain(value))
      else if status == 2 || status == 5 then Err(reported)
      else if status == 0 || status == 1 then Err(Failure(SchemaRejected))
      else Err(Failure(AbiIncompatible))
  }

  /** The record after a reply with the given verdict; only the first terminal status counts. */
  function Settled(r: Record, reply: Result<Reply, Failure>, verdict: Result<Outcome, Failure>): Record {
    if Drained(reply) && r.cancelled then r.(native := true)
    else if r.logical != Pending then r.(native := Finishes(reply))
    else r.(
      native := Finishes(reply),
      logical := if verdict.Ok? then Ready else Failed,
      result := Some(verdict))
  }

  /** What a reply other than "still pending" makes of record `r`: a completion counts only while the
      call was pending and its imported work had ended, anything else fails it. */
  ghost predicate Replied(p: Prepared, T: Forest, r: Record, reply: Result<Reply, Failure>, s: Record, id: nat) {
    && Kin(r, s) && SameMarks(r, s)
    && (s.native <==>
          (reply.Ok? && reply.value.status in {0, 1, 5}) || (reply == Ok(Reply(4, V.Null)) && r.cancelled))
    && (r.logical != Pending ==> s.result == r.result)
    && (r.logical == Pending && Completes(p, r.selection, reply) && ChildrenQuiet(T, id) ==>
          s.logical == Ready && s.result == Some(Ok(Completion(reply))))
    && (r.logical == Pending && !(Completes(p, r.selection, reply) && ChildrenQuiet(T, id)) ==>
          && s.logical == Failed && s.result.Some? && s.result.value.Err?
          && FailsAs(reply, ChildrenQuiet(T, id), s.result.value.error))
  }

  /** The settled record is as promised, and the children of a failed call may now be cancelled. */
  lemma ReplySettles(p: Prepared, w: World, open: set<nat>, id: nat, reply: Result<Reply, Failure>,
                     result: Result<Outcome, Failure>)
    requires Calm(p, w, open) && id in w.state.tickets && !w.state.tickets[id].native && !StillPending(reply)
    requires p.Operation(w.state.tickets[id].selection).Ok?
    requires result.Ok? <==> Completes(p, w.state.tickets[id].selection, reply) && ChildrenQuiet(w.state.tickets, id)
    requires result.Ok? ==> result.value == Completion(reply)
    requires result.Err? ==> FailsAs(reply, ChildrenQuiet(w.state.tickets, id), result.error)
    ensures var r := w.state.tickets[id]; var s := Settled(r, reply, result);
      && Replied(p, w.state.tickets, r, reply, s, id) && s.ancestors == r.ancestors
      && Step(p, w, PutTicket(w, id, s), id)
      && (Drained(reply) && r.cancelled ==> s.native && s.parent == r.parent)
      && if result.Err? && !(Drained(reply) && r.cancelled)
         then s.Revoked() && Lagging(p, PutTicket(w, id, s), open + {id}, id)
         else Lagging(p, PutTicket(w, id, s), open, id)
  {
    hide Sane, Ran, Step, Exact;
    TicketFacts(p, w, open, id);
    TypedTicket(p, w, open, id);
    StillWorking(p, w, open, id);
    SettleStep(p, w, open, id, Settled(w.state.tickets[id], reply, result));
  }

  lemma OneStatus(reply: Result<Reply, Failure>)
    ensures StillPending(reply) ==> !Drained(reply)
  {
  }

  lemma FlagsOnly(T: Forest, U: Forest, id: nat)
    requires SameTree(T, U) && id in T
    ensures id in U && SameButQuiet(T[id], U[id])
  {
  }

  lemma RepliedButQuiet(p: Prepared, T: Forest, r: Record, reply: Result<Reply, Failure>, s: Record, t: Record, id: nat)
    requires Replied(p, T, r, reply, s, id) && SameButQuiet(s, t)
    ensures Replied(p, T, r, reply, t, id) && Entered(r, t)
  {
  }

  /** Below a frame, a call is made through an import that is bound for the frame's plugin. */
  predicate ThroughImport(p: Prepared, S: Stack, slot: string, selection: Selection) {
    S != [] ==> p.Bound(S[|S| - 1].provider, ImportIdentity(slot, selection.Key()), selection.provider)
  }

  lemma ImportedBelowTop(p: Prepared, w: World, open: set<nat>, slot: string, selection: Selection, r: Record)
    requires Calm(p, w, open) && ThroughImport(p, w.state.stack, slot, selection)
    requires r.slot == slot && r.selection == selection
    requires r.parent == if w.state.stack == [] then None else w.state.stack[|w.state.stack| - 1].ticket
    ensures Imported(p, w.state.tickets, r)
  {
    if w.state.stack != [] { assert Carries(w.state.tickets, w.state.stack[|w.state.stack| - 1]); }
  }

  /** A pending call has begun: its ticket has the next number, belongs to the caller's ticket if it has one, and
      holds the import that it was made through and the scope that it was granted. */
  ghost predicate Begun(a: World, b: World, ticket: Ticket, root: nat, selection: Selection, slot: string,
                        scope: Result<ScopedRequest, Failure>)
  {
    && ticket.root == root && scope.Ok?
    && a.state.nextTicket == ticket.id < b.state.nextTicket && ticket.id < MAX_U64
    && ticket.id in b.state.tickets
    && var r := b.state.tickets[ticket.id];
      && r.root == root && r.selection == selection
      && r.parent == (if a.state.stack == [] then None else a.state.stack[|a.state.stack| - 1].ticket)
      && r.slot == slot && r.authority == scope.value.authority && r.resource == scope.value.resource
      && !r.cancelled && !r.delivered && !r.abandoned
  }

  /** The reply to the poll that consumes a finished child. */
  function ChildReply(result: Option<Result<Outcome, Failure>>, failureText: V.Value): Reply {
    match result
    case None => Reply(4, V.Null)
    case Some(Ok(Success(value))) => Reply(0, value)
    case Some(Ok(Domain(value))) => Reply(1, value)
    case Some(Err(_)) => Reply(2, failureText)
  }

  /** What the poll of a finished child answers: its stored outcome or failure, or that it was
      cancelled before it had one. */
  predicate AnswersFor(p: Prepared, r: Record, reply: Reply) {
    && reply.status in {0, 1, 2, 4}
    && (reply.status == 0 ==> r.result == Some(Ok(Success(reply.value))))
    && (reply.status == 1 ==> r.result == Some(Ok(Domain(reply.value))))
    && (reply.status in {0, 1} ==> Declared(p, r.selection, Answered(reply)))
    && (reply.status == 2 ==> r.result.Some? && r.result.value.Err?)
    && (reply.status == 4 ==> r.result == None && r.logical == Logical.Cancelled)
  }

  lemma ChildReplyFits(p: Prepared, r: Record, failureText: V.Value)
    requires r.result.Some? || r.logical == Logical.Cancelled
    requires Typed(p, r)
    ensures AnswersFor(p, r, ChildReply(r.result, failureText))
  {
  }

  /** The outcome that a reply with status 0 or 1 stands for. */
  function Answered(reply: Reply): (outcome: Outcome)
    requires reply.status in {0, 1}
    ensures outcome == Success(reply.value) <==> reply.status == 0
  {
    if reply.status == 0 then Success(reply.value) else Domain(reply.value)
  }

  /** The reply to a call: an outcome at once, or the ticket to ask for it with. */
  function CallReply(call: Call): Reply
    requires call.Waiting? ==> call.ticket.id < MAX_U64
  {
    match call
    case Done(Success(value)) => Reply(0, value)
    case Done(Domain(value)) => Reply(1, value)
    case Waiting(ticket) => Reply(3, V.U64(ticket.id))
  }

  /** The reply to a state request. */
  function StateReply(r: Result<V.Value, C.AccessError>): Reply {
    match r case Ok(value) => Reply(0, value) case Err(error) => Reply(1, StateCodec.ErrorValue(error))
  }

  /** ... and what it stands for. */
  function StateAnswer(reply: Reply): Result<V.Value, C.AccessError>
    requires reply.status == 0 || (reply.status == 1 && StateCodec.ErrorOf(reply.value).Some?)
  {
    if reply.status == 0 then Ok(reply.value) else Err(StateCodec.ErrorOf(reply.value).value)
  }

  lemma StateReplyStands(r: Result<V.Value, C.AccessError>)
    ensures var reply := StateReply(r);
      && (reply.status == 0 || (reply.status == 1 && StateCodec.ErrorOf(reply.value).Some?))
      && StateAnswer(reply) == r
  {
    if r.Err? { StateCodec.ErrorBijection(r.error, StateCodec.ErrorValue(r.error)); }
  }

  /** The fields spell out this edit. */
  predicate Sets(fields: seq<V.Field>, edit: C.Edit) {
    && Schemas.Lookup(fields, Ascii("location")) == Some(V.Ref(edit.location))
    && Schemas.Lookup(fields, Ascii("expected")) == Some(V.U64(edit.expected))
    && Schemas.Lookup(fields, Ascii("value")) == Some(edit.value)
  }

  /** The state request behind a property operation. */
  function CellRequest(op: CellOperation, request: V.Value): (r: Result<StateRequest, Failure>)
    ensures r.Err? ==> r.error.code == SchemaRejected
    ensures op.Get? ==> if request.Ref? then r == Ok(StateRequest.Read(request.location)) else r.Err?
    ensures op.Watch? ==> if request.Ref? then r == Ok(StateRequest.Subscribe(request.location)) else r.Err?
    ensures op.Set? && r.Ok? ==> r.value.CompareExchange? && request.Map? && Sets(request.fields, r.value.edit)
    ensures op.Set? && r.Err? ==> !request.Map? || forall edit :: !Sets(request.fields, edit)
  {
    match op
    case Get => if request.Ref? then Ok(StateRequest.Read(request.location)) else Err(Failure(SchemaRejected))
    case Watch => if request.Ref? then Ok(StateRequest.Subscribe(request.location)) else Err(Failure(SchemaRejected))
    case Set =>
      if !request.Map? then Err(Failure(SchemaRejected))
      else
        var location := Schemas.Lookup(request.fields, Ascii("location"));
        var expected := Schemas.Lookup(request.fields, Ascii("expected"));
        var value := Schemas.Lookup(request.fields, Ascii("value"));
        if location.Some? && location.value.Ref? && expected.Some? && expected.value.U64? && value.Some?
        then Ok(StateRequest.CompareExchange(C.Edit(location.value.location, expected.value.unsigned, value.value)))
        else Err(Failure(SchemaRejected))
  }

  function RequestLocation(request: StateRequest): V.Location
    requires request.Read? || request.Subscribe? || request.CompareExchange?
  {
    match request
    case Read(location) => location
    case Subscribe(location) => location
    case CompareExchange(edit) => edit.location
  }

  function ErrorName(error: C.AccessError): (name: string)
    ensures error.Conflict? <==> name == "Conflict"
    ensures error.Denied? <==> name == "Denied"
    ensures error.OwnerGone? <==> name == "OwnerGone"
    ensures error.SchemaMismatch? <==> name == "SchemaMismatch"
    ensures error.StaleReference? || error.RevisionExhausted? || error.EpochExhausted? <==> name == "StaleReference"
  {
    match error
    case Conflict(_, _) => "Conflict"
    case Denied => "Denied"
    case OwnerGone => "OwnerGone"
    case SchemaMismatch => "SchemaMismatch"
    case _ => "StaleReference"
  }

  /** The operation declares the outcome. */
  predicate Fits(operation: PreparedOperation, outcome: Outcome) {
    match outcome
    case Success(value) => Schemas.Accepts(operation.response, value)
    case Domain(value) => Schemas.Accepts(operation.error, value)
  }

  function PropertyKey(resource: string, op: CellOperation): string {
    ContractOf(resource) + "/" + (match op case Get => "get" case Set => "set" case Watch => "watch")
  }

  predicate WellFormed(request: StateRequest) { request.Batch? ==> request.edits != [] && Ascending(request.edits) }

  predicate ChildrenQuiet(T: Forest, id: nat) {
    forall c | c in T && T[c].parent == Some(id) :: T[c].quiescent
  }

  class Kernel {
    const prepared: Prepared
    const code: NativeCode
    const cells: C.Cells
    var state: State
    /** How often the result of each ticket has been handed to a caller. */
    ghost var handed: multiset<nat>
    /** Every protected effect so far. */
    ghost var effects: seq<Effect>
    /** The scope of the root that was admitted last. */
    ghost var bound: ScopedRequest

    ghost function Now(): World
      reads this, cells
    {
      World(state, handed, effects, cells.cells, cells.history, cells.subscriptions, bound)
    }

    ghost predicate Inv(open: set<nat>)
      reads this, cells
    {
      Calm(prepared, Now(), open) && cells.Valid()
    }

    /** A loaded kernel at rest, with no root admitted. */
    constructor (prepared: Prepared, code: NativeCode, cells: C.Cells)
      requires cells.Valid()
      ensures this.prepared == prepared && this.code == code && this.cells == cells
      ensures Inv({}) && state == State(map[], 1, [], 1, None, false, 0, 0, false, map[]) && effects == []
    {
      this.prepared := prepared;
      this.code := code;
      this.cells := cells;
      state := State(map[], 1, [], 1, None, false, 0, 0, false, map[]);
      handed := multiset{};
      effects, bound := [], ScopedRequest(Authority({}, {}), None);
    }

    // ----- quiescence and release

    /** `children`: the tickets whose parent is `id`, oldest first. */
    static function ChildrenBefore(T: Forest, id: nat, next: nat): (cs: seq<nat>)
      ensures forall c :: c in cs <==> c < next && c in T && T[c].parent == Some(id)
      ensures forall i, j | 0 <= i < j < |cs| :: cs[i] != cs[j]
    {
      if next == 0 then []
      else if next - 1 in T && T[next - 1].parent == Some(id) then ChildrenBefore(T, id, next - 1) + [next - 1]
      else ChildrenBefore(T, id, next - 1)
    }

    function Children(id: nat): (cs: seq<nat>)
      requires TreeOk(prepared, state.tickets, state.nextTicket)
      reads this
      ensures forall c :: c in cs <==> c in state.tickets && state.tickets[c].parent == Some(id)
      ensures forall i, j | 0 <= i < j < |cs| :: cs[i] != cs[j]
    {
      assert forall c | c in state.tickets :: Hangs(prepared, state.tickets, state.nextTicket, c);
      ChildrenBefore(state.tickets, id, state.nextTicket)
    }

    /** One pass over the tickets, youngest first, brings every derived flag up to date. */
    method RefreshQuiescence(ghost open: set<nat>, ghost t: nat)
      requires Lagging(prepared, Now(), open, t) && cells.Valid()
      modifies this`state
      ensures Inv(open) && Step(prepared, old(Now()), Now(), t)
      ensures Winds(old(Now()), Now(), t) && Devours(old(Now()), Now())
      ensures state == old(state).(tickets := state.tickets) && SameTree(old(state).tickets, state.tickets)
      ensures forall x | x in state.tickets && old(state).tickets[x].quiescent :: state.tickets[x].quiescent
    {
      hide Sane, Ran, Step, Exact, ExactBut, Sound, RefreshedFrom, ParentsFirst, SameTree, Quiet;
      ghost var w := Now();
      ghost var before := state.tickets;
      var id := state.nextTicket;
      LaggingTree(prepared, w, open, t);
      RefreshStart(prepared, before, state.nextTicket);
      while 0 < id
        invariant 0 <= id <= state.nextTicket
        invariant state == w.state.(tickets := state.tickets)
        invariant RefreshedFrom(before, state.tickets, id)
      {
        id := id - 1;
        if id in state.tickets {
          RefreshStep(before, state.tickets, id);
          state := state.(tickets := state.tickets[id := state.tickets[id].(quiescent := Quiet(state.tickets, id))]);
        } else {
          RefreshSkip(before, state.tickets, id);
        }
      }
      RefreshDone(before, state.tickets);
      RefreshWinds(w, Now(), t);
      RefreshWorld(prepared, w, open, state.tickets, t);
    }

    lemma AlsoGone(T: Forest, U: Forest, id: nat)
      requires id in T
      ensures T.Keys - (U - {id}).Keys == T.Keys - U.Keys + {id}
    {
    }

    /** Forgets ticket `id` and everything below it, and the cursors of the forgotten tickets. */
    method ReleaseTree(id: nat)
      requires TreeOk(prepared, state.tickets, state.nextTicket) && id in state.tickets && cells.Valid()
      modifies this`state, cells`subscriptions
      ensures state == old(state).(tickets := Without(old(state).tickets, id)) && cells.Valid()
      ensures cells.subscriptions
        == C.Silenced(old(cells.subscriptions), old(state).tickets.Keys - state.tickets.Keys)
      decreases state.nextTicket - id
    {
      hide C.Silenced, TreeOk;
      cells.ReleaseTicket(id);
      ghost var before, heard := state, old(cells.subscriptions);
      var children := Children(id);
      assert WithoutAll(before.tickets, []) == before.tickets;
      assert before.tickets.Keys - state.tickets.Keys + {id} == {id};
      var k := 0;
      while k < |children|
        invariant 0 <= k <= |children| && cells.Valid()
        invariant state == before.(tickets := WithoutAll(before.tickets, children[..k]))
        invariant TreeOk(prepared, state.tickets, state.nextTicket)
        invariant cells.subscriptions == C.Silenced(heard, before.tickets.Keys - state.tickets.Keys + {id})
      {
        ghost var w1 := state.tickets;
        ParentChain(prepared, before.tickets, before.nextTicket, children[k]);
        AllYounger(prepared, before.tickets, before.nextTicket);
        WithoutOneMore(prepared, before.tickets, before.nextTicket, id, children, k);
        WithoutKeepsTree(prepared, state.tickets, state.nextTicket, children[k]);
        ReleaseTree(children[k]);
        C.SilencedTwice(heard, before.tickets.Keys, w1.Keys, state.tickets.Keys, id);
        k := k + 1;
      }
      assert children[..k] == children;
      WithoutChildren(prepared, before.tickets, before.nextTicket, id, children);
      state := state.(tickets := state.tickets - {id});
      AlsoGone(before.tickets, WithoutAll(before.tickets, children), id);
    }

    // ----- the call stack

    /** `CallGuard::new`: the scope of a call goes on the stack. */
    method PushFrame(f: Frame) returns (r: Result<(), Failure>)
      modifies this`state
      ensures r.Ok? <==> old(state).nextScope < MAX_U64
      ensures r.Ok? ==> state == old(state).(stack := old(state).stack + [f], nextScope := old(state).nextScope + 1)
      ensures r.Err? ==> r == Err(Failure(InfrastructureFailure)) && state == old(state)
    {
      if state.nextScope >= MAX_U64 { return Err(Failure(InfrastructureFailure)); }
      state := state.(stack := state.stack + [f], nextScope := state.nextScope + 1);
      return Ok(());
    }

    /** The guard of the top call is dropped. */
    method PopFrame()
      requires state.stack != []
      modifies this`state
      ensures state == old(state).(stack := old(state).stack[..|old(state).stack| - 1])
    {
      state := state.(stack := state.stack[..|state.stack| - 1]);
    }

    // ----- cancellation and native entry

    /** No scope number is left for another native call. */
    ghost predicate Exhausted()
      reads this`state
    {
      state.nextScope >= MAX_U64
    }

    /** Native code devours what it finds, and nothing keeps it from doing so. */
    ghost predicate Devoured(fuel: nat, id: nat)
      reads this`state
    {
      code.Devouring? && Ample(state, fuel, id)
    }

    /** ... when the frame of ticket `id` is already on the stack. */
    ghost predicate DevouredInside(fuel: nat, id: nat)
      reads this`state
    {
      code.Devouring? && 0 < fuel && id in state.tickets && state.tickets[id].cancelled
        && Ample(state, fuel - 1, id + 1)
    }

    /** The first part of `cancel_ticket`: the ticket itself is marked. */
    method MarkTicket(id: nat, ghost fuel: nat, ghost open: set<nat>)
      requires Inv(open) && id in state.tickets && !state.tickets[id].quiescent
      modifies this`state
      ensures Inv(open + {id}) && Lagging(prepared, Now(), open + {id}, id)
      ensures state == old(state).(tickets := old(state).tickets[id := CancelledRecord(old(state).tickets[id])])
      ensures Step(prepared, old(Now()), Now(), id) && Winds(old(Now()), Now(), id) && Devours(old(Now()), Now())
      ensures old(Devoured(fuel, id)) ==> Ample(state, fuel, id)
    {
      hide Sane, Ran, Step, Exact, ExactBut, Sound, Spared, Devours, Ample;
      ghost var w0, devours := Now(), Devoured(fuel, id);
      MarkStep(prepared, w0, open, id);
      state := state.(tickets := state.tickets[id := CancelledRecord(state.tickets[id])]);
      SameKeysWind(w0, Now(), id);
      SameWorkDevours(w0, Now());
      if devours { AmpleKept(w0, Now(), fuel, id); }
    }

    /** `cancel_ticket`: the ticket and every live ticket below it lose their authority, and native
        code is told. This holds whether the call succeeds or fails. */
    method CancelTicket(id: nat, fuel: nat, ghost open: set<nat>) returns (r: Result<bool, Failure>)
      requires Inv(open) && Reachable(state, open, id)
      modifies this`state, this`handed, this`effects, cells
      ensures Inv(open) && Step(prepared, old(Now()), Now(), id)
      ensures id in state.tickets && Kin(old(state).tickets[id], state.tickets[id])
      ensures Winds(old(Now()), Now(), id) && state.stack == old(state).stack
      ensures old(Devoured(fuel, id)) && !old(state).tickets[id].cancelled && !old(state).tickets[id].quiescent ==>
        r.Ok? && Devours(old(Now()), Now()) && state.tickets[id].quiescent
      ensures old(state).tickets[id].cancelled || old(state).tickets[id].quiescent ==>
        r == Err(Failure(ScopeRejected)) && Now() == old(Now())
      ensures !old(state).tickets[id].quiescent ==> state.tickets[id].cancelled
      ensures !old(state).tickets[id].quiescent ==>
        state.tickets[id].logical == CancelledRecord(old(state).tickets[id]).logical
      ensures !old(state).tickets[id].quiescent ==>
        forall d | d in state.tickets && id in state.tickets[d].ancestors && !state.tickets[d].quiescent ::
          state.tickets[d].cancelled
      ensures r.Err? && !old(state).tickets[id].cancelled && !old(state).tickets[id].quiescent ==> Exhausted()
      ensures old(Exhausted()) && !old(state).tickets[id].cancelled && !old(state).tickets[id].quiescent ==> r.Err?
      ensures r.Ok? ==> r.value == state.tickets[id].quiescent
      decreases fuel, 0, state.nextTicket - id, 6
    {
      hide Sane, Ran, Step, StepBelow, Exact, ExactBut, Sound, TopOk, CellsAdvance, TopEffect, Present, Handled;
      hide Marks, Typed, Declared;
      hide Spared, Devours, Ample;
      var record := state.tickets[id];
      ghost var w0 := Now();
      StepStays(prepared, w0, open, id);
      SameKeysWind(w0, w0, id);
      ghost var devours := Devoured(fuel, id);
      TicketFacts(prepared, w0, open, id);
      if record.cancelled || record.quiescent {
        if record.cancelled { CancelledBelow(prepared, w0, open, id); }
        return Err(Failure(ScopeRejected));
      }
      MarkTicket(id, fuel, open);
      ghost var w1 := Now();
      var descendants := CancelChildren(id, fuel, open);
      ghost var w2 := Now();
      BelowIsStep(prepared, w1, w2, id);
      ThenStep(prepared, w0, w1, w2, id);
      if devours { AmpleKept(w0, w2, fuel, id); }
      var own := EnterTicket(id, true, fuel, open);
      StepRan(prepared, w2, Now(), id);
      ThenStep(prepared, w0, w2, Now(), id);
      CancelledBelow(prepared, Now(), open, id);
      if descendants.Err? { return Err(descendants.error); }
      if own.Err? { return Err(own.error); }
      return Ok(state.tickets[id].quiescent);
    }

    /** `cancel_children`: every live child is cancelled, even when one of them reports a failure. */
    method CancelChildren(id: nat, fuel: nat, ghost open: set<nat>) returns (r: Result<(), Failure>)
      requires Lagging(prepared, Now(), open + {id}, id) && cells.Valid()
      requires id in state.tickets && state.tickets[id].Revoked() && open <= state.tickets[id].ancestors
      requires OnPath(state, id)
      modifies this`state, this`handed, this`effects, cells
      ensures Lagging(prepared, Now(), open, id) && cells.Valid()
      ensures old(Exact(state.tickets)) ==> Exact(state.tickets)
      ensures StepBelow(prepared, old(Now()), Now(), id)
      ensures Winds(old(Now()), Now(), id) && state.stack == old(state).stack
      ensures old(Devoured(fuel, id)) ==> r.Ok? && Devours(old(Now()), Now())
      ensures r.Err? ==> Exhausted()
      ensures old(Exhausted()) ==> r.Err? || Now() == old(Now())
      decreases fuel, 0, state.nextTicket - id, 1
    {
      hide Sane, Ran, Step, StepBelow, Exact, ExactBut, Sound, TopOk, CellsAdvance, TopEffect, Present, Handled;
      hide Marks, Typed, Declared;
      hide Spared, Devours, Ample;
      hide Calm, Lagging, Reachable, OnPath, SameButQuiet;
      ghost var w0 := Now();
      LaggingTree(prepared, w0, open + {id}, id);
      StepStays(prepared, w0, open + {id}, id);
      SameKeysWind(w0, w0, id);
      SameWorkDevours(w0, w0);
      ghost var devours := Devoured(fuel, id);
      var children := Children(id);
      ChildrenPresent(state.tickets, id, children);
      var firstFailure: Option<Failure> := None;
      var k := 0;
      while k < |children|
        invariant 0 <= k <= |children|
        invariant Lagging(prepared, Now(), open + {id}, id) && cells.Valid()
        invariant old(Exact(state.tickets)) ==> Exact(state.tickets)
        invariant StepBelow(prepared, w0, Now(), id)
        invariant Winds(w0, Now(), id) && (devours ==> firstFailure.None? && Devours(w0, Now()))
        invariant (firstFailure.Some? ==> Exhausted())
          && (w0.state.nextScope >= MAX_U64 ==> firstFailure.Some? || Now() == w0)
        invariant state.stack == w0.state.stack
        invariant id in state.tickets && state.tickets[id].ancestors == w0.state.tickets[id].ancestors
          && OnPath(state, id)
        invariant Present(state.tickets, id, children) && Handled(state.tickets, children, k)
      {
        var child := children[k];
        PresentChild(state.tickets, id, children, k);
        if !state.tickets[child].cancelled && !state.tickets[child].quiescent {
          ghost var w1 := Now();
          ChildToCancel(prepared, w1, open, id, child);
          if devours {
            AmpleKept(w0, w1, fuel, id);
            AmpleBelow(state, fuel, id, child);
          }
          var cancelled := CancelTicket(child, fuel, open + {id});
          ChildWound(prepared, w0, w1, Now(), open + {id}, id, child, devours);
          StepRan(prepared, w1, Now(), child);
          if cancelled.Err? && firstFailure.None? { firstFailure := Some(cancelled.error); }
          ChildCancelled(prepared, w0, w1, Now(), open, id, children, k);
        }
        OneMoreHandled(state.tickets, id, children, k);
        k := k + 1;
      }
      ChildrenDone(prepared, w0, Now(), open, id, children);
      return if firstFailure.Some? then Err(firstFailure.value) else Ok(());
    }

    /** `drain_children`: polls the live children of a revoked ticket. */
    method DrainChildren(id: nat, fuel: nat, ghost open: set<nat>) returns (r: Result<(), Failure>)
      requires Inv(open) && id in state.tickets && state.tickets[id].Revoked()
      requires open <= state.tickets[id].ancestors && OnPath(state, id)
      modifies this`state, this`handed, this`effects, cells
      ensures Inv(open) && StepBelow(prepared, old(Now()), Now(), id)
      ensures Winds(old(Now()), Now(), id) && state.stack == old(state).stack
      ensures old(Devoured(fuel, id)) ==> r.Ok? && Devours(old(Now()), Now()) && ChildrenQuiet(state.tickets, id)
      ensures r.Err? ==> Exhausted()
      ensures old(Exhausted() && !ChildrenQuiet(state.tickets, id)) ==> r.Err?
      decreases fuel, 0, state.nextTicket - id, 2
    {
      hide Sane, Ran, Step, StepBelow, Exact, ExactBut, Sound, TopOk, CellsAdvance, TopEffect, Present, Handled;
      hide Marks, Typed, Declared;
      hide Spared, Devours, Ample;
      hide Draining, Winds;
      ghost var w0 := Now();
      CalmIsLagging(prepared, w0, open, id);
      LaggingTree(prepared, w0, open, id);
      ghost var devours := Devoured(fuel, id);
      var children := Children(id);
      DrainStarts(prepared, w0, open, id, children, devours);
      var k := 0;
      while k < |children|
        invariant 0 <= k <= |children| && Inv(open) && Draining(prepared, w0, Now(), id, children, k, devours)
      {
        DrainNext(prepared, w0, Now(), id, children, k, devours);
        if !state.tickets[children[k]].quiescent {
          r := DrainChild(id, children[k], fuel, open, w0, children, k, devours);
          if r.Err? { return; }
        } else {
          DrainSkips(prepared, w0, Now(), id, children, k, devours);
        }
        k := k + 1;
      }
      DrainEnds(prepared, w0, Now(), id, children, devours);
      return Ok(());
    }

    /** One live child is polled. */
    method DrainChild(id: nat, child: nat, fuel: nat, ghost open: set<nat>, ghost w0: World, ghost children: seq<nat>,
                      ghost k: nat, ghost devours: bool)
      returns (r: Result<(), Failure>)
      requires Inv(open) && id in state.tickets && state.tickets[id].Revoked()
      requires open <= state.tickets[id].ancestors && OnPath(state, id)
      requires k < |children| && child == children[k] && child in state.tickets
        && state.tickets[child].parent == Some(id)
      requires !state.tickets[child].quiescent
      requires Draining(prepared, w0, Now(), id, children, k, devours)
        && (devours ==> code.Devouring? && Ample(w0.state, fuel, id))
      modifies this`state, this`handed, this`effects, cells
      ensures Inv(open) && StepBelow(prepared, w0, Now(), id) && Winds(w0, Now(), id) && state.stack == w0.state.stack
      ensures r.Ok? ==> Draining(prepared, w0, Now(), id, children, k + 1, devours)
      ensures r.Err? ==> !devours && Exhausted()
      decreases fuel, 0, state.nextTicket - id, 1
    {
      hide Sane, Ran, Step, StepBelow, Exact, ExactBut, Sound, TopOk, CellsAdvance, TopEffect, Present, Handled;
      hide Marks, Typed, Declared;
      hide Spared, Devours, Ample;
      hide Draining, Winds;
      ghost var w1 := Now();
      ChildToDrain(prepared, w1, open, id, child);
      if devours {
        DrainAmple(prepared, w0, w1, id, children, k, fuel);
        AmpleBelow(state, fuel, id, child);
      }
      r := EnterTicket(child, false, fuel, open);
      DrainStep(prepared, w0, w1, Now(), open, id, children, k, devours && r.Ok?);
      if r.Ok? { DrainedChild(prepared, w0, w1, Now(), open, id, children, k, devours); }
    }

    /** The last part of `enter_ticket` for a revoked ticket: its children are polled, and the derived
        flags are brought up to date. */
    method DrainAndRefresh(id: nat, fuel: nat, ghost open: set<nat>) returns (r: Result<(), Failure>)
      requires Inv(open) && id in state.tickets && state.tickets[id].Revoked()
      requires open <= state.tickets[id].ancestors && OnPath(state, id)
      modifies this`state, this`handed, this`effects, cells
      ensures Inv(open) && Step(prepared, old(Now()), Now(), id) && Winds(old(Now()), Now(), id)
      ensures state.stack == old(state).stack
      ensures id in state.tickets && SameButQuiet(old(state).tickets[id], state.tickets[id])
      ensures old(Devoured(fuel, id)) && old(state).tickets[id].native ==>
        r.Ok? && Devours(old(Now()), Now()) && state.tickets[id].quiescent
      ensures r.Err? ==> Exhausted()
      ensures old(Exhausted() && !ChildrenQuiet(state.tickets, id)) ==> r.Err?
      decreases fuel, 0, state.nextTicket - id, 3
    {
      hide Sane, Ran, Step, StepBelow, Exact, ExactBut, Sound, TopOk, CellsAdvance, TopEffect, Present, Handled;
      hide Marks, Typed, Declared;
      hide Spared, Devours, Ample;
      hide SameButQuiet;
      ghost var w0 := Now();
      ghost var devours := Devoured(fuel, id) && state.tickets[id].native;
      r := DrainChildren(id, fuel, open);
      ghost var w1 := Now();
      BelowIsStep(prepared, w0, w1, id);
      if r.Err? { return; }
      CalmIsLagging(prepared, w1, open, id);
      SameNative(w0.state.tickets[id], w1.state.tickets[id]);
      RefreshQuiescence(open, id);
      FlagsOnly(w1.state.tickets, state.tickets, id);
      SameTwice(w0.state.tickets[id], w1.state.tickets[id], state.tickets[id]);
      ThenStep(prepared, w0, w1, Now(), id);
      if devours { QuietAgain(prepared, w1, Now(), open, id); }
    }

    /** `enter_ticket`: native code of the ticket runs once, as a poll or as a cancellation. */
    method EnterTicket(id: nat, cancel: bool, fuel: nat, ghost open: set<nat>) returns (r: Result<(), Failure>)
      requires Inv(open) && MayEnter(state, open, id)
      modifies this`state, this`handed, this`effects, cells
      ensures Inv(open) && Step(prepared, old(Now()), Now(), id) && state.stack == old(state).stack
      ensures id in state.tickets && Entered(old(state).tickets[id], state.tickets[id])
      ensures old(state).tickets[id].Revoked() ==> Winds(old(Now()), Now(), id)
      ensures old(Devoured(fuel, id)) && old(state).tickets[id].cancelled ==>
        r.Ok? && Devours(old(Now()), Now()) && state.tickets[id].quiescent
      ensures r.Err? ==> Exhausted()
      ensures old(Exhausted() && !state.tickets[id].quiescent) ==> r.Err?
      decreases fuel, if state.tickets[id].Revoked() then 0 else 1, state.nextTicket - id, 5
    {
      hide Sane, Ran, Step, StepBelow, Exact, ExactBut, Sound, TopOk, CellsAdvance, TopEffect, Present, Handled;
      hide Marks, Typed, Declared;
      hide Spared, Devours, Ample;
      hide Entered, SameButQuiet, DevoursOne;
      ghost var w0 := Now();
      TicketFacts(prepared, w0, open, id);
      StepStays(prepared, w0, open, id);
      SameKeysWind(w0, w0, id);
      ghost var devours := Devoured(fuel, id) && state.tickets[id].cancelled;
      var record := state.tickets[id];
      EnteredSame(record);
      if record.native {
        LiveAboveLive(prepared, w0, open, id);
        r := DrainAndRefresh(id, fuel, open);
        EnteredFacts(record, state.tickets[id]);
        return;
      }
      var frame := TicketFrame(record, id);
      if devours { AmpleInside(w0, frame, fuel, id); }
      var pushed := PushFrame(frame);
      if pushed.Err? { return pushed; }
      EnterFrame(prepared, w0, open, id);
      r := RunTicket(id, fuel, open);
      ghost var entered := Now();
      LeaveFrame(prepared, w0, frame, entered, open, id);
      PopFrame();
      assert state.stack == w0.state.stack;
      PoppedWinds(w0, frame, entered, id, devours);
    }

    /** The part of `enter_ticket` during which the frame of the ticket is on the stack. */
    method RunTicket(id: nat, fuel: nat, ghost open: set<nat>) returns (r: Result<(), Failure>)
      requires Inv(open) && id in state.tickets && open <= state.tickets[id].ancestors && id < state.nextTicket
      requires state.stack != [] && state.stack[|state.stack| - 1].ticket == Some(id)
      requires TopOk(state.tickets, state.stack, open)
      modifies this`state, this`handed, this`effects, cells
      ensures Inv(open) && Step(prepared, old(Now()), Now(), id)
      ensures id in state.tickets && Entered(old(state).tickets[id], state.tickets[id])
      ensures old(state).tickets[id].Revoked() ==> Winds(old(Now()), Now(), id)
      ensures old(DevouredInside(fuel, id)) ==>
        r.Ok? && DevoursOne(old(Now()), Now()) && state.tickets[id].quiescent
      ensures r.Err? ==> Exhausted()
      decreases fuel, if state.tickets[id].Revoked() then 0 else 1, state.nextTicket - id, 4
    {
      hide Sane, Ran, Step, StepBelow, Exact, ExactBut, Sound, TopOk, CellsAdvance, TopEffect, Present, Handled;
      hide Marks, Typed, Declared;
      hide Spared, Devours, Ample;
      hide Entered, SameButQuiet, Retired, DevoursOne;
      ghost var w1 := Now();
      TopRecord(prepared, w1, open, id);
      ghost var devours := DevouredInside(fuel, id);
      var reply := RunNative(fuel, open);
      ghost var w2 := Now();
      TopEffectOnTicket(prepared, w1, w2, id);
      TicketFacts(prepared, w2, open, id);
      EnteredFacts(w1.state.tickets[id], w2.state.tickets[id]);
      AcceptReply(id, reply, fuel, open);
      ghost var w3 := Now();
      ThenStep(prepared, w1, w2, w3, id);
      EnteredTrans(w1.state.tickets[id], w2.state.tickets[id], w3.state.tickets[id]);
      if devours { NativeDone(prepared, w1, w2, w3, fuel, id); }
      if state.tickets[id].Revoked() {
        r := DrainAndRefresh(id, fuel, open);
      } else {
        CalmIsLagging(prepared, w3, open, id);
        RefreshQuiescence(open, id);
        FlagsOnly(w3.state.tickets, state.tickets, id);
        r := Ok(());
      }
      ThenStep(prepared, w1, w3, Now(), id);
      EnteredTrans(w1.state.tickets[id], w3.state.tickets[id], state.tickets[id]);
    }

    /** `accept_reply`: what a native reply does to its ticket. */
    method AcceptReply(id: nat, reply: Result<Reply, Failure>, fuel: nat, ghost open: set<nat>)
      requires Inv(open) && id in state.tickets && !state.tickets[id].native && open <= state.tickets[id].ancestors
      requires state.stack != [] && state.stack[|state.stack| - 1].ticket == Some(id)
      modifies this`state, this`handed, this`effects, cells
      ensures Inv(open) && Step(prepared, old(Now()), Now(), id)
      ensures id in state.tickets && Winds(old(Now()), Now(), id) && state.stack == old(state).stack
      ensures Entered(old(state).tickets[id], state.tickets[id])
      ensures reply == Ok(Reply(3, V.Null)) ==> Now() == old(Now())
      ensures reply != Ok(Reply(3, V.Null)) ==>
        Replied(prepared, old(state).tickets, old(state).tickets[id], reply, state.tickets[id], id)
      ensures Drained(reply) && old(state).tickets[id].cancelled ==>
        state.nextScope == old(state).nextScope && Retired(old(state).tickets, state.tickets, id)
      decreases fuel, 0, state.nextTicket - id, 3
    {
      hide Sane, Ran, Step, StepBelow, Exact, ExactBut, Sound, TopOk, CellsAdvance, TopEffect, Present, Handled;
      hide Marks, Typed, Declared;
      hide Spared, Devours, Ample;
      hide Calm, Lagging;
      hide Settled, Replied, Completes, Completion, Drained, SameTree, SameButQuiet, Kin, Retired;
      ghost var w0 := Now();
      CalmIsLagging(prepared, w0, open, id);
      StepStays(prepared, w0, open, id);
      TicketFacts(prepared, w0, open, id);
      var liveChildren := !ChildrenQuiet(state.tickets, id);
      var record := state.tickets[id];
      EnteredSame(record);
      SameKeysWind(w0, w0, id);
      OneStatus(reply);
      if StillPending(reply) { return; }
      var reported: Code := *;
      var result := Verdict(prepared, record.selection, reply, Failure(reported));
      if Finishes(reply) && liveChildren { result := Err(Failure(PluginFailed)); }
      SettleTicket(id, reply, result, fuel, open);
      ghost var w3 := Now();
      RefreshQuiescence(open, id);
      ThenStep(prepared, w0, w3, Now(), id);
      FlagsOnly(w3.state.tickets, state.tickets, id);
      if Drained(reply) && record.cancelled { RetiredRefreshed(w0.state.tickets, w3.state.tickets, state.tickets, id); }
      RepliedButQuiet(prepared, w0.state.tickets, record, reply, w3.state.tickets[id], state.tickets[id], id);
    }

    /** The part of `accept_reply` that records the result; a failed call loses its subscriptions and
        its children are cancelled. */
    method SettleTicket(id: nat, reply: Result<Reply, Failure>, result: Result<Outcome, Failure>, fuel: nat,
                        ghost open: set<nat>)
      requires Inv(open) && id in state.tickets && !state.tickets[id].native && open <= state.tickets[id].ancestors
      requires state.stack != [] && state.stack[|state.stack| - 1].ticket == Some(id)
      requires prepared.Operation(state.tickets[id].selection).Ok? && !StillPending(reply)
      requires result.Ok? <==>
        Completes(prepared, state.tickets[id].selection, reply) && ChildrenQuiet(state.tickets, id)
      requires result.Ok? ==> result.value == Completion(reply)
      requires result.Err? ==> FailsAs(reply, ChildrenQuiet(state.tickets, id), result.error)
      modifies this`state, this`handed, this`effects, cells
      ensures Lagging(prepared, Now(), open, id) && cells.Valid() && Step(prepared, old(Now()), Now(), id)
      ensures id in state.tickets && Winds(old(Now()), Now(), id) && state.stack == old(state).stack
      ensures Replied(prepared, old(state).tickets, old(state).tickets[id], reply, state.tickets[id], id)
      ensures Drained(reply) && old(state).tickets[id].cancelled ==>
        state.nextScope == old(state).nextScope && Retired(old(state).tickets, state.tickets, id)
      decreases fuel, 0, state.nextTicket - id, 2
    {
      hide Sane, Ran, Step, StepBelow, Exact, ExactBut, Sound, TopOk, CellsAdvance, TopEffect, Present, Handled;
      hide Marks, Typed, Declared;
      hide Spared, Devours, Ample;
      hide Calm, Lagging;
      hide Settled, Replied, Completes, Completion, Drained, SameTree, SameButQuiet, Kin, Retired;
      ghost var w0 := Now();
      var record := state.tickets[id];
      ReplySettles(prepared, w0, open, id, reply, result);
      var settled := Settled(record, reply, result);
      if Drained(reply) && record.cancelled { SettledRetires(state.tickets, id, settled); }
      var failed := result.Err? && !(Drained(reply) && record.cancelled);
      StoreResult(id, settled, failed);
      ghost var w1 := Now();
      CursorsGo(prepared, w0, PutTicket(w0, id, settled), w1, if failed then open + {id} else open, id);
      SameKeysWind(w0, w1, id);
      if failed {
        var cancelled := CancelChildren(id, fuel, open);
        BelowIsStep(prepared, w1, Now(), id);
        ThenStep(prepared, w0, w1, Now(), id);
        RepliedButQuiet(prepared, w0.state.tickets, record, reply, settled, state.tickets[id], id);
      }
    }

    /** The settled record is stored; a failed call loses its own subscriptions and no others. */
    method StoreResult(id: nat, settled: Record, failed: bool)
      requires id in state.tickets && cells.Valid()
      modifies this`state, cells`subscriptions
      ensures cells.Valid() && Now() == PutTicket(old(Now()), id, settled).(cursors := cells.subscriptions)
      ensures cells.subscriptions
        == if failed then C.Silenced(old(cells.subscriptions), {id}) else old(cells.subscriptions)
    {
      state := state.(tickets := state.tickets[id := settled]);
      if failed { cells.ReleaseTicket(id); }
    }

    // ----- adversarial native code

    /** Native code of the top frame: any finite sequence of host requests, then any reply. */
    method RunNative(fuel: nat, ghost open: set<nat>) returns (reply: Result<Reply, Failure>)
      requires Inv(open) && state.stack != [] && TopOk(state.tickets, state.stack, open)
      modifies this`state, this`handed, this`effects, cells
      ensures Inv(open) && TopEffect(prepared, old(Now()), Now())
      ensures state.stack == old(state).stack && TopOk(state.tickets, state.stack, open)
      ensures old(state).stack[|old(state).stack| - 1].ticket.Some? ==>
        var id := old(state).stack[|old(state).stack| - 1].ticket.value;
        old(DevouredInside(fuel, id)) ==>
          && Drained(reply) && Devours(old(Now()), Now())
          && forall c | c in state.tickets :: state.tickets[c].parent != Some(id)
      decreases fuel, 0, 0, 1
    {
      hide Sane, Ran, Step, StepBelow, Exact, ExactBut, Sound, TopOk, CellsAdvance, TopEffect, Present, Handled;
      hide Marks, Typed, Declared;
      hide Spared, Devours, Ample;
      ghost var w0 := Now();
      TopEffectStays(prepared, w0, open);
      var top := state.stack[|state.stack| - 1];
      if code.Devouring? && top.ticket.Some? && top.ticket.value in state.tickets
         && state.tickets[top.ticket.value].cancelled && 0 < fuel
      {
        Devour(top.ticket.value, fuel, open);
        return Ok(Reply(4, V.Null));
      }
      var requests: nat := *;
      while 0 < requests && 0 < fuel
        invariant Inv(open) && TopEffect(prepared, w0, Now())
        invariant state.stack == w0.state.stack && TopOk(state.tickets, state.stack, open)
        decreases requests
      {
        requests := requests - 1;
        var request: HostRequest := *;
        ghost var w1 := Now();
        var answer := HostCall(request, fuel - 1, open);
        TopEffectTrans(prepared, w0, w1, Now());
      }
      reply := *;
    }

    /** The native code of a cancelled ticket polls each of its children. */
    method Devour(id: nat, fuel: nat, ghost open: set<nat>)
      requires Inv(open) && state.stack != [] && TopOk(state.tickets, state.stack, open)
      requires state.stack[|state.stack| - 1].ticket == Some(id) && id in state.tickets && state.tickets[id].cancelled
      requires code.Devouring? && 0 < fuel
      modifies this`state, this`handed, this`effects, cells
      ensures Inv(open) && TopEffect(prepared, old(Now()), Now())
      ensures state.stack == old(state).stack && TopOk(state.tickets, state.stack, open)
      ensures old(Ample(state, fuel - 1, id + 1)) ==>
        && Devours(old(Now()), Now())
        && forall c | c in state.tickets :: state.tickets[c].parent != Some(id)
      decreases fuel, 0, 0, 0
    {
      hide Sane, Ran, Step, StepBelow, Exact, ExactBut, Sound, TopOk, CellsAdvance, TopEffect, Present, Handled;
      hide Marks, Typed, Declared;
      hide Spared, Devours, Ample;
      hide Eaten, Inv;
      ghost var w0 := Now();
      DevourStarts(id, open);
      ghost var ample := Ample(state, fuel - 1, id + 1);
      var children := Children(id);
      NoneEaten(state.tickets, children);
      var k := 0;
      while k < |children|
        invariant 0 <= k <= |children| && Inv(open) && TopEffect(prepared, w0, Now())
        invariant state.stack == w0.state.stack && TopOk(state.tickets, state.stack, open)
        invariant id in state.tickets && state.tickets[id].cancelled && Frozen(w0, Now())
        invariant ample ==> Devours(w0, Now()) && Eaten(state.tickets, children, k)
      {
        ghost var w1 := Now();
        if ample { AmpleKept(w0, w1, fuel - 1, id + 1); }
        if children[k] in state.tickets {
          SameParent(prepared, w0, w1, id, children[k]);
          DevourChild(id, children[k], fuel, open);
          DevouredOne(prepared, w0, w1, Now(), open, id, children, k, ample);
        }
        if ample { OneMoreEaten(state.tickets, children, k); }
        k := k + 1;
      }
      if ample { AllEaten(prepared, w0, Now(), id, children); }
    }

    lemma DevourStarts(id: nat, open: set<nat>)
      requires Inv(open)
      ensures TopEffect(prepared, Now(), Now()) && Devours(Now(), Now())
      ensures TreeOk(prepared, state.tickets, state.nextTicket)
    {
      TopEffectStays(prepared, Now(), open);
      SameWorkDevours(Now(), Now());
    }

    /** One such poll. */
    method DevourChild(id: nat, child: nat, fuel: nat, ghost open: set<nat>)
      requires Inv(open) && state.stack != [] && TopOk(state.tickets, state.stack, open)
      requires state.stack[|state.stack| - 1].ticket == Some(id) && id in state.tickets && state.tickets[id].cancelled
      requires child in state.tickets && state.tickets[child].parent == Some(id)
      requires code.Devouring? && 0 < fuel
      modifies this`state, this`handed, this`effects, cells
      ensures Inv(open) && TopEffect(prepared, old(Now()), Now())
      ensures old(Ample(state, fuel - 1, id + 1)) ==> child !in state.tickets && Devours(old(Now()), Now())
      decreases fuel - 1, 2, 0, 1
    {
      hide Sane, Ran, Step, StepBelow, Exact, ExactBut, Sound, TopOk, CellsAdvance, TopEffect, Present, Handled;
      hide Marks, Typed, Declared;
      hide Spared, Devours, Ample;
      hide Owns, Inv;
      OwnsChild(id, child, open);
      if Ample(state, fuel - 1, id + 1) { AmpleBelow(state, fuel - 1, id + 1, child); }
      var answer := ImportPoll(state.tickets[child].slot, state.tickets[child].selection.Key(), child, fuel - 1, open);
    }

    /** A child of the executing ticket is its own to poll; the child has finished or lost its authority if
        the ticket has been cancelled. */
    lemma OwnsChild(id: nat, child: nat, open: set<nat>)
      requires Inv(open) && state.stack != [] && TopOk(state.tickets, state.stack, open)
      requires state.stack[|state.stack| - 1].ticket == Some(id) && id in state.tickets && state.tickets[id].cancelled
      requires child in state.tickets && state.tickets[child].parent == Some(id)
      ensures Owns(state.tickets[child].slot, state.tickets[child].selection.Key(), child)
      ensures Retiring(child) && id < child
    {
      assert Hangs(prepared, state.tickets, state.nextTicket, child);
      assert Hangs(prepared, state.tickets, state.nextTicket, id);
      assert Carries(state.tickets, state.stack[|state.stack| - 1]);
    }

    /** The top frame's import is admitted. */
    predicate Allows(request: HostRequest)
      requires (request.Import? || request.BeginPending?) && state.stack != []
      reads this`state
    {
      var top := state.stack[|state.stack| - 1];
      Admits(top.root, Plugin(top.provider, request.slot), request.selection, request.input, request.scope)
    }

    lemma AllowedIsBound(request: HostRequest)
      requires (request.Import? || request.BeginPending?) && state.stack != []
      ensures var top := state.stack[|state.stack| - 1];
        Allows(request) ==>
          !top.revoked && prepared.Bound(top.provider, ImportIdentity(request.slot, request.selection.Key()),
            request.selection.provider)
    {
      hide ValueCodec.Decode, EffectScope, Schemas.Accepts, Reenters, InScope;
    }

    /** The answer to a state request of the native code that has the top frame: it says what has been done. */
    twostate predicate StateServed(opcode: nat, bytes: seq<byte>, new reply: Reply)
      requires old(cells.Valid()) && state.stack != [] && old(state).stack == state.stack
      reads this`state, cells
    {
      var top, decoded := state.stack[|state.stack| - 1], StateCodec.DecodeRequest(opcode, bytes);
      && decoded.Ok? && state.activeRoot == Some(top.root) && !top.revoked
      && (reply.status == 0 || (reply.status == 1 && StateCodec.ErrorOf(reply.value).Some?))
      && (reply.status == 0 ==> old(Permitted(top.root, top.provider, decoded.value)))
      && (old(Permitted(top.root, top.provider, decoded.value)) ==>
            Carried(cells, top.root, top.provider, top.ticket, decoded.value, StateAnswer(reply)))
    }

    /** `state`. */
    method HostState(opcode: nat, bytes: seq<byte>, ghost open: set<nat>) returns (answer: Result<Reply, Failure>)
      requires Inv(open) && state.stack != [] && TopOk(state.tickets, state.stack, open)
      requires !state.stack[|state.stack| - 1].revoked
      modifies this`effects, cells
      ensures Inv(open) && TopEffect(prepared, old(Now()), Now())
      ensures answer.Ok? ==> StateServed(opcode, bytes, answer.value)
    {
      hide Sane, Ran, Exact, TopOk, CellsAdvance, TopEffect;
      hide StateCodec.DecodeRequest, StateCodec.ErrorOf, Permitted, Carried, EffectsOf, Advances;
      TopEffectStays(prepared, Now(), open);
      var top := state.stack[|state.stack| - 1];
      var decoded := StateCodec.DecodeRequest(opcode, bytes);
      if decoded.Err? { return Err(decoded.error); }
      StateCodec.DecodedInOrder(opcode, bytes);
      var r := StateEffect(top.root, top.provider, decoded.value, open);
      if r.Err? { return Err(r.error); }
      StateReplyStands(r.value);
      return Ok(StateReply(r.value));
    }

    /** `invoke` and `state`: one request of the native code that has the top frame, and its answer. */
    method HostCall(request: HostRequest, fuel: nat, ghost open: set<nat>) returns (answer: Result<Reply, Failure>)
      requires Inv(open) && state.stack != [] && TopOk(state.tickets, state.stack, open)
      modifies this`state, this`handed, this`effects, cells
      ensures Inv(open) && TopEffect(prepared, old(Now()), Now())
      ensures state.stack == old(state).stack && TopOk(state.tickets, state.stack, open)
      ensures request.Import? ==>
        Dispatched(old(Now()), Now(), old(Allows(request)), Kind(prepared, request.selection, false),
                   old(state).stack[|old(state).stack| - 1].provider, request.selection, answer.Ok?)
      ensures request.BeginPending? ==>
        Dispatched(old(Now()), Now(), old(Allows(request) && state.stack[|state.stack| - 1].ticket.Some?),
                   Kind(prepared, request.selection, true),
                   old(state).stack[|old(state).stack| - 1].provider, request.selection, answer.Ok?)
      ensures (request.Import? || request.BeginPending?) && answer.Ok? ==>
        && (answer.value.status in {0, 1} ==> Declared(prepared, request.selection, Answered(answer.value)))
        && (answer.value.status in {0, 1} || (request.BeginPending? && answer.value.status == 3))
      ensures request.BeginPending? && answer.Ok? && answer.value.status == 3 ==>
        var top := old(state).stack[|old(state).stack| - 1];
        && answer.value.value.U64?
        && Begun(old(Now()), Now(), Ticket(answer.value.value.unsigned, top.root), top.root, request.selection,
                 request.slot, EffectScope(prepared, old(state).stack, top.provider, request.selection.provider,
                                           request.selection.Key(), request.scope))
      ensures request.StateCall? && answer.Ok? ==> StateServed(request.opcode, request.bytes, answer.value)
      ensures request.PollPending? && answer.Ok? ==>
        && (request.ticket !in state.tickets <==> answer.value.status in {0, 1, 2, 4})
        && (request.ticket in state.tickets && state.tickets[request.ticket].logical == Pending <==>
              answer.value.status == 3)
        && (request.ticket in state.tickets && state.tickets[request.ticket].logical != Pending <==>
              answer.value.status == 5)
      ensures request.CancelPending? && answer.Ok? ==>
        request.ticket in state.tickets && state.tickets[request.ticket].cancelled
        && answer.value == Reply(0, V.Bool(state.tickets[request.ticket].quiescent))
      decreases fuel, 3, 0, 0
    {
      hide Sane, Ran, Step, StepBelow, Exact, ExactBut, Sound, TopOk, CellsAdvance, TopEffect, Present, Handled;
      hide Marks, Typed, Declared;
      hide Spared, Devours, Ample;
      hide StateCodec.DecodeRequest, StateCodec.ErrorOf, Admits, Recorded, Kind, Permitted, EffectScope, StateServed;
      hide Owns, Retiring, Frozen, AnswersFor, EffectsOf, Advances, ReadAnswer;
      ghost var w0 := Now();
      TopEffectStays(prepared, w0, open);
      var top := state.stack[|state.stack| - 1];
      answer := Err(Failure(ScopeRejected));
      if request.Import? || request.BeginPending? { AllowedIsBound(request); }
      match request {
        case StateCall(opcode, bytes) =>
          if !top.revoked { answer := HostState(opcode, bytes, open); }
        case Import(slot, selection, input, scope) =>
          if !top.revoked && prepared.Bound(top.provider, ImportIdentity(slot, selection.Key()), selection.provider) {
            var r := DispatchCall(top.root, Plugin(top.provider, slot), selection, input, scope, false, fuel, open);
            answer := if r.Ok? then Ok(CallReply(r.value)) else Err(r.error);
          }
        case BeginPending(slot, selection, input, scope) =>
          if !top.revoked && top.ticket.Some?
             && prepared.Bound(top.provider, ImportIdentity(slot, selection.Key()), selection.provider)
          {
            var r := DispatchCall(top.root, Plugin(top.provider, slot), selection, input, scope, true, fuel, open);
            answer := if r.Ok? then Ok(CallReply(r.value)) else Err(r.error);
          }
        case PollPending(slot, key, ticket) =>
          if top.ticket.Some? { answer := ImportPoll(slot, key, ticket, fuel, open); }
        case CancelPending(slot, key, ticket) =>
          if top.ticket.Some? {
            var r := ImportCancel(slot, key, ticket, fuel, open);
            answer := if r.Ok? then Ok(Reply(0, V.Bool(r.value))) else Err(r.error);
          }
      }
      TopEffectKeepsTop(prepared, w0, Now(), open);
    }

    /** The caller of an imported command is the parent of the ticket it names, through the same slot
        and for the same operation. */
    predicate Owns(slot: string, key: string, ticket: nat)
      requires state.stack != [] && state.stack[|state.stack| - 1].ticket.Some?
      reads this
    {
      var top := state.stack[|state.stack| - 1];
      && ticket in state.tickets
      && state.tickets[ticket].root == top.root
      && state.tickets[ticket].parent == top.ticket
      && state.tickets[ticket].selection.Key() == key
      && state.tickets[ticket].slot == slot
      && prepared.Bound(top.provider, ImportIdentity(slot, key), state.tickets[ticket].selection.provider)
      && top.ticket.value in state.tickets
      && state.tickets[top.ticket.value].root == top.root
      && state.tickets[top.ticket.value].selection.provider == top.provider
    }

    /** In a kernel that keeps its laws a child is authentic exactly when it is a child of the executing ticket that was
        begun through that slot and for that operation: the checks of the root, the binding and the caller never
        refuse one. */
    lemma OwnsExactly(slot: string, key: string, ticket: nat, open: set<nat>)
      requires Inv(open) && state.stack != [] && state.stack[|state.stack| - 1].ticket.Some?
      ensures Owns(slot, key, ticket) <==>
        && ticket in state.tickets && state.tickets[ticket].parent == state.stack[|state.stack| - 1].ticket
        && state.tickets[ticket].slot == slot && state.tickets[ticket].selection.Key() == key
    {
      var T, top := state.tickets, state.stack[|state.stack| - 1];
      assert Carries(T, top);
      if ticket in T && T[ticket].parent == top.ticket { assert Hangs(prepared, T, state.nextTicket, ticket); }
    }

    /** `phenix.host.pending.cancel.v2`. */
    method ImportCancel(slot: string, key: string, ticket: nat, fuel: nat, ghost open: set<nat>)
      returns (r: Result<bool, Failure>)
      requires Inv(open) && TopOk(state.tickets, state.stack, open)
      requires state.stack != [] && state.stack[|state.stack| - 1].ticket.Some?
      modifies this`state, this`handed, this`effects, cells
      ensures Inv(open) && TopEffect(prepared, old(Now()), Now())
      ensures !old(Owns(slot, key, ticket)) ==> r == Err(Failure(ScopeRejected)) && Now() == old(Now())
      ensures old(Owns(slot, key, ticket))
              && (old(state).tickets[ticket].cancelled || old(state).tickets[ticket].quiescent) ==>
        r == Err(Failure(ScopeRejected)) && Now() == old(Now())
      ensures old(Owns(slot, key, ticket)) && !old(state).tickets[ticket].quiescent ==>
        && ticket in state.tickets && state.tickets[ticket].cancelled
        && (forall d | d in state.tickets && ticket in state.tickets[d].ancestors && !state.tickets[d].quiescent ::
              state.tickets[d].cancelled)
        && (r.Ok? ==> r.value == state.tickets[ticket].quiescent)
      ensures Frozen(old(Now()), Now())
      decreases fuel, 2, 0, 0
    {
      hide Sane, Ran, Step, StepBelow, Exact, ExactBut, Sound, TopOk, CellsAdvance, TopEffect, Present, Handled;
      hide Marks, Typed, Declared;
      hide Spared, Devours, Ample;
      ghost var w0 := Now();
      TopEffectStays(prepared, w0, open);
      if !Owns(slot, key, ticket) { return Err(Failure(ScopeRejected)); }
      ImportedChild(prepared, w0, open, ticket);
      r := CancelTicket(ticket, fuel, open);
      ChildEffect(prepared, w0, Now(), open, ticket);
    }

    /** A child of a revoked ticket: it has finished or has been cancelled itself. */
    predicate Retiring(ticket: nat)
      reads this`state
    {
      && state.stack != [] && state.stack[|state.stack| - 1].revoked
      && ticket in state.tickets && (state.tickets[ticket].quiescent || state.tickets[ticket].cancelled)
    }

    /** `phenix.host.pending.poll.v2`: enters a live child once, and takes and releases a finished one. */
    method ImportPoll(slot: string, key: string, ticket: nat, fuel: nat, ghost open: set<nat>)
      returns (r: Result<Reply, Failure>)
      requires Inv(open) && TopOk(state.tickets, state.stack, open)
      requires state.stack != [] && state.stack[|state.stack| - 1].ticket.Some?
      modifies this`state, this`handed, this`effects, cells
      ensures Inv(open) && TopEffect(prepared, old(Now()), Now())
      ensures !old(Owns(slot, key, ticket)) ==> r == Err(Failure(ScopeRejected)) && Now() == old(Now())
      ensures r.Ok? ==> old(Owns(slot, key, ticket))
      ensures old(Owns(slot, key, ticket)) && old(state).tickets[ticket].quiescent ==> r.Ok?
      ensures old(Owns(slot, key, ticket)) && !old(state).tickets[ticket].quiescent ==>
        (r.Err? ==> Exhausted()) && (old(Exhausted()) ==> r.Err?)
      ensures r.Ok? ==>
        && (ticket !in state.tickets <==> r.value.status in {0, 1, 2, 4})
        && (ticket in state.tickets && state.tickets[ticket].logical == Pending <==> r.value.status == 3)
        && (ticket in state.tickets && state.tickets[ticket].logical != Pending <==> r.value.status == 5)
      ensures r.Ok? && r.value.status in {0, 1, 2} ==> handed[ticket] == 1
      ensures r.Ok? && r.value.status in {0, 1} ==>
        Declared(prepared, old(state).tickets[ticket].selection, Answered(r.value))
      ensures r.Ok? && old(state).tickets[ticket].quiescent ==>
        AnswersFor(prepared, old(state).tickets[ticket], r.value)
      ensures r.Ok? && r.value.status == 4 ==> old(state).tickets[ticket].logical == Logical.Cancelled
      ensures old(Devoured(fuel, ticket)) && old(Owns(slot, key, ticket)) && old(Retiring(ticket)) ==>
        ticket !in state.tickets && Devours(old(Now()), Now()) && Frozen(old(Now()), Now())
      decreases fuel, 2, 0, 0
    {
      hide Sane, Ran, Step, StepBelow, Exact, ExactBut, Sound, TopOk, CellsAdvance, TopEffect, Present, Handled;
      hide Marks, Typed, Declared;
      hide Spared, Devours, Ample, AnswersFor, Lagging;
      ghost var w0 := Now();
      TopEffectStays(prepared, w0, open);
      if !Owns(slot, key, ticket) { return Err(Failure(ScopeRejected)); }
      ImportedChild(prepared, w0, open, ticket);
      StepStays(prepared, w0, open, ticket);
      ChildEffect(prepared, w0, w0, open, ticket);
      SameWorkDevours(w0, w0);
      ghost var devours := Devoured(fuel, ticket) && Retiring(ticket);
      if !state.tickets[ticket].quiescent {
        var entered := EnterTicket(ticket, false, fuel, open);
        ChildEffect(prepared, w0, Now(), open, ticket);
        if entered.Err? { return Err(entered.error); }
      }
      ghost var w1 := Now();
      TopEffectKeepsTop(prepared, w0, w1, open);
      r := AnswerPoll(ticket, open);
      TopEffectTrans(prepared, w0, w1, Now());
      if devours { DevoursBoth(prepared, w0, w1, Now()); }
    }

    /** The part of an import poll that follows the entry: a child that has finished is consumed, and one that has
        not stays; the answer tells whether it is still pending. */
    method AnswerPoll(ticket: nat, ghost open: set<nat>) returns (r: Result<Reply, Failure>)
      requires Inv(open) && TopOk(state.tickets, state.stack, open)
      requires state.stack != [] && state.stack[|state.stack| - 1].ticket.Some?
      requires ticket in state.tickets && state.tickets[ticket].parent == state.stack[|state.stack| - 1].ticket
      modifies this`state, this`handed, cells`subscriptions
      ensures Inv(open) && TopEffect(prepared, old(Now()), Now())
      ensures r.Ok? && Frozen(old(Now()), Now()) && Devours(old(Now()), Now())
      ensures r.value.status in {0, 1, 2, 3, 4, 5}
      ensures ticket !in state.tickets <==> r.value.status in {0, 1, 2, 4}
      ensures ticket in state.tickets && state.tickets[ticket].logical == Pending <==> r.value.status == 3
      ensures ticket in state.tickets && state.tickets[ticket].logical != Pending <==> r.value.status == 5
      ensures old(state).tickets[ticket].quiescent ==>
        ticket !in state.tickets && AnswersFor(prepared, old(state).tickets[ticket], r.value)
      ensures !old(state).tickets[ticket].quiescent ==> Now() == old(Now())
      ensures r.value.status in {0, 1, 2} ==> old(handed)[ticket] == 0 && handed[ticket] == 1
      ensures r.value.status in {0, 1} ==>
        Declared(prepared, old(state).tickets[ticket].selection, Answered(r.value))
      ensures r.value.status == 4 ==> old(state).tickets[ticket].logical == Logical.Cancelled
    {
      hide Sane, Ran, Step, StepBelow, Exact, ExactBut, Sound, TopOk, CellsAdvance, TopEffect, Present, Handled;
      hide Marks, Typed, Declared;
      hide Spared, Devours, Ample;
      if !state.tickets[ticket].quiescent {
        TopEffectStays(prepared, Now(), open);
        SameWorkDevours(Now(), Now());
        return Ok(Reply(if state.tickets[ticket].logical == Pending then 3 else 5, V.Null));
      }
      r := ConsumeChild(ticket, open);
    }

    /** The part of an import poll that takes the result of a finished child, if it has one, and
        releases the child. */
    method TakeChild(ticket: nat, ghost open: set<nat>)
      requires Inv(open) && Reachable(state, open, ticket)
      requires forall i | 0 <= i < |state.stack| && state.stack[i].ticket.Some? :: state.stack[i].ticket.value < ticket
      requires state.tickets[ticket].quiescent && state.tickets[ticket].parent.Some?
      requires state.tickets[ticket].result.Some? || state.tickets[ticket].logical == Logical.Cancelled
      modifies this`state, this`handed, cells`subscriptions
      ensures Inv(open) && Step(prepared, old(Now()), Now(), ticket) && Frozen(old(Now()), Now())
      ensures state == old(state).(tickets := Without(old(state).tickets, ticket)) && ticket !in state.tickets
      ensures old(state).tickets[ticket].result.Some? ==> old(handed)[ticket] == 0 && handed[ticket] == 1
    {
      hide Sane, Ran, Step, StepBelow, Exact, ExactBut, Sound, TopOk, CellsAdvance, TopEffect, Present, Handled;
      hide Marks, Typed, Declared;
      hide Spared, Devours, Ample;
      hide Calm, Lagging, MayEnter, SameTree, SameButQuiet, TreeOk;
      ghost var w1 := Now();
      CalmIsLagging(prepared, w1, open, ticket);
      LaggingTree(prepared, w1, open, ticket);
      var record := state.tickets[ticket];
      if record.result.Some? {
        TakeAndRelease(prepared, w1, open, ticket);
        state := state.(tickets := state.tickets[ticket := record.(result := None)]);
      } else {
        ReleaseStep(prepared, w1, open, ticket);
      }
      ReleaseTree(ticket);
      if record.result.Some? { handed := handed + multiset{ticket}; }
      ghost var u := Released(w1, ticket).(handed := handed);
      assert Now() == u.(cursors := cells.subscriptions);
      CursorsGo(prepared, w1, u, Now(), open, ticket);
    }

    /** The part of an import poll for a finished child. */
    method ConsumeChild(ticket: nat, ghost open: set<nat>) returns (r: Result<Reply, Failure>)
      requires Inv(open) && TopOk(state.tickets, state.stack, open)
      requires state.stack != [] && state.stack[|state.stack| - 1].ticket.Some?
      requires ticket in state.tickets && state.tickets[ticket].quiescent
      requires state.tickets[ticket].parent == state.stack[|state.stack| - 1].ticket
      modifies this`state, this`handed, cells`subscriptions
      ensures Inv(open) && TopEffect(prepared, old(Now()), Now())
      ensures r.Ok? && Frozen(old(Now()), Now()) && Devours(old(Now()), Now())
      ensures ticket !in state.tickets && AnswersFor(prepared, old(state).tickets[ticket], r.value)
      ensures old(state).tickets[ticket].result.Some? ==> old(handed)[ticket] == 0 && handed[ticket] == 1
    {
      hide Sane, Ran, Step, StepBelow, Exact, ExactBut, Sound, TopOk, CellsAdvance, TopEffect, Present, Handled;
      hide Marks, Typed, Declared;
      hide Spared, Devours, Ample;
      hide Calm, Lagging, MayEnter, SameTree, SameButQuiet, ChildReply, AnswersFor;
      ghost var w1 := Now();
      CalmIsLagging(prepared, w1, open, ticket);
      LaggingTree(prepared, w1, open, ticket);
      ImportedChild(prepared, w1, open, ticket);
      TopEffectStays(prepared, w1, open);
      var record := state.tickets[ticket];
      TypedTicket(prepared, w1, open, ticket);
      ChildHasResult(prepared, w1, open, ticket);
      if record.result.None? && record.logical != Logical.Cancelled { return Err(Failure(ScopeRejected)); }
      TakeChild(ticket, open);
      ghost var w2 := Now();
      CalmIsLagging(prepared, w2, open, ticket);
      RefreshQuiescence(open, ticket);
      SameTreeKeys(w2.state.tickets, state.tickets);
      StepTrans(prepared, w1, w2, Now(), ticket);
      ReleasedDevours(prepared, w1, Now(), ticket);
      ChildEffect(prepared, w1, Now(), open, ticket);
      var failureText: V.Value := *;
      ChildReplyFits(prepared, record, failureText);
      return Ok(ChildReply(record.result, failureText));
    }

    // ----- dispatch

    /** The checks of `dispatch_call`, in their order: the binding of an import, the operation, the
        request and the effective scope. */
    function Checked(caller: Caller, selection: Selection, input: seq<byte>, restriction: Option<ScopedRequest>)
      : (r: Result<(PreparedOperation, V.Value, ScopedRequest), Failure>)
      reads this`state
      ensures r.Ok? <==>
        && (caller.Plugin? ==> prepared.Bound(caller.id, ImportIdentity(caller.slot, selection.Key()),
              selection.provider))
        && prepared.Operation(selection).Ok? && ValueCodec.Decode(input).Ok?
        && Schemas.Accepts(prepared.Operation(selection).value.request, ValueCodec.Decode(input).value)
        && EffectScope(prepared, state.stack, caller.Name(), selection.provider, selection.Key(), restriction).Ok?
      ensures r.Ok? ==>
        && EffectScope(prepared, state.stack, caller.Name(), selection.provider, selection.Key(), restriction) ==
           Ok(r.value.2)
        && prepared.Operation(selection) == Ok(r.value.0)
        && ValueCodec.Decode(input) == Ok(r.value.1) && Schemas.Accepts(r.value.0.request, r.value.1)
        && (caller.Plugin? ==> prepared.Bound(caller.id, ImportIdentity(caller.slot, selection.Key()),
              selection.provider))
    {
      if caller.Plugin? && !prepared.Bound(caller.id, ImportIdentity(caller.slot, selection.Key()), selection.provider)
      then Err(Failure(Denied))
      else
        match prepared.Operation(selection)
        case Err(e) => Err(e)
        case Ok(operation) =>
          match ValueCodec.Decode(input)
          case Err(e) => Err(e)
          case Ok(request) =>
            if !Schemas.Accepts(operation.request, request) then Err(Failure(SchemaRejected))
            else
              match EffectScope(prepared, state.stack, caller.Name(), selection.provider, selection.Key(), restriction)
              case Err(e) => Err(e)
              case Ok(scope) => Ok((operation, request, scope))
    }

    /** The provider has a live ticket or a frame: another call would re-enter its instance. */
    predicate Reenters(provider: string)
      reads this`state
    {
      || (exists id | id in state.tickets ::
            !state.tickets[id].quiescent && state.tickets[id].selection.provider == provider)
      || (exists f | f in state.stack :: f.provider == provider)
    }

    /** A call takes effect: the root is the admitted one, its caller has authority and passes the checks,
        and a property is in its scope or no instance would be re-entered. */
    predicate Admits(root: nat, caller: Caller, selection: Selection, input: seq<byte>,
                     restriction: Option<ScopedRequest>)
      reads this`state
    {
      && state.activeRoot == Some(root)
      && (state.stack != [] ==> !state.stack[|state.stack| - 1].revoked)
      && var checked := Checked(caller, selection, input, restriction);
        && checked.Ok?
        && if checked.value.0.target.Cell? then InScope(selection, checked.value.2) else !Reenters(selection.provider)
    }

    lemma AdmitsOperation(root: nat, caller: Caller, selection: Selection, input: seq<byte>,
                          restriction: Option<ScopedRequest>)
      ensures Admits(root, caller, selection, input, restriction) ==> prepared.Operation(selection).Ok?
    {
      hide ValueCodec.Decode, EffectScope, Schemas.Accepts, Reenters, InScope;
    }

    static predicate InScope(selection: Selection, scope: ScopedRequest) {
      ResourceOf(selection.interface).Some? && ResourceOf(selection.interface).value in scope.authority.resources
    }

    static function Kind(p: Prepared, selection: Selection, pendingAllowed: bool): EffectKind {
      var operation := p.Operation(selection);
      if operation.Ok? && operation.value.target.Cell? then Access else if pendingAllowed then Begin else Invoke
    }

    /** The first effect of the call is its own. */
    static ghost predicate Recorded(a: World, b: World, kind: EffectKind, caller: string, selection: Selection) {
      && a.effects < b.effects
      && b.effects[|a.effects|] == Effect(kind, caller, selection.Key(), a.state.stack, a.state.tickets, a.bound)
    }

    /** An admitted call takes effect, any other changes nothing and is not `ok`. */
    static ghost predicate Dispatched(a: World, b: World, admitted: bool, kind: EffectKind, caller: string,
                                      selection: Selection, ok: bool)
    {
      if admitted then Recorded(a, b, kind, caller, selection) else !ok && b == a
    }

    lemma FirstEffect(p: Prepared, a: World, b: World, c: World, kind: EffectKind, caller: string, selection: Selection)
      requires b.effects == a.effects + [Effect(kind, caller, selection.Key(), a.state.stack, a.state.tickets, a.bound)]
      requires TopEffect(p, b, c)
      ensures Recorded(a, c, kind, caller, selection)
    {
      assert c.effects[|a.effects|] == b.effects[|a.effects|];
    }

    /** `dispatch_call`: root entry and nested imports converge here. */
    method DispatchCall(root: nat, caller: Caller, selection: Selection, input: seq<byte>,
                        restriction: Option<ScopedRequest>, pendingAllowed: bool, fuel: nat, ghost open: set<nat>)
      returns (r: Result<Call, Failure>)
      requires Inv(open) && TopOk(state.tickets, state.stack, open)
      requires state.stack != [] ==> caller.Plugin? && caller.id == state.stack[|state.stack| - 1].provider
      requires state.stack == [] ==> restriction == Some(bound)
      requires pendingAllowed && state.stack != [] ==> state.stack[|state.stack| - 1].ticket.Some?
      modifies this`state, this`handed, this`effects, cells
      ensures Inv(open) && TopEffect(prepared, old(Now()), Now()) && state.stack == old(state).stack
      ensures old(state).activeRoot != Some(root)
              || (old(state).stack != [] && old(state).stack[|old(state).stack| - 1].revoked) ==>
        r == Err(Failure(ScopeRejected)) && Now() == old(Now())
      ensures Dispatched(old(Now()), Now(), old(Admits(root, caller, selection, input, restriction)),
                         Kind(prepared, selection, pendingAllowed), caller.Name(), selection, r.Ok?)
      ensures old(Admits(root, caller, selection, input, restriction))
              && prepared.Operation(selection).value.target.Cell? ==>
        CellServed(root, caller.Name(), selection, prepared.Operation(selection).value,
                   ValueCodec.Decode(input).value, r)
      ensures old(Admits(root, caller, selection, input, restriction)) && pendingAllowed
              && prepared.Operation(selection).value.target.Native? ==>
        (r.Ok? <==> old(state).nextScope < MAX_U64 && old(state).nextTicket < MAX_U64)
      ensures !pendingAllowed ==> state.tickets == old(state).tickets && (r.Ok? ==> r.value.Done?)
      ensures r.Ok? && r.value.Done? ==> Declared(prepared, selection, r.value.outcome)
      ensures r.Ok? && r.value.Waiting? ==>
        Begun(old(Now()), Now(), r.value.ticket, root, selection, caller.Slot(),
              EffectScope(prepared, old(state).stack, caller.Name(), selection.provider, selection.Key(), restriction))
      decreases fuel, 2, 0, 1
    {
      hide Sane, Ran, Step, StepBelow, Exact, ExactBut, Sound, TopOk, CellsAdvance, TopEffect, Present, Handled;
      hide Marks, Typed, Declared;
      hide Spared, Devours, Ample;
      hide Checked;
      ghost var a := Now();
      TopEffectStays(prepared, a, open);
      if state.activeRoot != Some(root) { return Err(Failure(ScopeRejected)); }
      if state.stack != [] && state.stack[|state.stack| - 1].revoked { return Err(Failure(ScopeRejected)); }
      var checked := Checked(caller, selection, input, restriction);
      if checked.Err? { return Err(checked.error); }
      var (operation, request, scope) := checked.value;
      if operation.target.Cell? {
        r := CellDispatch(root, caller, selection, operation, request, restriction, scope, open);
      } else {
        r := NativeDispatch(root, caller, selection, restriction, scope, pendingAllowed, fuel, open);
      }
    }

    /** The part of `dispatch_call` for a property operation. */
    method CellDispatch(root: nat, caller: Caller, selection: Selection, operation: PreparedOperation, request: V.Value,
                        restriction: Option<ScopedRequest>, scope: ScopedRequest, ghost open: set<nat>)
      returns (r: Result<Call, Failure>)
      requires Inv(open) && TopOk(state.tickets, state.stack, open) && operation.target.Cell?
      requires prepared.Operation(selection) == Ok(operation)
      requires state.stack == [] ==> restriction == Some(bound)
      requires state.stack != [] ==> !state.stack[|state.stack| - 1].revoked
      requires EffectScope(prepared, state.stack, caller.Name(), selection.provider, selection.Key(), restriction) ==
        Ok(scope)
      modifies this`effects, cells
      ensures Inv(open) && TopEffect(prepared, old(Now()), Now())
      ensures r.Ok? ==> r.value.Done? && Declared(prepared, selection, r.value.outcome)
      ensures ResourceOf(selection.interface).None? ==> r == Err(Failure(DescriptorInvalid))
      ensures ResourceOf(selection.interface).Some? && !InScope(selection, scope) ==> r == Err(Failure(Denied))
      ensures !InScope(selection, scope) ==> Now() == old(Now())
      ensures InScope(selection, scope) ==>
        Recorded(old(Now()), Now(), Access, caller.Name(), selection)
        && CellServed(root, caller.Name(), selection, operation, request, r)
    {
      hide Sane, Ran, Step, StepBelow, Exact, ExactBut, Sound, TopOk, CellsAdvance, TopEffect, Present, Handled;
      hide Marks, Typed;
      hide Spared, Devours, Ample;
      hide EffectScope, ResourceOf, CellServed, Advances, Schemas.Accepts;
      ghost var a := Now();
      TopEffectStays(prepared, a, open);
      var resource := ResourceOf(selection.interface);
      if resource.None? { return Err(Failure(DescriptorInvalid)); }
      if resource.value !in scope.authority.resources { return Err(Failure(Denied)); }
      r := CellCall(root, caller.Name(), selection, operation, request);
      effects := effects + [Effect(Access, caller.Name(), selection.Key(), state.stack, state.tickets, bound)];
      CellEffect(prepared, a, Now(), open, caller.Name(), selection, restriction);
    }

    lemma CellEffect(p: Prepared, a: World, c: World, open: set<nat>, caller: string, selection: Selection,
                     restriction: Option<ScopedRequest>)
      requires Calm(p, a, open) && TopOk(a.state.tickets, a.state.stack, open)
      requires a.state.stack == [] ==> restriction == Some(a.bound)
      requires a.state.stack != [] ==> !a.state.stack[|a.state.stack| - 1].revoked
      requires EffectScope(p, a.state.stack, caller, selection.provider, selection.Key(), restriction).Ok?
      requires c ==
        Effected(a, Access, caller, selection.Key()).(cells := c.cells, history := c.history, cursors := c.cursors)
      requires Advances(a.cells, a.history, c.cells, c.history) && |c.history| <= |a.history| + 1
      ensures Calm(p, c, open) && TopEffect(p, a, c) && Recorded(a, c, Access, caller, selection)
    {
      hide Sane, Ran, Exact, TopOk, CellsAdvance, TopEffect, EffectScope, Advances;
      var b := Effected(a, Access, caller, selection.Key());
      ScopeHoldsKey(p, a.state.stack, caller, selection.provider, selection.Key(), restriction, a.bound);
      EffectStep(p, a, open, Access, caller, selection.Key());
      CellsOnly(p, a, b, c, open);
      QuietEffect(p, a, c);
    }

    /** The part of `dispatch_call` for a native operation: no instance is entered twice. */
    method NativeDispatch(root: nat, caller: Caller, selection: Selection, restriction: Option<ScopedRequest>,
                          scope: ScopedRequest, pendingAllowed: bool, fuel: nat, ghost open: set<nat>)
      returns (r: Result<Call, Failure>)
      requires Inv(open) && TopOk(state.tickets, state.stack, open)
      requires state.stack == [] ==> restriction == Some(bound)
      requires state.stack != [] ==>
        && !state.stack[|state.stack| - 1].revoked
        && (pendingAllowed ==> state.stack[|state.stack| - 1].ticket.Some?)
      requires ThroughImport(prepared, state.stack, caller.Slot(), selection)
      requires state.activeRoot == Some(root) && prepared.Operation(selection).Ok?
      requires EffectScope(prepared, state.stack, caller.Name(), selection.provider, selection.Key(), restriction) ==
        Ok(scope)
      modifies this`state, this`handed, this`effects, cells
      ensures Inv(open) && TopEffect(prepared, old(Now()), Now()) && state.stack == old(state).stack
      ensures !pendingAllowed ==> state.tickets == old(state).tickets && (r.Ok? ==> r.value.Done?)
      ensures r.Ok? && r.value.Done? ==> Declared(prepared, selection, r.value.outcome)
      ensures r.Ok? && r.value.Waiting? ==>
        Begun(old(Now()), Now(), r.value.ticket, root, selection, caller.Slot(), Ok(scope))
      ensures old(Reenters(selection.provider)) ==> r == Err(Failure(ReentrancyRejected)) && Now() == old(Now())
      ensures !old(Reenters(selection.provider)) ==>
        Recorded(old(Now()), Now(), if pendingAllowed then Begin else Invoke, caller.Name(), selection)
      ensures !old(Reenters(selection.provider)) && pendingAllowed ==>
        (r.Ok? <==> old(state).nextScope < MAX_U64 && old(state).nextTicket < MAX_U64)
      decreases fuel, 2, 0, 0
    {
      hide Sane, Ran, Step, StepBelow, Exact, ExactBut, Sound, TopOk, CellsAdvance, TopEffect, Present, Handled;
      hide Marks, Typed, Declared;
      hide Spared, Devours, Ample;
      hide EffectScope, Recorded;
      ghost var a := Now();
      CalmIsLagging(prepared, a, open, 0);
      TopEffectStays(prepared, a, open);
      if exists id | id in state.tickets ::
        !state.tickets[id].quiescent && state.tickets[id].selection.provider == selection.provider
      {
        return Err(Failure(ReentrancyRejected));
      }
      if exists f | f in state.stack :: f.provider == selection.provider {
        return Err(Failure(ReentrancyRejected));
      }
      var kind := if pendingAllowed then Begin else Invoke;
      var frame := Frame(root, None, false, selection.provider, scope.authority, scope.resource);
      RecordCall(kind, caller, selection, restriction, frame, open);
      ghost var b := Now();
      r := WithFrame(root, selection, caller.Slot(), frame, pendingAllowed, fuel, open);
      TopEffectTrans(prepared, a, b, Now());
      FirstEffect(prepared, a, b, Now(), kind, caller.Name(), selection);
    }

    /** The call is recorded as an effect of its caller; its frame may be pushed. */
    ghost method RecordCall(kind: EffectKind, caller: Caller, selection: Selection,
                            restriction: Option<ScopedRequest>, frame: Frame, open: set<nat>)
      requires Inv(open) && TopOk(state.tickets, state.stack, open)
      requires state.stack == [] ==> restriction == Some(bound)
      requires state.stack != [] ==> !state.stack[|state.stack| - 1].revoked
      requires var scope :=
          EffectScope(prepared, state.stack, caller.Name(), selection.provider, selection.Key(), restriction);
        scope.Ok? && frame.authority == scope.value.authority && frame.resource == scope.value.resource
      requires frame.provider == selection.provider && frame.ticket.None? && !frame.revoked
      requires Some(frame.root) == state.activeRoot && kind != Publish && !Reenters(selection.provider)
      modifies this`effects
      ensures Inv(open) && Calm(prepared, Pushed(Now(), frame), open) && TopEffect(prepared, old(Now()), Now())
      ensures effects
        == old(effects) + [Effect(kind, caller.Name(), selection.Key(), state.stack, state.tickets, bound)]
    {
      hide Sane, Ran, TopOk, CellsAdvance, TopEffect, EffectScope;
      ghost var a := Now();
      ScopeHoldsKey(prepared, state.stack, caller.Name(), selection.provider, selection.Key(), restriction, bound);
      EffectStep(prepared, a, open, kind, caller.Name(), selection.Key());
      effects := effects + [Effect(kind, caller.Name(), selection.Key(), state.stack, state.tickets, bound)];
      QuietEffect(prepared, a, Now());
      CallFrame(prepared, Now(), open, caller.Name(), selection.provider, selection.Key(), restriction, frame);
    }

    /** The part of `dispatch_call` during which the frame of the call is on the stack. */
    method WithFrame(root: nat, selection: Selection, slot: string, frame: Frame, pendingAllowed: bool, fuel: nat,
                     ghost open: set<nat>)
      returns (r: Result<Call, Failure>)
      requires Inv(open) && TopOk(state.tickets, state.stack, open) && Calm(prepared, Pushed(Now(), frame), open)
      requires state.stack != [] ==>
        && !state.stack[|state.stack| - 1].revoked
        && (pendingAllowed ==> state.stack[|state.stack| - 1].ticket.Some?)
      requires frame == Frame(root, None, false, selection.provider, frame.authority, frame.resource)
      requires ThroughImport(prepared, state.stack, slot, selection)
      requires state.activeRoot == Some(root) && prepared.Operation(selection).Ok?
      requires forall id | id in state.tickets && !state.tickets[id].quiescent ::
        state.tickets[id].selection.provider != selection.provider
      modifies this`state, this`handed, this`effects, cells
      ensures Inv(open) && TopEffect(prepared, old(Now()), Now()) && state.stack == old(state).stack
      ensures !pendingAllowed ==> state.tickets == old(state).tickets && (r.Ok? ==> r.value.Done?)
      ensures r.Ok? && r.value.Done? ==> Declared(prepared, selection, r.value.outcome)
      ensures r.Ok? && r.value.Waiting? ==>
        Begun(old(Now()), Now(), r.value.ticket, root, selection, slot,
              Ok(ScopedRequest(frame.authority, frame.resource)))
      ensures pendingAllowed ==> (r.Ok? <==> old(state).nextScope < MAX_U64 && old(state).nextTicket < MAX_U64)
      ensures old(state).nextScope >= MAX_U64 ==> r == Err(Failure(InfrastructureFailure))
      decreases fuel, 1, 2, 0
    {
      hide Sane, Ran, Step, StepBelow, Exact, ExactBut, Sound, TopOk, CellsAdvance, TopEffect, Present, Handled;
      hide Marks, Typed, Declared;
      hide Spared, Devours, Ample;
      ghost var b := Now();
      TopEffectStays(prepared, b, open);
      var pushed := PushFrame(frame);
      if pushed.Err? { return Err(pushed.error); }
      if pendingAllowed {
        r := PendingCall(root, selection, slot, frame, fuel, open, b);
      } else {
        SyncTopOk(prepared, b, frame, open);
        r := NativeCall(selection, fuel, open);
        SyncEffect(prepared, b, frame, Now(), open);
      }
      PopFrame();
      assert Now() == Unwound(b, Now());
    }

    /** The synchronous part of `dispatch_call`: native code runs to its reply. */
    method NativeCall(selection: Selection, fuel: nat, ghost open: set<nat>) returns (r: Result<Call, Failure>)
      requires Inv(open) && state.stack != [] && TopOk(state.tickets, state.stack, open)
      requires prepared.Operation(selection).Ok?
      modifies this`state, this`handed, this`effects, cells
      ensures Inv(open) && TopEffect(prepared, old(Now()), Now()) && state.stack == old(state).stack
      ensures r.Ok? ==> r.value.Done? && Declared(prepared, selection, r.value.outcome)
      decreases fuel, 1, 0, 0
    {
      hide Sane, Ran, Step, StepBelow, Exact, ExactBut, Sound, TopOk, CellsAdvance, TopEffect, Present, Handled;
      hide Marks, Typed, Declared;
      hide Spared, Devours, Ample;
      var reply := RunNative(fuel, open);
      var reported: Code := *;
      if reply.Ok? && reply.value.status !in {0, 1, 2, 5} { return Err(Failure(SchemaRejected)); }
      var verdict := Verdict(prepared, selection, reply, Failure(reported));
      return match verdict case Ok(outcome) => Ok(Done(outcome)) case Err(failure) => Err(failure);
    }

    /** `begin_pending`: a ticket is recorded, its native code runs for the first time, and a nested
        call that has finished already is answered at once. */
    method PendingCall(root: nat, selection: Selection, slot: string, frame: Frame, fuel: nat, ghost open: set<nat>,
                       ghost a: World)
      returns (r: Result<Call, Failure>)
      requires Now() == Pushed(a, frame) && Calm(prepared, a, open) && Inv(open)
      requires TopOk(a.state.tickets, a.state.stack, open)
      requires a.state.stack != [] ==>
        !a.state.stack[|a.state.stack| - 1].revoked && a.state.stack[|a.state.stack| - 1].ticket.Some?
      requires frame == Frame(root, None, false, selection.provider, frame.authority, frame.resource)
      requires ThroughImport(prepared, a.state.stack, slot, selection)
      requires a.state.activeRoot == Some(root) && prepared.Operation(selection).Ok?
      requires forall id | id in a.state.tickets && !a.state.tickets[id].quiescent ::
        a.state.tickets[id].selection.provider != selection.provider
      modifies this`state, this`handed, this`effects, cells
      ensures |state.stack| == |a.state.stack| + 1 && state.stack[..|a.state.stack|] == a.state.stack
      ensures Calm(prepared, Unwound(a, Now()), open) && cells.Valid() && TopEffect(prepared, a, Unwound(a, Now()))
      ensures r.Ok? && r.value.Waiting? ==>
        Begun(a, Now(), r.value.ticket, root, selection, slot, Ok(ScopedRequest(frame.authority, frame.resource)))
      ensures r.Ok? && r.value.Done? ==> Declared(prepared, selection, r.value.outcome)
      ensures if a.state.nextTicket < MAX_U64 then r.Ok? else r == Err(Failure(InfrastructureFailure))
      decreases fuel, 1, 1, 0
    {
      hide Sane, Ran, Step, StepBelow, Exact, ExactBut, Sound, TopOk, CellsAdvance, TopEffect, Present, Handled;
      hide Marks, Typed, Declared;
      hide Spared, Devours, Ample;
      hide Calm, Lagging;
      UnwoundPush(prepared, a, frame, open);
      if state.nextTicket >= MAX_U64 { return Err(Failure(InfrastructureFailure)); }
      ghost var record := RecordTicket(root, selection, slot, frame, open, a);
      var id := state.nextTicket - 1;
      ghost var b := Now();
      FirstReply(id, fuel, open);
      ghost var c := Now();
      UnwoundStep(prepared, a, b, c, id);
      BirthEffect(prepared, a, Unwound(a, b), Unwound(a, c), open, record);
      UnwoundCalm(prepared, a, c, open, frame.(ticket := Some(id)));
      BornTicket(prepared, b, c, id);
      StackOlder(prepared, a, open);
      EnteredFacts(b.state.tickets[id], c.state.tickets[id]);
      r := AnswerAtOnce(id, root, open, a);
      if r.Ok? && r.value.Done? {
        TypedOutcome(prepared, c, open, id, r.value.outcome);
        StepTrans(prepared, Unwound(a, b), Unwound(a, c), Unwound(a, Now()), id);
        BirthEffect(prepared, a, Unwound(a, b), Unwound(a, Now()), open, record);
      }
    }

    /** The part of `begin_pending` that records the ticket and attaches it to the call's frame. */
    method RecordTicket(root: nat, selection: Selection, slot: string, frame: Frame, ghost open: set<nat>,
                        ghost a: World)
      returns (ghost record: Record)
      requires Now() == Pushed(a, frame) && Calm(prepared, a, open) && Inv(open)
      requires TopOk(a.state.tickets, a.state.stack, open)
      requires a.state.stack != [] ==>
        !a.state.stack[|a.state.stack| - 1].revoked && a.state.stack[|a.state.stack| - 1].ticket.Some?
      requires frame == Frame(root, None, false, selection.provider, frame.authority, frame.resource)
      requires ThroughImport(prepared, a.state.stack, slot, selection)
      requires a.state.activeRoot == Some(root) && prepared.Operation(selection).Ok?
      requires forall id | id in a.state.tickets && !a.state.tickets[id].quiescent ::
        a.state.tickets[id].selection.provider != selection.provider
      modifies this`state
      ensures Now() == Born(Pushed(a, frame), record)
      ensures state.stack == a.state.stack + [frame.(ticket := Some(a.state.nextTicket))]
      ensures Inv(open) && TopOk(state.tickets, state.stack, open) && open <= record.ancestors
      ensures Step(prepared, a, Unwound(a, Now()), a.state.nextTicket)
      ensures Newborn(prepared, a.state.tickets, a.state.stack, a.state.activeRoot, record)
      ensures record.root == root && record.selection == selection && record.slot == slot
      ensures record.authority == frame.authority && record.resource == frame.resource
    {
      hide Sane, Ran, Step, StepBelow, Exact, ExactBut, Sound, TopOk, CellsAdvance, TopEffect, Present, Handled;
      hide Marks, Typed, Declared;
      hide Spared, Devours, Ample;
      hide Calm, Lagging;
      CalmIsLagging(prepared, a, open, 0);
      LaggingTree(prepared, a, open, 0);
      var parent := if |state.stack| >= 2 then state.stack[|state.stack| - 2].ticket else None;
      if a.state.stack != [] { TopTicket(prepared, a, open); }
      var ancestors := Ancestors(parent);
      var id := state.nextTicket;
      var entry := Record(root, parent, ancestors, slot, selection, frame.authority, frame.resource,
                           false, Pending, false, false, false, false, None);
      record := entry;
      ImportedBelowTop(prepared, a, open, slot, selection, record);
      BirthCalm(prepared, a, frame, open, record);
      BirthStep(prepared, a, frame, open, record);
      state := state.(
        tickets := state.tickets[id := entry],
        nextTicket := id + 1,
        stack := state.stack[|state.stack| - 1 := frame.(ticket := Some(id))]);
      assert Now() == Born(Pushed(a, frame), record);
    }

    /** The tickets that a wake of a call below `parent` also notifies. */
    method Ancestors(parent: Option<nat>) returns (ancestors: set<nat>)
      requires TreeOk(prepared, state.tickets, state.nextTicket)
      requires parent.Some? ==> parent.value in state.tickets
      ensures ancestors == if parent.Some? then state.tickets[parent.value].ancestors + {parent.value} else {}
    {
      ancestors := {};
      var ancestor := parent;
      ghost var all := if parent.Some? then state.tickets[parent.value].ancestors + {parent.value} else {};
      while ancestor.Some?
        invariant ancestor.Some? ==> ancestor.value in state.tickets
        invariant all == ancestors +
          if ancestor.Some? then state.tickets[ancestor.value].ancestors + {ancestor.value} else {}
        decreases if ancestor.Some? then ancestor.value + 1 else 0
      {
        ParentChain(prepared, state.tickets, state.nextTicket, ancestor.value);
        ancestors := ancestors + {ancestor.value};
        ancestor := state.tickets[ancestor.value].parent;
      }
    }

    /** The first native entry of a ticket. */
    method FirstReply(id: nat, fuel: nat, ghost open: set<nat>)
      requires Inv(open) && id in state.tickets && open <= state.tickets[id].ancestors && id < state.nextTicket
      requires state.stack != [] && state.stack[|state.stack| - 1].ticket == Some(id)
      requires TopOk(state.tickets, state.stack, open)
      modifies this`state, this`handed, this`effects, cells
      ensures Inv(open) && Step(prepared, old(Now()), Now(), id) && state.stack == old(state).stack
      ensures id in state.tickets && Entered(old(state).tickets[id], state.tickets[id])
      decreases fuel, 1, 0, 0
    {
      hide Sane, Ran, Step, StepBelow, Exact, ExactBut, Sound, TopOk, CellsAdvance, TopEffect, Present, Handled;
      hide Marks, Typed, Declared;
      hide Spared, Devours, Ample;
      hide Entered, SameButQuiet;
      ghost var w1 := Now();
      TopRecord(prepared, w1, open, id);
      var reply := RunNative(fuel, open);
      ghost var w2 := Now();
      TopEffectOnTicket(prepared, w1, w2, id);
      TicketFacts(prepared, w2, open, id);
      EnteredFacts(w1.state.tickets[id], w2.state.tickets[id]);
      AcceptReply(id, reply, fuel, open);
      StepTrans(prepared, w1, w2, Now(), id);
      EnteredTrans(w1.state.tickets[id], w2.state.tickets[id], state.tickets[id]);
    }

    /** A nested call that completed during its first entry hands its outcome over and is released;
        any other call becomes a ticket for its caller. */
    method AnswerAtOnce(id: nat, root: nat, ghost open: set<nat>, ghost a: World) returns (r: Result<Call, Failure>)
      requires Inv(open) && Calm(prepared, Unwound(a, Now()), open) && id in state.tickets
      requires forall i | 0 <= i < |a.state.stack| && a.state.stack[i].ticket.Some? ::
        a.state.stack[i].ticket.value < id
      modifies this`state, this`handed, cells`subscriptions
      ensures Calm(prepared, Unwound(a, Now()), open) && cells.Valid() && state.stack == old(state).stack
      ensures Step(prepared, old(Unwound(a, Now())), Unwound(a, Now()), id)
      ensures r.Ok?
      ensures r.value.Waiting? ==> Now() == old(Now()) && r.value.ticket == Ticket(id, root)
      ensures r.value.Done? <==>
        var record := old(state).tickets[id];
        record.parent.Some? && record.quiescent && record.result.Some? && record.result.value.Ok?
      ensures r.value.Done? ==>
        && id !in state.tickets && old(handed)[id] == 0 && handed[id] == 1
        && old(state).tickets[id].result == Some(Ok(r.value.outcome))
    {
      hide Sane, Ran, Step, StepBelow, Exact, ExactBut, Sound, TopOk, CellsAdvance, TopEffect, Present, Handled;
      hide Marks, Typed, Declared;
      hide Spared, Devours, Ample;
      ghost var u := Unwound(a, Now());
      StepStays(prepared, u, open, id);
      var record := state.tickets[id];
      if !(record.parent.Some? && record.quiescent && record.result.Some? && record.result.value.Ok?) {
        return Ok(Waiting(Ticket(id, root)));
      }
      TakeAndRelease(prepared, u, open, id);
      state := state.(tickets := state.tickets[id := record.(result := None)]);
      ReleaseTree(id);
      handed := handed + multiset{id};
      ghost var v := Released(u, id).(handed := handed);
      assert Unwound(a, Now()) == v.(cursors := cells.subscriptions);
      CursorsGo(prepared, u, v, Unwound(a, Now()), open, id);
      return Ok(Done(record.result.value.value));
    }

    /** A property operation, `cell_dispatch`: only the selected provider's own cell of that name can
        be reached, and the outcome must be a declared one. */
    method CellCall(root: nat, caller: string, selection: Selection, operation: PreparedOperation, request: V.Value)
      returns (r: Result<Call, Failure>)
      requires operation.target.Cell? && cells.Valid()
      modifies cells
      ensures cells.Valid() && Advances(old(cells.cells), old(cells.history), cells.cells, cells.history)
      ensures |cells.history| <= old(|cells.history|) + 1
      ensures CellServed(root, caller, selection, operation, request, r)
      ensures r.Ok? ==> r.value.Done? && Fits(operation, r.value.outcome)
    {
      hide Advances, Schemas.Accepts, CellDone;
      NothingAdvanced(cells.cells, cells.history);
      var stateRequest := CellRequest(operation.target.operation, request);
      if stateRequest.Err? { return Err(stateRequest.error); }
      var outcome := CellOutcome(root, caller, selection, operation.target.property, stateRequest.value);
      return if Fits(operation, outcome) then Ok(Done(outcome)) else Err(Failure(SchemaRejected));
    }

    /** What carrying out the request of a property operation does, and its outcome: the present value, the
        next revision of the one commit, or the new cursor. It reaches a cell of the selected provider, with the
        property of the operation, and no other. */
    twostate predicate CellDone(root: nat, caller: string, selection: Selection, property: string,
                                request: StateRequest, new outcome: Outcome)
      requires old(cells.Valid()) && (request.Read? || request.Subscribe? || request.CompareExchange?)
      reads this`state, cells
    {
      var found := old(cells.Lookup(RequestLocation(request)));
      var own := found.Ok? && found.value.owner == selection.provider && found.value.property.id == property;
      var ticket := if state.stack == [] then None else state.stack[|state.stack| - 1].ticket;
      && (!own ==> outcome == Domain(V.String(Ascii("StaleReference"))))
      && (outcome.Domain? || !request.CompareExchange? ==>
            cells.cells == old(cells.cells) && cells.history == old(cells.history))
      && (outcome.Domain? || !request.Subscribe? ==>
            cells.subscriptions == old(cells.subscriptions) && cells.nextCursor == old(cells.nextCursor))
      && (own ==>
            match request
            case Read(location) => outcome == Success(old(cells.Lookup(location)).value.value)
            case CompareExchange(edit) =>
              var obstacle := if old(cells.epoch) == MAX_U64 then Some(C.EpochExhausted) else old(cells.Obstacle(edit));
              if obstacle.Some? then outcome == Domain(V.String(Ascii(ErrorName(obstacle.value))))
              else
                && C.Applied(old(cells.cells), cells.cells, [edit], cells.epoch)
                && cells.history == old(cells.history) + [C.Touched([edit])]
                && edit.expected < MAX_U64 && outcome == Success(V.U64(edit.expected + 1))
            case Subscribe(location) =>
              if |old(cells.subscriptions)| < 65536 && old(cells.nextCursor) < MAX_U64
              then cells.nextCursor == old(cells.nextCursor) + 1 && outcome == Success(V.U64(cells.nextCursor))
                && cells.subscriptions == old(cells.subscriptions)[
                     cells.nextCursor := C.Subscription(root, caller, ticket, location, found.value.revision)]
              else outcome.Domain?
            case _ => true)
    }

    /** A malformed request changes nothing, and an outcome is handed out if the operation declares it. */
    twostate predicate CellServed(root: nat, caller: string, selection: Selection, operation: PreparedOperation,
                                  request: V.Value, new r: Result<Call, Failure>)
      requires old(cells.Valid()) && operation.target.Cell?
      reads this`state, cells
    {
      match CellRequest(operation.target.operation, request)
      case Err(e) =>
        r == Err(e) && cells.cells == old(cells.cells) && cells.history == old(cells.history)
        && cells.subscriptions == old(cells.subscriptions)
      case Ok(stateRequest) => exists outcome ::
        && CellDone(root, caller, selection, operation.target.property, stateRequest, outcome)
        && r == if Fits(operation, outcome) then Ok(Done(outcome)) else Err(Failure(SchemaRejected))
    }

    /** The part of `cell_dispatch` that carries the request out. */
    method CellOutcome(root: nat, caller: string, selection: Selection, property: string, request: StateRequest)
      returns (outcome: Outcome)
      requires cells.Valid() && (request.Read? || request.Subscribe? || request.CompareExchange?)
      modifies cells
      ensures cells.Valid() && Advances(old(cells.cells), old(cells.history), cells.cells, cells.history)
      ensures |cells.history| <= old(|cells.history|) + 1
      ensures CellDone(root, caller, selection, property, request, outcome)
    {
      hide Advances, C.Applied, C.Touched;
      NothingAdvanced(cells.cells, cells.history);
      var found := cells.Lookup(RequestLocation(request));
      if found.Err? || found.value.owner != selection.provider || found.value.property.id != property {
        return Domain(V.String(Ascii("StaleReference")));
      }
      var ticket := if state.stack == [] then None else state.stack[|state.stack| - 1].ticket;
      var applied := Apply(cells, root, caller, ticket, request);
      match applied {
        case Ok(List(items)) =>
          var at := if request.Read? then 2 else 0;
          return Success(items[at]);
        case Err(error) => return Domain(V.String(Ascii(ErrorName(error))));
      }
    }

    /** `authorize_state`: the property operation must be enabled, selected and in scope; the answer is
        the operation key that was checked. */
    function Authorize(caller: string, location: V.Location, op: CellOperation): Result<string, C.AccessError>
      requires cells.Valid()
      reads this`state, cells
    {
      match cells.Lookup(location)
      case Err(e) => Err(e)
      case Ok(c) =>
        var enabled := match op
          case Get => c.property.get
          case Set => c.property.set_
          case Watch => c.property.watch;
        var resource := PropertyResource(c.owner, c.property.id);
        var key := PropertyKey(resource, op);
        var selected := caller == "root" || caller == c.owner || Imports(caller, key, c.owner);
        var scope := EffectScope(prepared, state.stack, caller, c.owner, key, None);
        if !Identifier(resource) || !enabled || !selected || scope.Err?
           || resource !in scope.value.authority.resources
        then Err(C.AccessError.Denied)
        else Ok(key)
    }

    /** What it takes: the cell exists and has the operation enabled, the caller is the root, the owner, or
        imports the operation from the owner, and the resource of the property is in the scope granted for the
        operation. */
    lemma AuthorizedExactly(caller: string, location: V.Location, op: CellOperation)
      requires cells.Valid()
      ensures Authorize(caller, location, op).Err? ==>
        Authorize(caller, location, op).error ==
          if cells.Lookup(location).Err? then cells.Lookup(location).error else C.AccessError.Denied
      ensures cells.Lookup(location).Ok? ==>
        var c := cells.Lookup(location).value;
        var resource := c.owner + ".property." + c.property.id;
        var key := resource + "@1/" + if op.Get? then "get" else if op.Set? then "set" else "watch";
        var scope := EffectScope(prepared, state.stack, caller, c.owner, key, None);
        && (Authorize(caller, location, op).Ok? ==> Authorize(caller, location, op).value == key)
        && (Authorize(caller, location, op).Ok? <==>
              && (op.Get? ==> c.property.get) && (op.Set? ==> c.property.set_) && (op.Watch? ==> c.property.watch)
              && Identifier(resource)
              && (caller == "root" || caller == c.owner || exists slot | (caller, slot) in prepared.bindings ::
                    prepared.bindings[(caller, slot)] == c.owner && ImportedKey(slot) == Some(key))
              && scope.Ok? && resource in scope.value.authority.resources)
    {
      hide EffectScope, Identifier, ImportedKey;
      if cells.Lookup(location).Ok? {
        var c := cells.Lookup(location).value;
        var resource := PropertyResource(c.owner, c.property.id);
        var name := if op.Get? then "get" else if op.Set? then "set" else "watch";
        assert PropertyKey(resource, op) == resource + "@1/" + name;
      }
    }

    predicate Imports(caller: string, key: string, provider: string) {
      exists binding | binding in prepared.bindings ::
        binding.0 == caller && prepared.bindings[binding] == provider && ImportedKey(binding.1) == Some(key)
    }

    /** `authorize_owner_publish`: the executing owner may publish a property that is read-only to others. */
    predicate MayPublish(caller: string, c: C.Cell)
      reads this`state
    {
      var resource := PropertyResource(c.owner, c.property.id);
      && c.owner == caller && (c.property.get || c.property.watch)
      && Identifier(resource)
      && state.stack != []
      && state.stack[|state.stack| - 1].provider == c.owner
      && (forall f | f in state.stack :: !f.revoked)
      && resource in state.stack[|state.stack| - 1].authority.resources
    }

    /** How an edit may be made, if it may: as the owner's publication, or through a `set` operation. */
    function AuthorizeEdit(caller: string, edit: C.Edit): Result<(EffectKind, string), C.AccessError>
      requires cells.Valid()
      reads this`state, cells
    {
      match cells.Lookup(edit.location)
      case Err(e) => Err(e)
      case Ok(c) =>
        if c.owner == caller && !c.property.set_ then
          if MayPublish(caller, c) then Ok((Publish, PropertyResource(c.owner, c.property.id)))
          else Err(C.AccessError.Denied)
        else
          match Authorize(caller, edit.location, Set)
          case Ok(key) => Ok((Access, key))
          case Err(e) => Err(e)
    }

    lemma AuthorizedKey(caller: string, location: V.Location, op: CellOperation)
      requires cells.Valid() && Authorize(caller, location, op).Ok?
      ensures Authorize(caller, location, op).value in Inherited(prepared, state.stack).authority.operations
    {
    }

    lemma AuthorizedEditKey(caller: string, edit: C.Edit)
      requires cells.Valid() && AuthorizeEdit(caller, edit).Ok?
      ensures AuthorizeEdit(caller, edit).value.0 != Publish ==>
        AuthorizeEdit(caller, edit).value.1 in Inherited(prepared, state.stack).authority.operations
      ensures AuthorizeEdit(caller, edit).value.0 == Publish ==>
        AuthorizeEdit(caller, edit).value.1 in Inherited(prepared, state.stack).authority.resources
    {
    }

    /** The property that a resolved reference leads to, by its resource. */
    function PropertyAt(location: V.Location): string
      requires cells.Valid() && cells.Lookup(location).Ok?
      reads cells
    {
      var c := cells.Lookup(location).value;
      c.owner + ".property." + c.property.id
    }

    /** The owner of a property that cannot be set publishes it. */
    predicate Publishes(caller: string, location: V.Location)
      requires cells.Valid() && cells.Lookup(location).Ok?
      reads cells
    {
      cells.Lookup(location).value.owner == caller && !cells.Lookup(location).value.property.set_
    }

    /** An authorized edit is either a publication by its owner's own code, or a `set`. */
    lemma EditAuthorizedExactly(caller: string, edit: C.Edit)
      requires cells.Valid()
      ensures AuthorizeEdit(caller, edit).Ok? ==>
        && cells.Lookup(edit.location).Ok?
        && AuthorizeEdit(caller, edit).value
           == if Publishes(caller, edit.location) then (Publish, PropertyAt(edit.location))
              else (Access, PropertyAt(edit.location) + "@1/set")
      ensures cells.Lookup(edit.location).Ok? ==>
        var c := cells.Lookup(edit.location).value;
        && (!Publishes(caller, edit.location) ==>
              (AuthorizeEdit(caller, edit).Ok? <==> Authorize(caller, edit.location, Set).Ok?))
        && (Publishes(caller, edit.location) ==>
              (AuthorizeEdit(caller, edit).Ok? <==>
                 && (c.property.get || c.property.watch) && Identifier(PropertyAt(edit.location))
                 && state.stack != [] && state.stack[|state.stack| - 1].provider == caller
                 && (forall f | f in state.stack :: !f.revoked)
                 && PropertyAt(edit.location) in state.stack[|state.stack| - 1].authority.resources))
    {
      hide Identifier, EffectScope, Authorize;
      AuthorizedExactly(caller, edit.location, Set);
      if cells.Lookup(edit.location).Ok? {
        var resource := PropertyAt(edit.location);
        assert resource + "@1/" + "set" == resource + "@1/set";
      }
    }

    /** The effect of an operation on a property, by its name. */
    ghost function EffectAt(kind: EffectKind, caller: string, location: V.Location, operation: string): Effect
      requires cells.Valid()
      reads this`state, this`bound, cells
    {
      var key := if cells.Lookup(location).Ok? then PropertyAt(location) + operation else operation;
      Effect(kind, caller, key, state.stack, state.tickets, bound)
    }

    /** An edit is a `set`, or a publication by the owner. */
    ghost function EditEffect(caller: string, edit: C.Edit): Effect
      requires cells.Valid()
      reads this`state, this`bound, cells
    {
      if cells.Lookup(edit.location).Ok? && Publishes(caller, edit.location)
      then EffectAt(Publish, caller, edit.location, "")
      else EffectAt(Access, caller, edit.location, "@1/set")
    }

    ghost function EditEffects(caller: string, edits: seq<C.Edit>): seq<Effect>
      requires cells.Valid()
      reads this`state, this`bound, cells
    {
      if edits == [] then []
      else EditEffects(caller, edits[..|edits| - 1]) + [EditEffect(caller, edits[|edits| - 1])]
    }

    /** The protected effects of a permitted request: reading is a `get`, and everything about a cursor is a
        `watch`. */
    ghost function EffectsOf(root: nat, caller: string, request: StateRequest): seq<Effect>
      requires cells.Valid() && state.stack != []
      reads this`state, this`bound, cells
    {
      match request
      case Create(_, _) => []
      case Read(location) => [EffectAt(Access, caller, location, "@1/get")]
      case Subscribe(location) => [EffectAt(Access, caller, location, "@1/watch")]
      case CompareExchange(edit) => [EditEffect(caller, edit)]
      case Batch(edits) => EditEffects(caller, edits)
      case _ =>
        var location := cells.Cursor(root, caller, state.stack[|state.stack| - 1].ticket, request.cursor);
        if location.Ok? then [EffectAt(Access, caller, location.value, "@1/watch")] else []
    }

    lemma AccessEffect(caller: string, location: V.Location, op: CellOperation, operation: string)
      requires cells.Valid() && Authorize(caller, location, op).Ok?
      requires operation == "@1/" + if op.Get? then "get" else if op.Set? then "set" else "watch"
      ensures EffectAt(Access, caller, location, operation)
        == Effect(Access, caller, Authorize(caller, location, op).value, state.stack, state.tickets, bound)
    {
      AuthorizedExactly(caller, location, op);
      var name := if op.Get? then "get" else if op.Set? then "set" else "watch";
      assert PropertyAt(location) + "@1/" + name == PropertyAt(location) + operation;
    }

    method AuthorizeOneEdit(caller: string, edit: C.Edit, ghost open: set<nat>) returns (r: Result<(), C.AccessError>)
      requires Inv(open) && TopOk(state.tickets, state.stack, open)
      requires state.stack != [] && !state.stack[|state.stack| - 1].revoked
      modifies this`effects
      ensures Inv(open) && Ran(prepared, old(Now()), Now())
      ensures r.Ok? <==> AuthorizeEdit(caller, edit).Ok?
      ensures effects == if r.Ok? then old(effects) + [EditEffect(caller, edit)] else old(effects)
    {
      hide Sane, Ran, Exact, TopOk, CellsAdvance, AuthorizeEdit, Publishes, PropertyAt;
      ghost var a := Now();
      CalmRanStays(prepared, a, open);
      var allowed := AuthorizeEdit(caller, edit);
      if allowed.Err? { return Err(allowed.error); }
      AuthorizedEditKey(caller, edit);
      EditAuthorizedExactly(caller, edit);
      EffectStep(prepared, a, open, allowed.value.0, caller, allowed.value.1);
      effects := effects + [Effect(allowed.value.0, caller, allowed.value.1, state.stack, state.tickets, bound)];
      assert PropertyAt(edit.location) + "" == PropertyAt(edit.location);
      return Ok(());
    }

    /** Every edit is authorized before any of them is made. */
    method AuthorizeEdits(caller: string, edits: seq<C.Edit>, ghost open: set<nat>)
      returns (r: Result<(), C.AccessError>)
      requires Inv(open) && TopOk(state.tickets, state.stack, open)
      requires state.stack != [] && !state.stack[|state.stack| - 1].revoked
      modifies this`effects
      ensures Inv(open) && Ran(prepared, old(Now()), Now())
      ensures r.Ok? <==> forall i | 0 <= i < |edits| :: AuthorizeEdit(caller, edits[i]).Ok?
      ensures r.Ok? ==> |effects| == |old(effects)| + |edits| && effects == old(effects) + EditEffects(caller, edits)
    {
      hide Sane, Ran, Exact, TopOk, CellsAdvance, AuthorizeEdit, EditEffect;
      ghost var a := Now();
      CalmRanStays(prepared, a, open);
      var i := 0;
      while i < |edits|
        invariant 0 <= i <= |edits| && Inv(open) && Ran(prepared, a, Now())
        invariant |effects| == |a.effects| + i
        invariant forall j | 0 <= j < i :: AuthorizeEdit(caller, edits[j]).Ok?
        invariant effects == a.effects + EditEffects(caller, edits[..i])
      {
        ghost var b := Now();
        r := AuthorizeOneEdit(caller, edits[i], open);
        if r.Err? { return; }
        RanTrans(prepared, a, b, Now());
        assert edits[..i + 1][..i] == edits[..i];
        i := i + 1;
      }
      assert edits[..i] == edits;
      return Ok(());
    }

    /** The authorization of a request other than a write. */
    method AuthorizeOne(caller: string, location: V.Location, op: CellOperation, ghost open: set<nat>)
      returns (r: Result<(), C.AccessError>)
      requires Inv(open) && TopOk(state.tickets, state.stack, open)
      requires state.stack != [] && !state.stack[|state.stack| - 1].revoked
      modifies this`effects
      ensures Inv(open) && Ran(prepared, old(Now()), Now())
      ensures r.Ok? <==> Authorize(caller, location, op).Ok?
      ensures r.Ok? ==>
        && var key := Authorize(caller, location, op).value;
        && effects == old(effects) + [Effect(Access, caller, key, state.stack, state.tickets, bound)]
    {
      hide Sane, Ran, Exact, TopOk, CellsAdvance;
      ghost var a := Now();
      CalmRanStays(prepared, a, open);
      var allowed := Authorize(caller, location, op);
      if allowed.Err? { return Err(allowed.error); }
      AuthorizedKey(caller, location, op);
      EffectStep(prepared, a, open, Access, caller, allowed.value);
      effects := effects + [Effect(Access, caller, allowed.value, state.stack, state.tickets, bound)];
      return Ok(());
    }

    /** Whether a state request of the caller is authorized, in the state in which it is made. */
    predicate Permitted(root: nat, caller: string, request: StateRequest)
      requires cells.Valid() && state.stack != []
      reads this`state, cells
    {
      match request
      case Create(_, _) => false
      case Read(location) => Authorize(caller, location, Get).Ok?
      case CompareExchange(edit) => AuthorizeEdit(caller, edit).Ok?
      case Batch(edits) => forall i | 0 <= i < |edits| :: AuthorizeEdit(caller, edits[i]).Ok?
      case Subscribe(location) => Authorize(caller, location, Watch).Ok?
      case _ =>
        var location := cells.Cursor(root, caller, state.stack[|state.stack| - 1].ticket, request.cursor);
        location.Ok? && Authorize(caller, location.value, Watch).Ok?
    }

    /** The authorization half of `state_request`: it succeeds exactly for a permitted request. */
    method AuthorizeRequest(root: nat, caller: string, request: StateRequest, ghost open: set<nat>)
      returns (r: Result<(), C.AccessError>)
      requires Inv(open) && TopOk(state.tickets, state.stack, open)
      requires request.Batch? ==> request.edits != []
      requires state.stack != [] && !state.stack[|state.stack| - 1].revoked
      modifies this`effects
      ensures Inv(open) && Ran(prepared, old(Now()), Now())
      ensures r.Ok? <==> Permitted(root, caller, request)
      ensures r.Ok? ==> |old(effects)| < |effects| && effects == old(effects) + EffectsOf(root, caller, request)
    {
      hide Sane, Ran, Exact, TopOk, CellsAdvance, Authorize, AuthorizeEdit, EffectAt, EditEffect;
      CalmRanStays(prepared, Now(), open);
      match request {
        case Create(_, _) => return Err(C.AccessError.Denied);
        case Read(location) =>
          r := AuthorizeOne(caller, location, Get, open);
          if r.Ok? { AccessEffect(caller, location, Get, "@1/get"); }
        case CompareExchange(edit) =>
          r := AuthorizeEdits(caller, [edit], open);
          assert [edit][0] == edit && [edit][..0] == [];
        case Batch(edits) => r := AuthorizeEdits(caller, edits, open);
        case Subscribe(location) =>
          r := AuthorizeOne(caller, location, Watch, open);
          if r.Ok? { AccessEffect(caller, location, Watch, "@1/watch"); }
        case Next(_) | Unsubscribe(_) =>
          var location := cells.Cursor(root, caller, state.stack[|state.stack| - 1].ticket, request.cursor);
          if location.Err? { return Err(location.error); }
          r := AuthorizeOne(caller, location.value, Watch, open);
          if r.Ok? { AccessEffect(caller, location.value, Watch, "@1/watch"); }
      }
    }

    /** `state_request`: authorizes a state request and carries it out. */
    method StateEffect(root: nat, caller: string, request: StateRequest, ghost open: set<nat>)
      returns (r: Result<Result<V.Value, C.AccessError>, Failure>)
      requires Inv(open) && TopOk(state.tickets, state.stack, open) && WellFormed(request)
      requires state.stack != [] && !state.stack[|state.stack| - 1].revoked
      modifies this`effects, cells
      ensures Inv(open) && TopEffect(prepared, old(Now()), Now())
      ensures state.activeRoot != Some(root) ==> r == Err(Failure(ScopeRejected)) && Now() == old(Now())
      ensures state.activeRoot == Some(root) && !old(Permitted(root, caller, request)) ==> r.Ok? && r.value.Err?
      ensures state.activeRoot == Some(root) && old(Permitted(root, caller, request)) ==> r.Ok?
      ensures state.activeRoot == Some(root) && old(Permitted(root, caller, request)) ==>
        && effects == old(effects) + old(EffectsOf(root, caller, request))
        && Carried(cells, root, caller, state.stack[|state.stack| - 1].ticket, request, r.value)
      ensures state.activeRoot == Some(root) && !old(Permitted(root, caller, request)) ==>
        && cells.cells == old(cells.cells) && cells.history == old(cells.history)
        && cells.subscriptions == old(cells.subscriptions)
    {
      hide Sane, Ran, Exact, TopOk, CellsAdvance, TopEffect, Advances, Permitted, C.Applied, C.Touched, EffectsOf;
      hide SnapshotValue, SnapshotValues, C.Committed, ReadAnswer, EditsOf, Calm, Lagging;
      hide C.Cells.Read, C.Cells.Cursor, C.Cells.Lookup, C.Cells.Obstacle, TreeOk;
      ghost var a := Now();
      CalmIsLagging(prepared, a, open, 0);
      LaggingTree(prepared, a, open, 0);
      TopEffectStays(prepared, a, open);
      if state.activeRoot != Some(root) { return Err(Failure(ScopeRejected)); }
      var allowed := AuthorizeRequest(root, caller, request, open);
      ghost var b := Now();
      QuietEffect(prepared, a, b);
      if allowed.Err? { return Ok(Err(allowed.error)); }
      var answer := Apply(cells, root, caller, state.stack[|state.stack| - 1].ticket, request);
      CellsOnly(prepared, a, b, Now(), open);
      QuietEffect(prepared, a, Now());
      return Ok(answer);
    }
  }
}
