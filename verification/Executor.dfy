/** The execution of a compiled graph under one root, driven by the host's pump. */
module ExecutorModel {
  import opened Wrappers
  import opened Contract
  import opened Bytes
  import V = Values
  import ValueCodec
  import Schemas
  import opened Dag
  import opened Graphs
  import opened Tickets
  import opened Worlds
  import opened KernelModel
  import opened RootModel
  import opened Waves
  import opened Schedules
  import C = CellStore
  import P = Prepared

  datatype GraphStep = GraphStep(node: string, outcome: Outcome)

  datatype Status = Running | Drains | Finished

  datatype Completion = Succeeded | HadDomain | WasCancelled | FailedWith(failure: Failure)

  /** Watched properties are named as state triggers name them. */
  ghost predicate NamesOk(cells: map<C.Id, C.Cell>) {
    forall id | id in cells && cells[id].property.watch :: NodeKey(cells[id].Name())
  }

  lemma NamesStay(a: World, b: World)
    requires CellsAdvance(a, b) && NamesOk(a.cells)
    ensures NamesOk(b.cells)
  {
  }

  /** Active nodes come after their active direct predecessors. */
  ghost predicate InOrder(g: Graph, active: seq<string>) {
    && Distinct(active)
    && forall i, p | 0 <= i < |active| && active[i] in g && p in g[active[i]] && p in active :: p in active[..i]
  }

  /** The nodes of a projection, in the order of the program. */
  ghost predicate Projected(g: Graph, part: set<string>, active: seq<string>) {
    part <= g.Keys && NameOrder(Restricted(g, part)) == Ok(active)
  }

  lemma ProjectionInOrder(g: Graph, part: set<string>, active: seq<string>)
    requires part <= g.Keys && Topological(Restricted(g, part), active)
    ensures InOrder(g, active) && forall n :: n in active <==> n in part
  {
    forall n | n in active ensures n in part { assert n in Restricted(g, part); }
    forall i, p | 0 <= i < |active| && active[i] in g && p in g[active[i]] && p in active ensures p in active[..i] {
      assert p in Restricted(g, part)[active[i]];
    }
  }

  lemma ProjectedIsPlanned(g: Graph, part: set<string>, active: seq<string>)
    requires Projected(g, part, active) && forall n :: n in active <==> n in part
    ensures (forall n | n in active :: n in g) && NameOrder(Plan(g, active)) == Ok(active)
  {
    assert (set n | n in active) == part;
  }

  lemma StepAdvances(p: P.Prepared, a: World, b: World, id: nat)
    requires Step(p, a, b, id)
    ensures CellsAdvance(a, b)
  {
  }

  /** No ticket is live. */
  predicate NothingLive(T: Forest) { forall id | id in T :: T[id].quiescent }

  /** No other retained ticket has this identity. */
  ghost predicate Alone(id: nat, pending: map<string, Ticket>, draining: seq<Ticket>) {
    && (forall n | n in pending :: pending[n].id != id)
    && (forall i | 0 <= i < |draining| :: draining[i].id != id)
  }

  lemma PendingAlone(T: Forest, root: nat, pending: map<string, Ticket>, draining: seq<Ticket>, node: string,
                     ticket: Ticket)
    requires TicketsOk(T, root, pending[node := ticket], draining) && node !in pending
    ensures TicketsOk(T, root, pending, draining) && Kept(T, root, ticket) && !T[ticket.id].delivered
    ensures !T[ticket.id].cancelled
    ensures Alone(ticket.id, pending, draining)
  {
    var all := pending[node := ticket];
    assert node in all;
    forall n | n in pending ensures n in all && all[n] == pending[n] && pending[n].id != ticket.id {}
  }

  lemma AddPending(T: Forest, root: nat, pending: map<string, Ticket>, draining: seq<Ticket>, node: string,
                   ticket: Ticket)
    requires TicketsOk(T, root, pending, draining) && Kept(T, root, ticket)
    requires !T[ticket.id].delivered && !T[ticket.id].cancelled
    requires Alone(ticket.id, pending, draining)
    ensures TicketsOk(T, root, pending[node := ticket], draining)
  {
  }

  lemma AddDraining(T: Forest, root: nat, pending: map<string, Ticket>, draining: seq<Ticket>, extra: seq<Ticket>,
                    ticket: Ticket)
    requires TicketsOk(T, root, pending, draining + extra) && Kept(T, root, ticket)
      && Alone(ticket.id, pending, draining + extra)
    ensures TicketsOk(T, root, pending, (draining + [ticket]) + extra)
  {
    var before, after := draining + extra, (draining + [ticket]) + extra;
    var n := |draining|;
    forall i | 0 <= i < |after|
      ensures after[i] == (if i < n then before[i] else if i == n then ticket else before[i - 1])
        && Kept(T, root, after[i])
    {
      if i != n { assert Kept(T, root, before[if i < n then i else i - 1]); }
    }
    forall i, j | 0 <= i < j < |after| ensures after[i].id != after[j].id {
      var x, y := if i <= n then i else i - 1, if j <= n then j else j - 1;
      if i == n { assert before[y].id != ticket.id; }
      else if j == n { assert before[x].id != ticket.id; }
      else { assert before[x].id != before[y].id; }
    }
    forall k, i | k in pending && 0 <= i < |after| ensures pending[k].id != after[i].id {
      if i != n { assert pending[k].id != before[if i < n then i else i - 1].id; }
    }
  }

  lemma Plain(s: seq<Ticket>)
    ensures s + [] == s
  {
  }

  /** The tickets of `taken` are held aside; those draining are in order by themselves. */
  lemma NoPending(T: Forest, root: nat, taken: map<string, Ticket>, draining: seq<Ticket>)
    requires TicketsOk(T, root, taken, draining)
    ensures TicketsOk(T, root, map[], draining)
  {
  }

  lemma FewerTickets(T: Forest, root: nat, pending: map<string, Ticket>, draining: seq<Ticket>, node: string)
    requires TicketsOk(T, root, pending, draining) && node in pending
    ensures TicketsOk(T, root, pending - {node}, draining)
    ensures (pending - {node})[node := pending[node]] == pending
  {
  }

  /** A finished ticket has been released; the others stay. */
  lemma ReleasedOne(p: P.Prepared, T: Forest, n: nat, root: nat, pending: map<string, Ticket>, draining: seq<Ticket>,
                    ticket: Ticket)
    requires TreeOk(p, T, n) && TicketsOk(T, root, pending, draining) && Alone(ticket.id, pending, draining)
    ensures TicketsOk(Without(T, ticket.id), root, pending, draining)
  {
    var U := Without(T, ticket.id);
    forall k | k in pending ensures pending[k].id in U { assert Hangs(p, T, n, pending[k].id); }
    forall i | 0 <= i < |draining| ensures draining[i].id in U { assert Hangs(p, T, n, draining[i].id); }
  }

  /** Work below a finished ticket cannot bring anything to life. */
  lemma StaysQuiet(p: P.Prepared, a: World, b: World, id: nat)
    requires Calm(p, a, {}) && Step(p, a, b, id) && id in a.state.tickets && NothingLive(a.state.tickets)
    ensures NothingLive(b.state.tickets)
  {
    var T, U := a.state.tickets, b.state.tickets;
    AllYounger(p, T, a.state.nextTicket);
    assert T[id].quiescent == Quiet(T, id);
    assert forall x | x in U && x !in T :: Under(U, id, x);
    assert forall x | x in U :: x in T && Later(T[x], U[x]);
  }

  /** A host call leaves the retained tickets as they are. */
  lemma TicketsSame(a: Forest, b: Forest, root: nat, pending: map<string, Ticket>, draining: seq<Ticket>)
    requires TicketsOk(a, root, pending, draining)
    requires forall t | t in a :: t in b && SameButQuiet(a[t], b[t])
    ensures TicketsOk(b, root, pending, draining)
  {
  }

  lemma NewIsAlone(p: P.Prepared, w: World, root: nat, pending: map<string, Ticket>, draining: seq<Ticket>, id: nat)
    requires Calm(p, w, {}) && TicketsOk(w.state.tickets, root, pending, draining) && w.state.nextTicket <= id
    ensures Alone(id, pending, draining)
  {
    AllYounger(p, w.state.tickets, w.state.nextTicket);
  }

  /** The call goes on, as a ticket. */
  predicate Pends(call: Result<Call, Failure>) { call.Ok? && call.value.Waiting? }

  /** What a call that does not go on has ended with. */
  function EndOf(call: Result<Call, Failure>): Result<Outcome, Failure> {
    match call
    case Ok(Done(outcome)) => Ok(outcome)
    case Ok(Waiting(_)) => Err(Failure(PluginFailed))
    case Err(f) => Err(f)
  }

  predicate DeclaredIfDone(p: P.Prepared, selection: P.Selection, call: Result<Call, Failure>) {
    match call
    case Ok(Done(outcome)) => Declared(p, selection, outcome)
    case _ => true
  }

  /** Only a delivered ticket is draining. */
  lemma DrainingIsDelivered(a: World, b: World, id: nat)
    requires id in a.state.tickets && id in b.state.tickets
    requires RestTickets(a.state, a.handed) && Answers(Draining, a, b, id)
    ensures a.state.tickets[id].delivered
  {
    assert RestTicket(a.state, a.handed, id);
  }

  /** The call of ticket `id` has lost its authority, has finished, or is forgotten. */
  predicate Withdrawn(s: State, id: nat) {
    id < s.nextTicket && (id in s.tickets ==> s.tickets[id].cancelled || s.tickets[id].quiescent)
  }

  lemma WithdrawnStays(p: P.Prepared, a: World, b: World, t: nat)
    requires Calm(p, a, {}) && Step(p, a, b, t)
    ensures forall id | Withdrawn(a.state, id) :: Withdrawn(b.state, id)
  {
    AllYounger(p, a.state.tickets, a.state.nextTicket);
  }

  /** What has become of a lease of the execution: it is still held, or the kernel has released it. */
  predicate Accounted(s: State, pending: map<string, Ticket>, draining: seq<Ticket>, node: string, ticket: Ticket) {
    (node in pending && pending[node] == ticket) || ticket in draining || Gone(s, ticket.id)
  }

  /** Live tickets outside the subtree of `id` stay live. */
  ghost predicate OthersLive(T: Forest, U: Forest, id: nat) {
    forall x | x in T && !T[x].quiescent && x != id && id !in T[x].ancestors ::
      x in U && !U[x].quiescent && U[x].selection == T[x].selection && U[x].ancestors == T[x].ancestors
  }

  lemma OthersLiveTrans(T: Forest, U: Forest, V: Forest, id: nat)
    requires OthersLive(T, U, id) && OthersLive(U, V, id)
    ensures OthersLive(T, V, id)
  {
  }

  /** Work on a host ticket leaves the other live tickets live. */
  lemma OthersStayLive(p: P.Prepared, a: World, b: World, id: nat)
    requires Calm(p, a, {}) && Calm(p, b, {}) && Step(p, a, b, id)
    requires id in a.state.tickets && a.state.tickets[id].parent.None?
    ensures OthersLive(a.state.tickets, b.state.tickets, id)
  {
    var T, U, n := a.state.tickets, b.state.tickets, a.state.nextTicket;
    var kept := set y | y in T && !Under(T, id, y);
    forall c | c in T && T[c].parent.Some? && T[c].parent.value in kept ensures c in kept {
      assert Hangs(p, T, n, c);
    }
    forall x | x in T && !T[x].quiescent && x != id && id !in T[x].ancestors
      ensures x in U && !U[x].quiescent && SameButQuiet(T[x], U[x])
    {
      LiveStays(p, T, n, U, kept, x);
    }
  }

  /** The call of a ticket is pending and live, and still the same. */
  predicate GoesOn(T: Forest, U: Forest, id: nat) {
    && id in T && id in U && U[id].logical == Pending && !U[id].quiescent && U[id].selection == T[id].selection
  }

  lemma PolledGoesOn(p: P.Prepared, a: World, b: World, id: nat)
    requires Step(p, a, b, id) && Calm(p, a, {}) && id in a.state.tickets && id in b.state.tickets
    requires b.state.tickets[id].logical == Pending && !b.state.tickets[id].quiescent
    ensures GoesOn(a.state.tickets, b.state.tickets, id)
  {
    AllYounger(p, a.state.tickets, a.state.nextTicket);
  }

  /** The providers with a live ticket. */
  ghost function BusyIn(T: Forest): set<string> { set id | id in T && !T[id].quiescent :: T[id].selection.provider }

  /** Every ticket stays as it is, apart from its derived flag, and the live ones stay live. */
  ghost predicate AllStay(T: Forest, U: Forest) {
    forall t | t in T :: t in U && SameButQuiet(T[t], U[t]) && (!T[t].quiescent ==> !U[t].quiescent)
  }

  lemma BusyStays(p: P.Prepared, a: World, b: World)
    requires Calm(p, a, {}) && Calm(p, b, {})
    requires forall t | t in a.state.tickets ::
      t in b.state.tickets && SameButQuiet(a.state.tickets[t], b.state.tickets[t])
    ensures AllStay(a.state.tickets, b.state.tickets)
  {
    var T, U := a.state.tickets, b.state.tickets;
    forall x | x in T && !T[x].quiescent ensures !U[x].quiescent {
      LiveStays(p, T, a.state.nextTicket, U, T.Keys, x);
    }
  }

  lemma BusyAtOnce(T: Forest, U: Forest)
    requires AllStay(T, U)
    ensures BusyIn(T) <= BusyIn(U)
  {
  }

  /** Work on a younger ticket leaves all busy providers busy, and its own provider if the work goes on. */
  lemma BusyOthers(p: P.Prepared, s: State, U: Forest, V: Forest, id: nat)
    requires TreeOk(p, s.tickets, s.nextTicket) && s.nextTicket <= id && AllStay(s.tickets, U) && OthersLive(U, V, id)
    ensures BusyIn(s.tickets) <= BusyIn(V)
    ensures GoesOn(U, V, id) ==> U[id].selection.provider in BusyIn(V)
  {
    var T := s.tickets;
    forall x | x in T && !T[x].quiescent ensures x in V && !V[x].quiescent && V[x].selection == T[x].selection {
      assert Hangs(p, T, s.nextTicket, x);
    }
  }

  /** A pending ticket is accounted for as soon as it is kept. */
  lemma NothingMoves(s: State, ticket: Ticket, pending: map<string, Ticket>, draining: seq<Ticket>, node: string)
    ensures Accounted(s, pending[node := ticket], draining, node, ticket)
    ensures OthersLive(s.tickets, s.tickets, ticket.id)
  {
  }

  lemma NothingHappens(s: State)
    ensures NothingReturns(s, s)
  {
  }

  lemma PendingIsLive(p: P.Prepared, w: World, id: nat)
    requires Calm(p, w, {}) && id in w.state.tickets && w.state.tickets[id].logical == Pending
    ensures !w.state.tickets[id].quiescent
  {
    assert LifeOk(w.state.tickets, w.handed, id);
    assert w.state.tickets[id].quiescent == Quiet(w.state.tickets, id);
  }

  lemma NoneReturns(p: P.Prepared, a: World, b: World, t: nat)
    requires Calm(p, a, {}) && Step(p, a, b, t)
    ensures NothingReturns(a.state, b.state)
  {
    AllYounger(p, a.state.tickets, a.state.nextTicket);
  }

  /** The tickets of `taken` are there as before, apart from derived flags. */
  ghost predicate Untouched(T: Forest, U: Forest, taken: map<string, Ticket>) {
    forall n | n in taken :: taken[n].id in T && taken[n].id in U && SameButQuiet(T[taken[n].id], U[taken[n].id])
  }

  ghost predicate SameQuiet(T: Forest, U: Forest, taken: map<string, Ticket>) {
    forall n | n in taken ::
      taken[n].id in T && taken[n].id in U && U[taken[n].id].quiescent == T[taken[n].id].quiescent
  }

  predicate SomeLive(T: Forest, given: map<string, Ticket>) {
    exists n | n in given :: given[n].id in T && !T[given[n].id].quiescent
  }

  /** The calls not dealt with are as they were, but nobody holds them. */
  ghost predicate LetGo(T: Forest, U: Forest, given: map<string, Ticket>, done: set<string>, draining: seq<Ticket>) {
    forall n | n in given && n !in done ::
      && given[n].id in T && given[n].id in U && SameButQuiet(T[given[n].id], U[given[n].id])
      && given[n] !in draining
  }

  /** The calls of `done` have lost their authority; each is retained or has been released. */
  ghost predicate DealtWith(s: State, given: map<string, Ticket>, done: set<string>, draining: seq<Ticket>) {
    forall n | n in done ::
      n in given && Withdrawn(s, given[n].id) && (given[n] in draining || Gone(s, given[n].id))
  }

  lemma DealtStays(s: State, t: State, given: map<string, Ticket>, done: set<string>, d: seq<Ticket>, e: seq<Ticket>)
    requires DealtWith(s, given, done, d) && NothingReturns(s, t) && d <= e
    requires forall id | Withdrawn(s, id) :: Withdrawn(t, id)
    ensures DealtWith(t, given, done, e)
  {
  }

  lemma OneMoreDealt(s: State, given: map<string, Ticket>, done: set<string>, draining: seq<Ticket>, node: string)
    requires DealtWith(s, given, done, draining) && node in given && Withdrawn(s, given[node].id)
    requires given[node] in draining || Gone(s, given[node].id)
    ensures DealtWith(s, given, done + {node}, draining)
  {
  }

  lemma ScopesRise(s: State, t: State)
    requires NothingReturns(s, t)
    ensures s.nextScope <= t.nextScope
  {
  }

  /** Nodes of one wave start in the order of the active nodes. */
  ghost predicate InActiveOrder(active: seq<string>, begun: seq<Start>, wave: nat) {
    && (forall i | 0 <= i < |begun| :: begun[i].wave == wave)
    && forall i, j | 0 <= i < j < |begun| :: Before(active, begun[i].node, begun[j].node)
  }

  /** The starts since there were `n`, for the first `k` of the active nodes. */
  ghost predicate StartedUpTo(active: seq<string>, starts: seq<Start>, n: nat, k: nat, wave: nat) {
    && n <= |starts| && k <= |active| && InActiveOrder(active, starts[n..], wave)
    && forall i | n <= i < |starts| :: starts[i].node in active[..k]
  }

  lemma NothingStarted(active: seq<string>, starts: seq<Start>, wave: nat)
    ensures StartedUpTo(active, starts, |starts|, 0, wave)
  {
  }

  lemma StartedInOrder(active: seq<string>, starts: seq<Start>, n: nat, k: nat, wave: nat)
    requires StartedUpTo(active, starts, n, k, wave)
    ensures n <= |starts| && InActiveOrder(active, starts[n..], wave)
  {
  }

  /** The turn of the next active node has passed, and may have started it. */
  lemma OneMoreInOrder(active: seq<string>, starts: seq<Start>, more: seq<Start>, n: nat, k: nat, wave: nat)
    requires k < |active| && StartedUpTo(active, starts, n, k, wave)
    requires more == starts
             || (|more| > 0 && more == starts + [more[|more| - 1]]
                 && more[|more| - 1].node == active[k] && more[|more| - 1].wave == wave)
    ensures StartedUpTo(active, more, n, k + 1, wave)
  {
    forall i | n <= i < |starts|
      ensures starts[i].node in active[..k + 1] && Before(active, starts[i].node, active[k])
    {
      var j :| 0 <= j < k && active[j] == starts[i].node;
    }
    if more != starts {
      assert active[..k + 1][k] == active[k];
      assert more[n..] == starts[n..] + [more[|more| - 1]];
    }
  }

  lemma ReturnsTrans(s: State, t: State, u: State)
    requires NothingReturns(s, t) && NothingReturns(t, u)
    ensures NothingReturns(s, u)
  {
  }

  /** The calls of `done` have been dealt with since `s0`, those of `taken` are still to come. Without scope
      numbers only finished calls can have been dealt with. */
  ghost predicate Taking(s0: State, s: State, given: map<string, Ticket>, taken: map<string, Ticket>, done: set<string>,
                         d0: seq<Ticket>, d: seq<Ticket>) {
    && taken.Keys <= given.Keys && (forall n | n in taken :: taken[n] == given[n]) && done == given.Keys - taken.Keys
    && DealtWith(s, given, done, d) && d0 <= d && NothingReturns(s0, s) && Untouched(s0.tickets, s.tickets, taken)
    && (s0.nextScope >= MAX_U64 ==>
          && s.nextScope >= MAX_U64 && SameQuiet(s0.tickets, s.tickets, taken)
          && forall n | n in done :: given[n].id in s0.tickets && s0.tickets[given[n].id].quiescent)
  }

  lemma TakingStarts(s: State, root: nat, given: map<string, Ticket>, d: seq<Ticket>)
    requires TicketsOk(s.tickets, root, given, d)
    ensures Taking(s, s, given, given, {}, d, d)
  {
    SameUntouched(s.tickets, root, given, d);
  }

  lemma TakingOn(s0: State, s: State, t: State, given: map<string, Ticket>, taken: map<string, Ticket>, node: string,
                 done: set<string>, d0: seq<Ticket>, d: seq<Ticket>, e: seq<Ticket>)
    requires Taking(s0, s, given, taken, done, d0, d) && node in taken
    requires NothingReturns(s, t) && d <= e && forall id | Withdrawn(s, id) :: Withdrawn(t, id)
    requires Untouched(s.tickets, t.tickets, taken - {node})
    ensures DealtWith(t, given, done, e) && d0 <= e && NothingReturns(s0, t) && node in given && node !in done
    ensures Untouched(s0.tickets, t.tickets, taken - {node}) && given[node] == taken[node]
    ensures given.Keys - (done + {node}) <= (taken - {node}).Keys && done <= given.Keys
    ensures forall n | n in taken - {node} :: n in given && (taken - {node})[n] == given[n]
    ensures taken[node].id in s0.tickets && taken[node].id in s.tickets
    ensures s0.nextScope >= MAX_U64 ==>
      s.nextScope >= MAX_U64 && s.tickets[taken[node].id].quiescent == s0.tickets[taken[node].id].quiescent
  {
    hide Withdrawn, Gone;
    DealtStays(s, t, given, done, d, e);
    FewerUntouched(s0.tickets, s.tickets, taken, node);
    UntouchedTwice(s0.tickets, s.tickets, t.tickets, taken - {node});
    ReturnsTrans(s0, s, t);
  }

  lemma TakingNext(s0: State, s: State, t: State, given: map<string, Ticket>, taken: map<string, Ticket>, node: string,
                   done: set<string>, d0: seq<Ticket>, d: seq<Ticket>, e: seq<Ticket>)
    requires Taking(s0, s, given, taken, done, d0, d) && node in taken
    requires NothingReturns(s, t) && d <= e && forall id | Withdrawn(s, id) :: Withdrawn(t, id)
    requires Untouched(s.tickets, t.tickets, taken - {node})
    requires taken[node] in e || Gone(t, taken[node].id)
    requires Withdrawn(t, taken[node].id)
    requires taken[node].id in s.tickets
    requires s.nextScope >= MAX_U64 ==>
      && s.tickets[taken[node].id].quiescent && t.nextScope >= MAX_U64
      && SameQuiet(s.tickets, t.tickets, taken - {node})
    ensures Taking(s0, t, given, taken - {node}, done + {node}, d0, e)
  {
    hide Withdrawn, Gone, DealtWith, NothingReturns, Untouched;
    TakingOn(s0, s, t, given, taken, node, done, d0, d, e);
    OneMoreDealt(t, given, done, e, node);
    FewerUntouched(s0.tickets, s.tickets, taken, node);
    UntouchedTwice(s0.tickets, s.tickets, t.tickets, taken - {node});
    assert given.Keys - (taken - {node}).Keys == done + {node};
  }

  lemma TakingEnds(s0: State, s: State, given: map<string, Ticket>, done: set<string>, d0: seq<Ticket>, d: seq<Ticket>)
    requires Taking(s0, s, given, map[], done, d0, d)
    ensures done == given.Keys && DealtWith(s, given, done, d) && d0 <= d && NothingReturns(s0, s)
    ensures s0.nextScope >= MAX_U64 ==> !SomeLive(s0.tickets, given)
  {
  }

  lemma AloneNotDraining(ticket: Ticket, taken: map<string, Ticket>, draining: seq<Ticket>)
    requires Alone(ticket.id, taken, draining)
    ensures ticket !in draining
  {
  }

  lemma SameUntouched(T: Forest, root: nat, taken: map<string, Ticket>, draining: seq<Ticket>)
    requires TicketsOk(T, root, taken, draining)
    ensures Untouched(T, T, taken) && SameQuiet(T, T, taken)
  {
  }

  lemma FewerUntouched(T: Forest, U: Forest, taken: map<string, Ticket>, node: string)
    requires Untouched(T, U, taken) && node in taken
    ensures Untouched(T, U, taken - {node}) && taken[node].id in T && taken[node].id in U
    ensures SameQuiet(T, U, taken) ==>
      SameQuiet(T, U, taken - {node}) && U[taken[node].id].quiescent == T[taken[node].id].quiescent
  {
  }

  lemma UntouchedTwice(T: Forest, U: Forest, V: Forest, taken: map<string, Ticket>)
    requires Untouched(T, U, taken) && Untouched(U, V, taken)
    ensures Untouched(T, V, taken)
    ensures SameQuiet(T, U, taken) && SameQuiet(U, V, taken) ==> SameQuiet(T, V, taken)
  {
  }

  lemma OthersUntouched(p: P.Prepared, a: World, b: World, root: nat, id: nat, taken: map<string, Ticket>,
                        draining: seq<Ticket>)
    requires Step(p, a, b, id) && TicketsOk(a.state.tickets, root, taken, draining) && Alone(id, taken, draining)
    ensures Untouched(a.state.tickets, b.state.tickets, taken)
  {
    forall n | n in taken
      ensures taken[n].id in b.state.tickets
      ensures SameButQuiet(a.state.tickets[taken[n].id], b.state.tickets[taken[n].id])
    {
      OthersKept(p, a, b, root, id, taken[n]);
    }
  }

  lemma ReleasedUntouched(T: Forest, U: Forest, V: Forest, taken: map<string, Ticket>)
    requires Untouched(T, U, taken) && forall n | n in taken :: taken[n].id in V
    requires forall id | id in V :: id in U && V[id] == U[id]
    ensures Untouched(T, V, taken) && (T == U ==> SameQuiet(T, V, taken))
  {
  }

  lemma LetGoOnes(T: Forest, U: Forest, root: nat, given: map<string, Ticket>, taken: map<string, Ticket>,
                  done: set<string>, draining: seq<Ticket>)
    requires Untouched(T, U, taken) && TicketsOk(U, root, taken, draining)
    requires given.Keys - done <= taken.Keys && forall n | n in taken :: n in given && taken[n] == given[n]
    ensures LetGo(T, U, given, done, draining)
  {
    forall n | n in given && n !in done ensures given[n] !in draining {
      assert n in taken;
      assert forall i | 0 <= i < |draining| :: taken[n].id != draining[i].id;
    }
  }

  lemma AllIssued(p: P.Prepared, w: World)
    requires Calm(p, w, {})
    ensures forall id | id in w.state.tickets :: id < w.state.nextTicket
  {
    AllYounger(p, w.state.tickets, w.state.nextTicket);
  }

  lemma DeliveredOnce(answer: Poll, a: World, b: World, id: nat)
    requires id in a.state.tickets && id in b.state.tickets && Answers(answer, a, b, id)
    ensures answer.Delivered? ==> a.handed[id] == 0 && b.handed[id] == 1
  {
  }

  lemma AnswerKeeps(p: P.Prepared, answer: Poll, a: World, b: World, id: nat)
    requires id in a.state.tickets && id in b.state.tickets && Answers(answer, a, b, id) && answer.Unfinished?
    requires Calm(p, b, {})
    ensures !b.state.tickets[id].delivered && !b.state.tickets[id].quiescent
    ensures b.state.tickets[id].logical == Pending && !b.state.tickets[id].cancelled
  {
    assert LifeOk(b.state.tickets, b.handed, id);
    assert b.state.tickets[id].quiescent == Quiet(b.state.tickets, id);
  }

  class GraphExecution {
    const root: Root
    const graph: CompiledGraph
    const payload: V.Value
    const pendingAllowed: bool
    var nodeRequests: map<string, V.Value>
    var stateCursor: u64
    var hadDomain: bool
    var active: seq<string>
    var waiting: set<string>
    var pending: map<string, Ticket>
    var draining: seq<Ticket>
    var unsuccessful: set<string>
    var completed: seq<GraphStep>
    var failure: Option<Failure>
    var cancelled: bool
    var stopped: bool
    var terminal: bool
    /** Where the nodes of the present wave have gone. */
    ghost var marks: Marks
    /** The starts of nodes, in all waves so far, and the number of the present wave. */
    ghost var starts: seq<Start>
    ghost var wave: nat
    /** The commits that were turned into waves, from the epoch of admission on, and for each wave after the first
        the number of the window that began it. */
    ghost var windows: seq<Window>
    ghost var begun: seq<nat>
    ghost const start: nat

    ghost predicate Base()
      reads this`active, this`windows, this`stateCursor, root, root.kernel, root.kernel.cells
    {
      Rests() && InOrder(graph.predecessors, active)
    }

    /** The root is held, and the windows lead up to the cursor. */
    ghost predicate Rests()
      reads this`windows, this`stateCursor, root, root.kernel, root.kernel.cells
    {
      && root.Held() && Compiled(graph) && NamesOk(root.kernel.cells.cells)
      && WindowsOk(root.kernel.cells.cells, root.kernel.cells.history, windows, start, stateCursor)
    }

    /** The nodes are where they should be, with those of `p` pending. */
    ghost predicate NodesOk(p: set<string>)
      reads this`active, this`waiting, this`unsuccessful, this`marks, this`stopped, this`starts, this`wave
    {
      && WaveOk(graph.predecessors, active, waiting, p, unsuccessful, marks, stopped)
      && StartedIn(starts, wave) == marks.Started(p)
    }

    /** The execution ended with a domain error exactly when the outcome of some node is one; a node is
        skipped only for such an outcome. */
    predicate DomainOk()
      reads this`hadDomain, this`completed, this`unsuccessful
    {
      && hadDomain == AnyDomain(completed)
      && (unsuccessful != {} ==> hadDomain)
    }

    /** Nodes are lost, and start behind lost ones, only for want of a scope number. */
    ghost predicate InTime()
      reads this`starts, this`wave, this`active, this`marks, root, root.kernel`state
    {
      InTimeWith(marks.lost, root.kernel.Exhausted())
    }

    ghost predicate InTimeWith(lost: set<string>, excused: bool)
      reads this`starts, this`wave, this`active
    {
      && (forall n | n in active :: n in graph.predecessors)
      && LogOk(starts, wave, Plan(graph.predecessors, active))
      && StartsOk(starts, lost, excused)
    }

    /** Every start carried its own request, and so will those of the present wave. */
    ghost predicate Carried()
      reads this`starts, this`wave, this`active, this`nodeRequests, this`windows, this`begun
    {
      && RequestsOk(graph, payload, starts, windows, begun, wave)
      && AtHand(graph, payload, windows, begun, wave, active, nodeRequests)
    }

    ghost predicate Valid()
      reads this, root, root.kernel, root.kernel.cells
    {
      && Base() && NodesOk(pending.Keys) && DomainOk() && InTime() && Carried()
      && TicketsOk(root.kernel.state.tickets, root.id, pending, draining)
      && (terminal ==> stopped || (waiting == {} && pending == map[]))
    }

    constructor (root: Root, graph: CompiledGraph, payload: V.Value, active: seq<string>, epoch: u64,
                 pendingAllowed: bool)
      requires root.Held() && Compiled(graph) && NamesOk(root.kernel.cells.cells)
      requires InOrder(graph.predecessors, active) && forall n | n in active :: n in graph.predecessors
      requires epoch == |root.kernel.cells.history|
      ensures Valid() && this.root == root && this.graph == graph && this.active == active && stateCursor == epoch
      ensures waiting == (set n | n in active) && pending == map[] && !stopped && !terminal && start == epoch
      ensures this.pendingAllowed == pendingAllowed && draining == [] && starts == []
    {
      this.root := root;
      this.graph := graph;
      this.payload := payload;
      this.pendingAllowed := pendingAllowed;
      this.active := active;
      waiting := set n | n in active;
      nodeRequests := map[];
      stateCursor := epoch;
      hadDomain, cancelled, stopped, terminal := false, false, false, false;
      pending, draining, unsuccessful, completed, failure := map[], [], {}, [], None;
      marks := NO_MARKS;
      windows, begun := [], [];
      starts, wave := [], 0;
      start := epoch;
      new;
      FirstParts();
      AllParts();
    }

    /** The wave, as the scheduling loop sees it. */
    ghost function At(): Stage
      reads this, root, root.kernel`state
    {
      Stage(waiting, pending.Keys, unsuccessful, marks, stopped, BusyIn(root.kernel.state.tickets))
    }

    /** Calls are synchronous, and nothing is live. */
    ghost predicate Idle()
      reads this, root, root.kernel`state
    {
      !pendingAllowed && NothingLive(root.kernel.state.tickets) && pending == map[] && draining == []
    }

    /** The active nodes are listed in order by names. */
    ghost predicate Planned()
      reads this`active
    {
      && (forall n | n in active :: n in graph.predecessors)
      && NameOrder(Plan(graph.predecessors, active)) == Ok(active)
    }

    /** ... and between two passes a wave has ended or has not begun, and all waves have kept their order. */
    ghost predicate Quiet()
      reads this, root, root.kernel`state
    {
      && Idle() && Planned() && InNameOrder(starts)
      && (stopped || waiting == {} || StartedIn(starts, wave) == {})
    }

    /** A pass over an idle wave keeps the order by names. */
    lemma QuietPass(before: seq<Start>)
      requires Valid() && Idle() && Planned() && InNameOrder(before) && before <= starts
      requires InActiveOrder(active, starts[|before|..], wave)
      requires starts == before || StartedIn(before, wave) == {}
      requires stopped || waiting == {}
      ensures Quiet()
    {
      hide Carried, WaveOk, StartedIn, LogOk, Before, Base, DomainOk, TicketsOk, InNameOrder, NameOrder, Idle;
      ghost var n := |before|;
      forall i | n <= i < |starts| ensures starts[i] == starts[n..][i - n] {}
      PassInOrder(before, starts, active, wave, Plan(graph.predecessors, active));
    }

    /** The forest of the kernel is well formed. */
    lemma TreeHeld()
      requires Base()
      ensures TreeOk(root.kernel.prepared, root.kernel.state.tickets, root.kernel.state.nextTicket)
    {
      CalmTree(root.kernel.prepared, root.kernel.Now());
    }

    /** An active node is a node of the graph. */
    lemma NodeHeld(i: nat)
      requires Valid() && i < |active|
      ensures active[i] in graph.nodes && active[i] in graph.predecessors
    {
      hide Carried, WaveOk;
      NodesAreGraph(graph);
    }

    function CompletionOf(): Completion
      reads this
    {
      if failure.Some? then FailedWith(failure.value)
      else if cancelled then WasCancelled
      else if hadDomain then HadDomain
      else Succeeded
    }

    /** What the end of a node leaves behind: a success, a domain error that may stop the graph and
        leaves the node unsuccessful, or a kernel failure that always stops it. */
    twostate predicate Ends(node: string, result: Result<Outcome, Failure>)
      requires node in graph.nodes
      reads this
    {
      match result
      case Ok(Success(value)) =>
        && completed == old(completed) + [GraphStep(node, Success(value))]
        && marks == old(marks).(succeeded := old(marks).succeeded + {node})
        && unsuccessful == old(unsuccessful) && hadDomain == old(hadDomain) && stopped == old(stopped)
        && failure == old(failure) && cancelled == old(cancelled)
      case Ok(Domain(value)) =>
        && completed == old(completed) + [GraphStep(node, Domain(value))]
        && marks == old(marks).(failed := old(marks).failed + {node})
        && unsuccessful == old(unsuccessful) + {node} && hadDomain
        && stopped == (old(stopped) || graph.nodes[node].failure == FailRoot)
        && failure == old(failure) && cancelled == old(cancelled)
      case Err(f) =>
        && completed == old(completed) && marks == old(marks).(ended := old(marks).ended + {node})
        && unsuccessful == old(unsuccessful) && hadDomain == old(hadDomain)
        && stopped && failure == Some(f) && cancelled == old(cancelled)
    }

    /** `finish_node`: a started node has an outcome; a kernel failure stops the graph whatever the
        node's own policy. */
    method FinishNode(node: string, result: Result<Outcome, Failure>)
      requires NodesOk(pending.Keys + {node}) && node !in pending && node in graph.nodes && DomainOk()
      modifies this`hadDomain, this`unsuccessful, this`stopped, this`completed, this`failure, this`marks
      ensures NodesOk(pending.Keys) && DomainOk()
      ensures Ends(node, result)
    {
      hide StartedIn, LogOk, WaveOk, Marks.Started;
      ghost var p := pending.Keys + {node};
      SettleNode(graph.predecessors, active, waiting, p, unsuccessful, marks, stopped, node);
      assert p - {node} == pending.Keys;
      match result {
        case Ok(outcome) =>
          if outcome.Domain? {
            marks := marks.(failed := marks.failed + {node});
            hadDomain := true;
            unsuccessful := unsuccessful + {node};
            if graph.nodes[node].failure == FailRoot {
              Stopping(graph.predecessors, active, waiting, pending.Keys, unsuccessful, marks, stopped);
              stopped := true;
            }
          } else {
            marks := marks.(succeeded := marks.succeeded + {node});
          }
          completed := completed + [GraphStep(node, outcome)];
          OneMoreStep(old(completed), node, outcome);
        case Err(f) =>
          marks := marks.(ended := marks.ended + {node});
          failure := Some(f);
          stopped := true;
      }
    }

    predicate Quiescent(ticket: Ticket)
      requires ticket.id in root.kernel.state.tickets
      reads root.kernel`state
    {
      root.kernel.state.tickets[ticket.id].quiescent
    }

    /** Releases a ticket whose lease has ended, or retains it for draining; `others` and `extra` are
        tickets that are held besides. */
    method ReleaseOrRetain(ticket: Ticket, ghost others: map<string, Ticket>, ghost extra: seq<Ticket>)
      requires Base() && TicketsOk(root.kernel.state.tickets, root.id, others, draining + extra)
      requires Kept(root.kernel.state.tickets, root.id, ticket) && Alone(ticket.id, others, draining + extra)
      modifies this`draining, root.kernel`state, root.kernel.cells`subscriptions
      ensures Base() && TicketsOk(root.kernel.state.tickets, root.id, others, draining + extra)
      ensures draining == if old(Quiescent(ticket)) then old(draining) else old(draining) + [ticket]
      ensures ticket in draining || Gone(root.kernel.state, ticket.id)
      ensures NothingReturns(old(root.kernel.state), root.kernel.state)
      ensures root.kernel.state == old(root.kernel.state).(tickets := root.kernel.state.tickets)
      ensures forall id | id in root.kernel.state.tickets ::
        id in old(root.kernel.state).tickets && root.kernel.state.tickets[id] == old(root.kernel.state).tickets[id]
      ensures OthersLive(old(root.kernel.state.tickets), root.kernel.state.tickets, ticket.id)
    {
      hide Calm, RestTickets, WindowsOk, NamesOk, Compiled, InOrder, Ran, TicketsOk, Alone;
      ghost var a := root.kernel.Now();
      AllIssued(root.kernel.prepared, a);
      if Quiescent(ticket) {
        CalmTree(root.kernel.prepared, a);
        ReleasedOne(root.kernel.prepared, a.state.tickets, a.state.nextTicket, root.id, others, draining + extra,
          ticket);
        var released := root.Release(ticket);
      } else {
        AddDraining(a.state.tickets, root.id, others, draining, extra, ticket);
        draining := draining + [ticket];
      }
    }

    /** One poll of a held ticket; the tickets of `others` and `held` are held besides. */
    method PollOnce(ticket: Ticket, ghost others: map<string, Ticket>, ghost held: seq<Ticket>, fuel: nat)
      returns (polled: Result<Poll, Failure>)
      requires Base() && TicketsOk(root.kernel.state.tickets, root.id, others, held)
      requires Kept(root.kernel.state.tickets, root.id, ticket) && Alone(ticket.id, others, held)
      modifies root.kernel`state, root.kernel`handed, root.kernel`effects, root.kernel.cells
      ensures Base() && TicketsOk(root.kernel.state.tickets, root.id, others, held)
      ensures Kept(root.kernel.state.tickets, root.id, ticket)
      ensures old(NothingLive(root.kernel.state.tickets)) ==> NothingLive(root.kernel.state.tickets)
      ensures OthersLive(old(root.kernel.state.tickets), root.kernel.state.tickets, ticket.id)
      ensures NothingReturns(old(root.kernel.state), root.kernel.state)
      ensures old(root.kernel.effects) <= root.kernel.effects
      ensures polled.Err? && !old(Quiescent(ticket) && root.kernel.state.tickets[ticket.id].delivered) ==>
        root.kernel.Exhausted()
      ensures polled == Ok(Unfinished) ==>
        !old(Quiescent(ticket)) && !root.kernel.state.tickets[ticket.id].delivered
        && root.kernel.state.tickets[ticket.id].logical == Pending && !root.kernel.state.tickets[ticket.id].cancelled
        && GoesOn(old(root.kernel.state.tickets), root.kernel.state.tickets, ticket.id)
      ensures polled == Ok(Draining) ==> old(root.kernel.state).tickets[ticket.id].delivered
      ensures polled.Ok? && polled.value.Delivered? ==>
        old(root.kernel.handed)[ticket.id] == 0 && root.kernel.handed[ticket.id] == 1
    {
      hide Calm, RestTickets, WindowsOk, NamesOk, Compiled, InOrder, Ran, TicketsOk, Alone, Answers, Step;
      hide CellsAdvance, NothingLive;
      ghost var p := root.kernel.prepared;
      ghost var a := root.kernel.Now();
      polled := root.PollTicket(ticket, fuel);
      ghost var b := root.kernel.Now();
      StepAdvances(p, a, b, ticket.id);
      NoneReturns(p, a, b, ticket.id);
      NamesStay(a, b);
      WindowsStay(a, b, windows, start, stateCursor);
      AloneStays(p, a, b, root.id, ticket.id, others, held);
      if NothingLive(a.state.tickets) { StaysQuiet(p, a, b, ticket.id); }
      LaterQuiet(p, a, b, ticket.id);
      OthersStayLive(p, a, b, ticket.id);
      if polled == Ok(Unfinished) {
        AnswerKeeps(p, polled.value, a, b, ticket.id);
        PolledGoesOn(p, a, b, ticket.id);
      }
      if polled == Ok(Draining) { DrainingIsDelivered(a, b, ticket.id); }
      if polled.Ok? { DeliveredOnce(polled.value, a, b, ticket.id); }
    }

    /** A node whose ticket could not be polled is lost to the execution. */
    ghost method LoseNode(node: string)
      requires NodesOk(pending.Keys + {node}) && node !in pending
      modifies this`marks
      ensures NodesOk(pending.Keys) && marks == old(marks).(lost := old(marks).lost + {node})
    {
      hide StartedIn, LogOk, WaveOk, Marks.Started;
      SettleNode(graph.predecessors, active, waiting, pending.Keys + {node}, unsuccessful, marks, stopped, node);
      assert pending.Keys + {node} - {node} == pending.Keys;
      marks := marks.(lost := marks.lost + {node});
    }

    /** A cancelled node stops the graph. */
    method EndNode(node: string)
      requires NodesOk(pending.Keys + {node}) && node !in pending
      modifies this`marks, this`cancelled, this`stopped
      ensures NodesOk(pending.Keys) && stopped && cancelled && marks == old(marks).(ended := old(marks).ended + {node})
    {
      hide StartedIn, LogOk, WaveOk, Marks.Started;
      SettleNode(graph.predecessors, active, waiting, pending.Keys + {node}, unsuccessful, marks, stopped, node);
      assert pending.Keys + {node} - {node} == pending.Keys;
      cancelled := true;
      stopped := true;
      marks := marks.(ended := marks.ended + {node});
    }

    /** `accept_poll`: what a poll of a pending node's ticket means for the node. The branch for a
        ticket that is draining already is never taken. */
    method AcceptPoll(node: string, ticket: Ticket, fuel: nat)
      returns (r: Result<(), Failure>, ghost answer: Result<Poll, Failure>)
      requires Base() && NodesOk(pending.Keys + {node}) && node !in pending && node in graph.nodes
      requires TicketsOk(root.kernel.state.tickets, root.id, pending[node := ticket], draining)
      requires ticket.id in root.kernel.state.tickets && DomainOk()
      modifies this`pending, this`draining, this`hadDomain, this`unsuccessful, this`completed, this`failure
      modifies this`cancelled, this`stopped, this`marks, root.kernel`state, root.kernel`handed, root.kernel`effects
      modifies root.kernel.cells
      ensures DomainOk() && Base() && NodesOk(pending.Keys)
        && TicketsOk(root.kernel.state.tickets, root.id, pending, draining)
      ensures old(stopped) ==> stopped
      ensures OthersLive(old(root.kernel.state.tickets), root.kernel.state.tickets, ticket.id)
      ensures pending == old(pending) || pending == old(pending)[node := ticket]
      ensures r.Ok? && old(Quiescent(ticket)) ==> pending == old(pending)
      ensures r.Ok? ==> marks.lost == old(marks).lost
      ensures old(NothingLive(root.kernel.state.tickets)) ==> NothingLive(root.kernel.state.tickets)
      ensures NothingReturns(old(root.kernel.state), root.kernel.state)
      ensures old(draining) <= draining && old(root.kernel.effects) <= root.kernel.effects
      ensures answer.Ok? ==> Accounted(root.kernel.state, pending, draining, node, ticket)
      ensures answer.Err? ==> root.kernel.Exhausted()
      ensures answer.Ok? ==> marks.lost == old(marks).lost
      ensures answer.Err? ==>
        r == Err(answer.error) && pending == old(pending) && completed == old(completed)
        && marks == old(marks).(lost := old(marks).lost + {node})
        && unsuccessful == old(unsuccessful) && stopped == old(stopped)
      ensures answer.Ok? ==> r == Ok(())
      ensures answer != Ok(Draining)
      ensures answer == Ok(Unfinished) ==>
        && GoesOn(old(root.kernel.state.tickets), root.kernel.state.tickets, ticket.id)
        && pending == old(pending)[node := ticket] && completed == old(completed) && marks == old(marks)
        && unsuccessful == old(unsuccessful) && stopped == old(stopped)
      ensures answer.Ok? && answer.value.Delivered? ==>
        && pending == old(pending) && Ends(node, answer.value.result)
        && old(root.kernel.handed)[ticket.id] == 0 && root.kernel.handed[ticket.id] == 1
      ensures answer.Ok? && answer.value.PollCancelled? ==>
        && pending == old(pending) && completed == old(completed) && cancelled && stopped
        && marks == old(marks).(ended := old(marks).ended + {node}) && unsuccessful == old(unsuccessful)
    {
      hide StartedIn, LogOk, Base, NodesOk, DomainOk, Calm, WindowsOk, NamesOk, Compiled, InOrder, TicketsOk, Alone;
      hide WaveOk, NothingLive, AtRest, Gone;
      hide OthersLive;
      PendingAlone(root.kernel.state.tickets, root.id, pending, draining, node, ticket);
      ghost var T0 := root.kernel.state.tickets;
      var polled := PollOnce(ticket, pending, draining, fuel);
      answer := polled;
      if polled.Err? {
        LoseNode(node);
        return Err(polled.error), answer;
      }
      ghost var T := root.kernel.state.tickets;
      match polled.value {
        case Unfinished =>
          AddPending(T, root.id, pending, draining, node, ticket);
          pending := pending[node := ticket];
          assert pending.Keys == old(pending).Keys + {node};
        case Delivered(result) =>
          Plain(draining);
          ReleaseOrRetain(ticket, pending, []);
          OthersLiveTrans(T0, T, root.kernel.state.tickets, ticket.id);
          Plain(draining);
          FewerLive(T, root.kernel.state.tickets);
          FinishNode(node, result);
        case PollCancelled(_) =>
          Plain(draining);
          ReleaseOrRetain(ticket, pending, []);
          OthersLiveTrans(T0, T, root.kernel.state.tickets, ticket.id);
          Plain(draining);
          FewerLive(T, root.kernel.state.tickets);
          EndNode(node);
        case Draining =>
          assert false;
      }
      return Ok(()), answer;
    }

    /** Cancels one ticket, and releases or retains it; the tickets of `taken` are held besides and stay as
        they are. It fails only for want of a scope number, and then the ticket is neither released nor
        retained. */
    method CancelOne(ticket: Ticket, ghost taken: map<string, Ticket>, fuel: nat)
      returns (r: Result<(), Failure>, ghost answer: Result<(), Failure>)
      requires Base() && TicketsOk(root.kernel.state.tickets, root.id, taken, draining)
      requires Kept(root.kernel.state.tickets, root.id, ticket) && Alone(ticket.id, taken, draining)
      requires !root.kernel.state.tickets[ticket.id].cancelled
      modifies this`draining, root.kernel`state, root.kernel`handed, root.kernel`effects, root.kernel.cells
      ensures Base() && TicketsOk(root.kernel.state.tickets, root.id, taken, draining)
      ensures forall id | Withdrawn(old(root.kernel.state), id) :: Withdrawn(root.kernel.state, id)
      ensures NothingReturns(old(root.kernel.state), root.kernel.state)
      ensures old(draining) <= draining
      ensures Untouched(old(root.kernel.state.tickets), root.kernel.state.tickets, taken)
      ensures r.Ok? ==> ticket in draining || Gone(root.kernel.state, ticket.id)
      ensures answer.Err? ==> r == answer && draining == old(draining) && root.kernel.Exhausted()
      ensures answer.Ok? ==> r.Ok?
      ensures r.Ok? ==> Withdrawn(root.kernel.state, ticket.id)
      ensures old(root.kernel.Exhausted() && !Quiescent(ticket)) ==> answer.Err?
      ensures old(root.kernel.Exhausted() && Quiescent(ticket)) ==>
        root.kernel.Exhausted() && SameQuiet(old(root.kernel.state.tickets), root.kernel.state.tickets, taken)
    {
      hide Calm, RestTickets, WindowsOk, NamesOk, Compiled, InOrder, Ran, TicketsOk, Alone, Step, CellsAdvance;
      hide Untouched, SameQuiet;
      ghost var p := root.kernel.prepared;
      ghost var a := root.kernel.Now();
      AllIssued(p, a);
      answer := Ok(());
      SameUntouched(a.state.tickets, root.id, taken, draining);
      if !Quiescent(ticket) {
        var done := root.Cancel(ticket, fuel);
        ghost var b := root.kernel.Now();
        StepAdvances(p, a, b, ticket.id);
        NoneReturns(p, a, b, ticket.id);
        NamesStay(a, b);
        WindowsStay(a, b, windows, start, stateCursor);
        AloneStays(p, a, b, root.id, ticket.id, taken, draining);
        OthersUntouched(p, a, b, root.id, ticket.id, taken, draining);
        WithdrawnStays(p, a, b, ticket.id);
        if done.Err? { return Err(done.error), Err(done.error); }
      }
      ghost var c := root.kernel.state.tickets;
      Plain(draining);
      ReleaseOrRetain(ticket, taken, []);
      Plain(draining);
      SameUntouched(root.kernel.state.tickets, root.id, taken, draining);
      ReleasedUntouched(a.state.tickets, c, root.kernel.state.tickets, taken);
      return Ok(()), Ok(());
    }

    /** The loop of `cancel_pending` over the calls it has taken. When a cancellation fails, the calls after
        it are let go as they are. */
    method CancelTaken(given: map<string, Ticket>, fuel: nat)
      returns (r: Result<(), Failure>, ghost done: set<string>, ghost failed: string)
      requires Base() && TicketsOk(root.kernel.state.tickets, root.id, given, draining)
      modifies this`draining, root.kernel`state, root.kernel`handed, root.kernel`effects, root.kernel.cells
      ensures Base() && TicketsOk(root.kernel.state.tickets, root.id, map[], draining)
      ensures NothingReturns(old(root.kernel.state), root.kernel.state)
      ensures old(draining) <= draining && done <= given.Keys
      ensures DealtWith(root.kernel.state, given, done, draining)
      ensures r.Ok? ==> done == given.Keys
      ensures r.Err? ==>
        && root.kernel.Exhausted() && failed in given && failed !in done && given[failed] !in draining
        && LetGo(old(root.kernel.state.tickets), root.kernel.state.tickets, given, done + {failed}, draining)
      ensures old(root.kernel.Exhausted() && SomeLive(root.kernel.state.tickets, given)) ==> r.Err?
      ensures given == map[] ==> draining == old(draining) && root.kernel.state == old(root.kernel.state)
    {
      hide Base, Calm, RestTickets, WindowsOk, NamesOk, Compiled, InOrder, Ran, TicketsOk, Alone, Step, CellsAdvance;
      hide Withdrawn, Gone, Untouched, SameQuiet, DealtWith, NothingReturns, LetGo, Taking, SomeLive;
      var taken := given;
      ghost var s0, d0 := root.kernel.state, draining;
      done, failed := {}, "";
      NoPending(s0.tickets, root.id, taken, draining);
      TakingStarts(s0, root.id, given, draining);
      while taken != map[]
        invariant Base() && TicketsOk(root.kernel.state.tickets, root.id, taken, draining)
        invariant TicketsOk(root.kernel.state.tickets, root.id, map[], draining)
        invariant taken.Keys <= given.Keys && Taking(s0, root.kernel.state, given, taken, done, d0, draining)
        invariant given == map[] ==> draining == d0 && root.kernel.state == s0
        decreases |taken|
      {
        var node :| node in taken;
        var ticket := taken[node];
        ghost var s1, d1, before := root.kernel.state, draining, taken;
        FewerTickets(s1.tickets, root.id, taken, draining, node);
        PendingAlone(s1.tickets, root.id, taken - {node}, draining, node, ticket);
        taken := taken - {node};
        ghost var answer;
        r, answer := CancelOne(ticket, taken, fuel);
        NoPending(root.kernel.state.tickets, root.id, taken, draining);
        TakingOn(s0, s1, root.kernel.state, given, before, node, done, d0, d1, draining);
        if r.Err? {
          failed := node;
          AloneNotDraining(ticket, taken, d1);
          LetGoOnes(s0.tickets, root.kernel.state.tickets, root.id, given, taken, done + {failed}, draining);
          return;
        }
        TakingNext(s0, s1, root.kernel.state, given, before, node, done, d0, d1, draining);
        done := done + {node};
      }
      TakingEnds(s0, root.kernel.state, given, done, d0, draining);
      return Ok(()), done, failed;
    }

    /** `cancel_pending`: the pending calls lose their authority, and are released or retained. It fails only
        for want of a scope number, and always without one if some call is live; then the calls from the
        failing one on are in nobody's hands. */
    method CancelPending(fuel: nat) returns (r: Result<(), Failure>, ghost done: set<string>, ghost failed: string)
      requires Valid() && stopped
      modifies this`pending, this`draining, this`marks, root.kernel`state, root.kernel`handed, root.kernel`effects
      modifies root.kernel.cells
      ensures Valid() && stopped && pending == map[]
      ensures marks == old(marks).(ended := old(marks).ended + old(pending).Keys)
      ensures NothingReturns(old(root.kernel.state), root.kernel.state)
      ensures old(draining) <= draining && done <= old(pending).Keys
      ensures DealtWith(root.kernel.state, old(pending), done, draining)
      ensures r.Ok? ==> done == old(pending).Keys
      ensures r.Err? ==>
        && root.kernel.Exhausted() && failed in old(pending) && failed !in done && old(pending)[failed] !in draining
        && LetGo(old(root.kernel.state.tickets), root.kernel.state.tickets, old(pending), done + {failed}, draining)
      ensures old(root.kernel.Exhausted() && SomeLive(root.kernel.state.tickets, pending)) ==> r.Err?
      ensures old(pending) == map[] ==> draining == old(draining) && root.kernel.state == old(root.kernel.state)
    {
      hide Carried, StartedIn, LogOk, Base, TicketsOk, WaveOk, Withdrawn, Gone, NothingReturns, LetGo, SomeLive;
      EndAll(graph.predecessors, active, waiting, pending.Keys, unsuccessful, marks);
      marks := marks.(ended := marks.ended + pending.Keys);
      var taken := pending;
      pending := map[];
      assert pending.Keys == {};
      ghost var s0 := root.kernel.state;
      r, done, failed := CancelTaken(taken, fuel);
      ScopesRise(s0, root.kernel.state);
    }

    /** `cancel`: revokes future work and cancels the pending calls at once. */
    method Cancel(fuel: nat) returns (r: Result<(), Failure>)
      requires Valid()
      modifies this`pending, this`draining, this`marks, this`cancelled, this`stopped, root.kernel`state
      modifies root.kernel`handed, root.kernel`effects, root.kernel.cells
      ensures Valid()
      ensures NothingReturns(old(root.kernel.state), root.kernel.state)
      ensures old(draining) <= draining
      ensures old(terminal) ==>
        r == Ok(()) && pending == old(pending) && stopped == old(stopped) && cancelled == old(cancelled)
      ensures old(terminal) ==> root.kernel.Now() == old(root.kernel.Now())
      ensures r.Ok? && !old(terminal) ==> forall n | n in old(pending) ::
        old(pending)[n] in draining || Gone(root.kernel.state, old(pending)[n].id)
      ensures !old(terminal) ==> stopped && cancelled && pending == map[]
      ensures !old(terminal) && r.Err? ==> root.kernel.Exhausted()
      ensures !old(terminal) && old(root.kernel.Exhausted() && SomeLive(root.kernel.state.tickets, pending)) ==> r.Err?
      ensures r.Ok? && !old(terminal) ==>
        forall n | n in old(pending) :: Withdrawn(root.kernel.state, old(pending)[n].id)
    {
      hide Base, InTime, Carried, DomainOk, StartedIn, TicketsOk, WaveOk, NothingReturns;
      if terminal {
        NothingHappens(root.kernel.state);
        return Ok(());
      }
      Stopping(graph.predecessors, active, waiting, pending.Keys, unsuccessful, marks, stopped);
      cancelled, stopped := true, true;
      ghost var done, failed;
      r, done, failed := CancelPending(fuel);
    }

    /** `admit_state_wave`: the watched properties that changed since the cursor become the next wave.
        It never fails: changed properties are well named, the projection has no cycle, and every
        activated node has a changed property to be told of. */
    method AdmitStateWave() returns (r: Result<bool, Failure>)
      requires Valid() && waiting == {} && pending == map[] && !stopped && !terminal
      modifies this`windows, this`stateCursor, this`active, this`waiting, this`unsuccessful, this`nodeRequests
      modifies this`marks, this`wave, this`begun
      ensures Valid() && r.Ok? && (r.value <==> waiting != {})
      ensures begun == if r.value then old(begun) + [|windows| - 1] else old(begun)
      ensures r.value ==> Projected(graph.predecessors, waiting, active)
      ensures if r.value then Planned() && StartedIn(starts, wave) == {} else active == old(active) && wave == old(wave)
      ensures stateCursor == root.kernel.cells.epoch == |root.kernel.cells.history|
      ensures |windows| == |old(windows)| + 1 && old(windows) <= windows
      ensures var w := windows[|windows| - 1];
        && w.from == old(stateCursor) && w.to == stateCursor
        && waiting == Active(graph, StateTriggers(w.changed))
        && (r.value ==> marks == NO_MARKS && unsuccessful == {})
        && (r.value ==> nodeRequests == map n | n in waiting :: HookRequest(graph.nodes[n], w.changed, stateCursor))
    {
      hide StartedIn, LogOk, Calm, RestTickets, WindowsOk, NamesOk, Compiled, InOrder, TicketsOk, WaveOk, HookRequest;
      hide Active;
      var changed := ReadChanges();
      MoreWindows(graph, payload, starts, old(windows), windows, begun, wave, active, nodeRequests);
      NoTriggers(graph);
      if changed == {} { return Ok(false); }
      WellNamed(root.kernel.cells.cells, root.kernel.cells.history, windows[|windows| - 1]);
      r := StartWave(changed);
    }

    /** The first part of `admit_state_wave`: reads the changes and moves the cursor. */
    method ReadChanges() returns (changed: set<string>)
      requires Base()
      modifies this`windows, this`stateCursor
      ensures Base() && stateCursor == root.kernel.cells.epoch == |root.kernel.cells.history|
      ensures windows == old(windows) + [Window(old(stateCursor), stateCursor, changed)]
      ensures WindowOk(root.kernel.cells.cells, root.kernel.cells.history, windows[|windows| - 1])
    {
      hide Calm, RestTickets, WindowsOk, NamesOk, Compiled, InOrder;
      var epoch, names := root.kernel.cells.WatchedChangesSince(stateCursor);
      changed := names;
      CursorInRange(root.kernel.cells.cells, root.kernel.cells.history, windows, start, stateCursor);
      ChangedNames(root.kernel.cells, stateCursor, changed);
      OneMoreWindow(root.kernel.cells.cells, root.kernel.cells.history, windows, start, stateCursor, changed);
      windows := windows + [Window(stateCursor, epoch, changed)];
      stateCursor := epoch;
    }

    /** The second part: the projection to the changed properties. */
    method StartWave(changed: set<string>) returns (r: Result<bool, Failure>)
      requires Valid() && waiting == {} && pending == map[] && !stopped && !terminal
      requires forall name | name in changed :: NodeKey(name)
      requires windows != [] && windows[|windows| - 1].changed == changed && windows[|windows| - 1].to == stateCursor
      requires forall k | 0 <= k < |begun| :: begun[k] < |windows| - 1
      modifies this`active, this`waiting, this`unsuccessful, this`nodeRequests, this`marks, this`wave, this`begun
      ensures Valid() && r.Ok? && (r.value <==> waiting != {})
      ensures begun == if r.value then old(begun) + [|windows| - 1] else old(begun)
      ensures r.value ==> Projected(graph.predecessors, waiting, active)
      ensures waiting == Active(graph, StateTriggers(changed))
      ensures if r.value then Planned() && StartedIn(starts, wave) == {} else active == old(active) && wave == old(wave)
      ensures r.value ==> marks == NO_MARKS && unsuccessful == {}
      ensures r.value ==> nodeRequests == map n | n in waiting :: HookRequest(graph.nodes[n], changed, stateCursor)
    {
      hide StartedIn, LogOk, Valid, Compiled, InOrder, HookRequest, Active, NodeKey, Projected;
      HeldGraph();
      var next, requests := PrepareWave(graph, changed, stateCursor);
      ghost var part := Active(graph, StateTriggers(changed));
      assert (set n | n in next) == part;
      if next == [] {
        EmptyProjection(next, part);
        return Ok(false);
      }
      assert next[0] in next;
      InstallWave(next, requests);
      ProjectedIsPlanned(graph.predecessors, part, next);
      return Ok(true);
    }

    lemma HeldGraph()
      requires Valid()
      ensures Compiled(graph)
    {
    }

    /** The nodes of `next` may begin the wave after this one, with these requests. */
    ghost predicate MayBegin(next: seq<string>, requests: map<string, V.Value>)
      reads this`windows, this`begun
    {
      && InOrder(graph.predecessors, next) && (forall n | n in next :: n in graph.predecessors)
      && windows != [] && (forall k | 0 <= k < |begun| :: begun[k] < |windows| - 1)
      && var w := windows[|windows| - 1];
        forall n | n in next :: n in graph.nodes && n in Active(graph, StateTriggers(w.changed))
          && n in requests && requests[n] == HookRequest(graph.nodes[n], w.changed, w.to)
    }

    /** The wave that they begin is a good one, and so stays the log. */
    lemma NextIsGood(next: seq<string>, requests: map<string, V.Value>, all: set<string>)
      requires InTime() && Carried() && MayBegin(next, requests) && all == set n | n in next
      ensures windows != [] && InOrder(graph.predecessors, next) && forall n | n in next :: n in graph.predecessors
      ensures WaveOk(graph.predecessors, next, all, {}, {}, NO_MARKS, false)
      ensures LogOk(starts, wave + 1, Plan(graph.predecessors, next))
      ensures StartsOk(starts, NO_MARKS.lost, root.kernel.Exhausted())
      ensures StartedIn(starts, wave + 1) == {} && NO_MARKS.Started({}) == {}
      ensures RequestsOk(graph, payload, starts, windows, begun + [|windows| - 1], wave + 1)
      ensures AtHand(graph, payload, windows, begun + [|windows| - 1], wave + 1, next, requests)
    {
      hide StartedIn, LogOk, WaveOk, Plan, StartsOk, InOrder;
      hide RequestsOk, AtHand, HookRequest, Active, Marks.Started, Kernel.Exhausted;
      NextWave(starts, wave, Plan(graph.predecessors, active), Plan(graph.predecessors, next));
      StartsStay(starts, marks.lost, root.kernel.Exhausted(), {}, root.kernel.Exhausted());
      WaveBegun(graph, payload, starts, windows, begun, wave, next, requests);
      FreshWave(graph.predecessors, next, all);
    }

    lemma Parts()
      requires Valid() && pending == map[] && !stopped
      ensures Rests() && hadDomain == AnyDomain(completed) && InTime() && Carried()
      ensures TicketsOk(root.kernel.state.tickets, root.id, pending, draining)
    {
      hide Rests, NodesOk, AnyDomain, InTime, Carried, TicketsOk;
    }

    /** ... and of a new execution. */
    lemma FirstParts()
      requires root.Held() && Compiled(graph) && NamesOk(root.kernel.cells.cells)
      requires InOrder(graph.predecessors, active) && forall n | n in active :: n in graph.predecessors
      requires windows == [] && begun == [] && starts == [] && wave == 0 && start == stateCursor
      requires stateCursor == |root.kernel.cells.history|
      requires waiting == (set n | n in active) && pending == map[] && draining == [] && unsuccessful == {}
      requires marks == NO_MARKS && !stopped && completed == [] && nodeRequests == map[]
      ensures Rests()
      ensures WaveOk(graph.predecessors, active, waiting, {}, unsuccessful, marks, stopped)
      ensures StartedIn(starts, wave) == marks.Started({}) && !AnyDomain(completed)
      ensures LogOk(starts, wave, Plan(graph.predecessors, active))
      ensures StartsOk(starts, marks.lost, root.kernel.Exhausted())
      ensures RequestsOk(graph, payload, starts, windows, begun, wave)
      ensures AtHand(graph, payload, windows, begun, wave, active, nodeRequests)
      ensures TicketsOk(root.kernel.state.tickets, root.id, pending, draining)
    {
      hide Root.Held, Compiled, InOrder, NamesOk, WaveOk, HookRequest;
      FreshWave(graph.predecessors, active, waiting);
      NodesAreGraph(graph);
    }

    lemma AllParts()
      requires Rests() && InOrder(graph.predecessors, active)
      requires pending == map[] && WaveOk(graph.predecessors, active, waiting, {}, unsuccessful, marks, stopped)
      requires forall n | n in active :: n in graph.predecessors
      requires StartedIn(starts, wave) == marks.Started({}) && hadDomain == AnyDomain(completed) && unsuccessful == {}
      requires LogOk(starts, wave, Plan(graph.predecessors, active))
      requires StartsOk(starts, marks.lost, root.kernel.Exhausted())
      requires RequestsOk(graph, payload, starts, windows, begun, wave)
      requires AtHand(graph, payload, windows, begun, wave, active, nodeRequests)
      requires TicketsOk(root.kernel.state.tickets, root.id, pending, draining) && !terminal
      ensures Valid()
    {
      hide Rests, InOrder, WaveOk, StartedIn, Marks.Started, AnyDomain, LogOk, StartsOk, RequestsOk, AtHand, TicketsOk;
      hide Kernel.Exhausted;
      assert pending.Keys == {};
    }

    /** The nodes of the next wave take their places. */
    method InstallWave(next: seq<string>, requests: map<string, V.Value>)
      requires Valid() && waiting == {} && pending == map[] && !stopped && !terminal
      requires MayBegin(next, requests)
      modifies this`active, this`waiting, this`unsuccessful, this`nodeRequests, this`marks, this`wave, this`begun
      ensures Valid() && active == next && waiting == (set n | n in next) && nodeRequests == requests
      ensures marks == NO_MARKS && unsuccessful == {} && StartedIn(starts, wave) == {}
      ensures begun == old(begun) + [|windows| - 1]
    {
      hide *;
      var all := set n | n in next;
      Parts();
      NextIsGood(next, requests, all);
      active, waiting, unsuccessful, nodeRequests := next, all, {}, requests;
      marks, wave, begun := NO_MARKS, wave + 1, begun + [|windows| - 1];
      AllParts();
    }

    /** The first part of `pump`: every retained lease is polled once; cleanup admits no node. */
    method DrainLeases(fuel: nat) returns (r: Result<(), Failure>)
      requires Valid()
      modifies this`draining, root.kernel`state, root.kernel`handed, root.kernel`effects, root.kernel.cells
      ensures Valid()
      ensures old(NothingLive(root.kernel.state.tickets)) ==> NothingLive(root.kernel.state.tickets)
      ensures NothingReturns(old(root.kernel.state), root.kernel.state)
      ensures forall t | t in draining :: t in old(draining)
      ensures r.Ok? ==> forall t | t in old(draining) :: t in draining || Gone(root.kernel.state, t.id)
      ensures r.Ok? && old(NothingLive(root.kernel.state.tickets)) ==> draining == []
      ensures old(draining) == [] ==> r.Ok? && draining == [] && root.kernel.state == old(root.kernel.state)
    {
      hide StartedIn, LogOk, Calm, RestTickets, WindowsOk, NamesOk, Compiled, InOrder, Ran, TicketsOk, Alone, WaveOk;
      hide Carried, Base, NodesOk, DomainOk;
      hide Step, CellsAdvance, NothingLive, Gone;
      var rest := draining;
      draining := [];
      assert draining + rest == old(draining);
      while rest != []
        invariant Base() && TicketsOk(root.kernel.state.tickets, root.id, pending, draining + rest)
        invariant old(NothingLive(root.kernel.state.tickets)) ==> NothingLive(root.kernel.state.tickets)
        invariant NothingReturns(old(root.kernel.state), root.kernel.state)
        invariant forall t | t in draining || t in rest :: t in old(draining)
        invariant forall t | t in old(draining) :: t in draining || t in rest || Gone(root.kernel.state, t.id)
        invariant old(NothingLive(root.kernel.state.tickets)) ==> draining == []
        invariant old(draining) == [] ==> draining == [] && rest == [] && root.kernel.state == old(root.kernel.state)
        decreases |rest|
      {
        var ticket := rest[0];
        ghost var a := root.kernel.Now();
        FirstOfRest(a.state.tickets, root.id, pending, draining, rest);
        QuietMeansQuiet(a.state.tickets, ticket.id);
        assert rest == [ticket] + rest[1..];
        rest := rest[1..];
        if !Quiescent(ticket) {
          var polled := PollOnce(ticket, pending, draining + rest, fuel);
          if polled.Err? {
            WithoutRest(root.kernel.state.tickets, root.id, pending, draining, rest);
            return Err(polled.error);
          }
        }
        ghost var c := root.kernel.Now();
        ReleaseOrRetain(ticket, pending, rest);
        FewerLive(c.state.tickets, root.kernel.state.tickets);
      }
      assert draining + [] == draining;
      return Ok(());
    }

    /** One pending node's ticket is polled. */
    method PollNode(node: string, fuel: nat) returns (r: Result<(), Failure>)
      requires Valid() && !stopped && node in pending
      modifies this`pending, this`draining, this`hadDomain, this`unsuccessful, this`completed, this`failure
      modifies this`cancelled, this`stopped, this`marks, root.kernel`state, root.kernel`handed, root.kernel`effects
      modifies root.kernel.cells
      ensures Valid() && (pending == old(pending) - {node} || pending == old(pending))
      ensures r.Ok? ==> marks.lost == old(marks).lost
      ensures old(NothingLive(root.kernel.state.tickets)) ==> NothingLive(root.kernel.state.tickets)
      ensures NothingReturns(old(root.kernel.state), root.kernel.state)
      ensures old(draining) <= draining
      ensures forall n | n in pending :: n in old(pending) && pending[n] == old(pending)[n]
      ensures forall n | n in old(pending) && n != node :: n in pending
      ensures r.Ok? ==> Accounted(root.kernel.state, pending, draining, node, old(pending)[node])
      ensures r.Ok? && old(NothingLive(root.kernel.state.tickets)) ==> pending == old(pending) - {node}
    {
      hide StartedIn, LogOk, Calm, RestTickets, WindowsOk, NamesOk, Compiled, InOrder, Ran, TicketsOk, Alone, WaveOk;
      hide Carried, Base, Marks.Started, Answers, DomainOk, WindowOk;
      hide Step, CellsAdvance, NothingLive, Gone, NothingReturns;
      var ticket := pending[node];
      ghost var T := root.kernel.state.tickets;
      FewerTickets(T, root.id, pending, draining, node);
      PendingAlone(T, root.id, pending - {node}, draining, node, ticket);
      WaitingIsActive(graph.predecessors, active, waiting, pending.Keys, unsuccessful, marks, stopped, node);
      HeldGraph();
      NodesAreGraph(graph);
      assert (pending - {node}).Keys + {node} == pending.Keys;
      pending := pending - {node};
      QuietMeansQuiet(T, ticket.id);
      ghost var answer;
      ghost var s0 := root.kernel.state;
      r, answer := AcceptPoll(node, ticket, fuel);
      ScopesRise(s0, root.kernel.state);
    }

    /** The second part of `pump`: every pending node's ticket is polled once, until the graph stops. */
    method PollPending(fuel: nat) returns (r: Result<(), Failure>)
      requires Valid()
      modifies this`pending, this`draining, this`hadDomain, this`unsuccessful, this`completed, this`failure
      modifies this`cancelled, this`stopped, this`marks, root.kernel`state, root.kernel`handed, root.kernel`effects
      modifies root.kernel.cells
      ensures Valid() && (old(stopped) ==> stopped)
      ensures r.Ok? ==> marks.lost == old(marks).lost
      ensures old(NothingLive(root.kernel.state.tickets)) ==> NothingLive(root.kernel.state.tickets)
      ensures NothingReturns(old(root.kernel.state), root.kernel.state)
      ensures old(draining) <= draining
      ensures r.Ok? ==> forall n | n in old(pending) ::
        Accounted(root.kernel.state, pending, draining, n, old(pending)[n])
      ensures r.Ok? && old(NothingLive(root.kernel.state.tickets)) && !stopped ==> pending == map[]
      ensures old(pending) == map[] ==>
        r.Ok? && pending == map[] && draining == old(draining) && root.kernel.state == old(root.kernel.state)
    {
      hide Valid, NothingLive, Gone;
      var todo := pending.Keys;
      while todo != {} && !stopped
        invariant Valid() && todo <= pending.Keys && (old(stopped) ==> stopped)
        invariant marks.lost == old(marks).lost
        invariant old(NothingLive(root.kernel.state.tickets)) ==>
          NothingLive(root.kernel.state.tickets) && pending.Keys <= todo
        invariant old(draining) <= draining && NothingReturns(old(root.kernel.state), root.kernel.state)
        invariant old(pending) == map[] ==> draining == old(draining) && root.kernel.state == old(root.kernel.state)
        invariant forall n | n in pending :: n in old(pending) && pending[n] == old(pending)[n]
        invariant forall n | n in old(pending) :: Accounted(root.kernel.state, pending, draining, n, old(pending)[n])
        decreases |todo|
      {
        var node :| node in todo;
        todo := todo - {node};
        r := PollNode(node, fuel);
        if r.Err? { return; }
      }
      assert !stopped ==> todo == {};
      return Ok(());
    }

    /** Some ticket of the node's provider is still live. */
    predicate Busy(provider: string)
      reads root.kernel`state
    {
      exists id | id in root.kernel.state.tickets ::
        !root.kernel.state.tickets[id].quiescent && root.kernel.state.tickets[id].selection.provider == provider
    }

    /** A waiting node leaves the queue; it has not been started before. */
    method TakeNode(node: string, ghost request: V.Value)
      requires InTime() && NodesOk(pending.Keys) && !stopped && node in waiting && node in graph.predecessors
      requires Carried() && node in active
      requires request == if node in nodeRequests then nodeRequests[node] else payload
      requires forall p | p in graph.predecessors[node] :: p !in unsuccessful && p !in waiting && p !in pending
      modifies this`waiting, this`starts
      ensures NodesOk(pending.Keys + {node}) && waiting == old(waiting) - {node} && node !in pending
      ensures InTime() && Carried()
      ensures starts == old(starts) + [StartOf(graph.predecessors, active, marks, node, wave, request)]
      ensures node in graph.nodes && request == Asked(graph, payload, windows, begun, wave, node)
      ensures node !in marks.Started(pending.Keys)
    {
      hide WaveOk, LogOk, StartOk, RequestsOk, AtHand, Asked;
      OneMoreStart(graph.predecessors, active, waiting, pending.Keys, unsuccessful, marks, node, wave, request);
      ghost var s := StartOf(graph.predecessors, active, marks, node, wave, request);
      OneMoreRequest(graph, payload, starts, windows, begun, wave, active, nodeRequests, s);
      OneMoreInLog(starts, wave, Plan(graph.predecessors, active), s);
      starts := starts + [s];
      StartNode(graph.predecessors, active, waiting, pending.Keys, unsuccessful, marks, node);
      WaitingIsActive(graph.predecessors, active, waiting, pending.Keys, unsuccessful, marks, stopped, node);
      waiting := waiting - {node};
    }

    /** A waiting node is skipped, because a direct predecessor was unsuccessful. */
    method SkipOne(node: string)
      requires Valid() && node in waiting && node in graph.predecessors
      requires exists p :: p in graph.predecessors[node] && p in unsuccessful
      modifies this`waiting, this`unsuccessful, this`hadDomain, this`marks
      ensures Valid() && waiting == old(waiting) - {node} && unsuccessful == old(unsuccessful) + {node}
      ensures hadDomain == old(hadDomain)
      ensures marks == old(marks).(skipped := old(marks).skipped + {node})
    {
      hide Carried, StartedIn, LogOk, WaveOk, Base, TicketsOk;
      assert hadDomain;
      SkipNode(graph.predecessors, active, waiting, pending.Keys, unsuccessful, marks, stopped, node);
      marks := marks.(skipped := marks.skipped + {node});
      waiting := waiting - {node};
      unsuccessful := unsuccessful + {node};
      hadDomain := true;
    }

    lemma Facts(node: string)
      requires Valid()
      ensures graph.predecessors.Keys == graph.nodes.Keys
      ensures node in waiting ==> node in active && node in graph.predecessors
    {
      hide Carried, WaveOk, Compiled;
      WaitingIsActive(graph.predecessors, active, waiting, pending.Keys, unsuccessful, marks, stopped, node);
      NodesAreGraph(graph);
    }

    lemma SomeoneEarlier(i: nat, predecessors: set<string>)
      requires Valid() && i < |active| && active[i] in graph.predecessors
        && predecessors == graph.predecessors[active[i]]
      requires pending == map[] && exists p | p in predecessors :: p in waiting || p in pending
      ensures exists j :: 0 <= j < i && active[j] in waiting
    {
      hide Carried, WaveOk, InOrder;
      assert pending.Keys == {};
      WaitingIsListed(graph.predecessors, active, waiting, pending.Keys, unsuccessful, marks, stopped, i, predecessors);
    }

    lemma SomeoneListed(i: nat)
      requires Valid() && waiting != {}
      ensures i >= |active| ==> !NoneWaiting(active, i, waiting)
    {
      hide Carried, WaveOk;
      AllListed(graph.predecessors, active, waiting, pending.Keys, unsuccessful, marks, stopped);
    }

    lemma NobodyYet(nodes: seq<string>, names: set<string>)
      ensures NoneWaiting(nodes, 0, names)
    {
    }

    /** The kernel admits a call of the node with that request, for the node's owner and within the root's scope. */
    predicate AdmitsNode(node: string, request: V.Value)
      requires node in graph.nodes
      reads root.kernel`state
    {
      var compiled := graph.nodes[node];
      var input := ValueCodec.Encode(request);
      && P.OperationKey(compiled.selection.Key()) && input.Ok?
      && root.kernel.Admits(root.id, KernelModel.Graph(compiled.owner), compiled.selection, input.value,
           Some(root.scope))
    }

    /** The effect of a node's call. */
    function KindOf(node: string): EffectKind
      requires node in graph.nodes
    {
      Kernel.Kind(root.kernel.prepared, graph.nodes[node].selection, pendingAllowed)
    }

    /** Between the two worlds the call of the node was made, and took effect exactly if it was admitted. */
    ghost predicate Called(a: World, b: World, node: string, admitted: bool)
      requires node in graph.nodes
    {
      Kernel.Dispatched(a, b, admitted, KindOf(node), graph.nodes[node].owner, graph.nodes[node].selection, false)
    }

    /** The call of a started node, made for the node's owner with the node's own request. */
    method CallNode(node: string, request: V.Value, fuel: nat) returns (call: Result<Call, Failure>)
      requires Base() && node in graph.nodes && node !in pending
      requires TicketsOk(root.kernel.state.tickets, root.id, pending, draining)
      modifies root.kernel`state, root.kernel`handed, root.kernel`effects, root.kernel.cells
      ensures Base() && TicketsOk(root.kernel.state.tickets, root.id, pending, draining)
      ensures Called(old(root.kernel.Now()), root.kernel.Now(), node, old(AdmitsNode(node, request)))
      ensures !old(AdmitsNode(node, request)) ==> call.Err?
      ensures NothingReturns(old(root.kernel.state), root.kernel.state)
      ensures AllStay(old(root.kernel.state.tickets), root.kernel.state.tickets)
      ensures !pendingAllowed ==>
        root.kernel.state.tickets == old(root.kernel.state.tickets) && (call.Ok? ==> call.value.Done?)
      ensures call.Ok? && call.value.Waiting? ==>
        && call.value.ticket.id in root.kernel.state.tickets
           && old(root.kernel.state).nextTicket <= call.value.ticket.id
        && root.kernel.state.tickets[call.value.ticket.id].selection == graph.nodes[node].selection
        && TicketsOk(root.kernel.state.tickets, root.id, pending[node := call.value.ticket], draining)
        && (root.kernel.state.tickets[call.value.ticket.id].logical == Pending ==>
              !root.kernel.state.tickets[call.value.ticket.id].quiescent)
      ensures DeclaredIfDone(root.kernel.prepared, graph.nodes[node].selection, call)
    {
      hide Calm, RestTickets, WindowsOk, NamesOk, Compiled, InOrder, Ran, TicketsOk, Alone, CellsAdvance, Begun;
      hide P.EffectScope;
      hide AllStay, Kernel.Admits, Kernel.Recorded, Kernel.Kind, ValueCodec.Encode;
      hide BusyIn;
      ghost var a := root.kernel.Now();
      var compiled := graph.nodes[node];
      call := root.CallGraph(compiled.owner, compiled.selection, request, pendingAllowed, fuel);
      ghost var b := root.kernel.Now();
      NamesStay(a, b);
      WindowsStay(a, b, windows, start, stateCursor);
      TicketsSame(a.state.tickets, b.state.tickets, root.id, pending, draining);
      BusyStays(root.kernel.prepared, a, b);
      if call.Ok? && call.value.Waiting? {
        ghost var granted := P.EffectScope(root.kernel.prepared, [], compiled.owner, compiled.selection.provider,
                                           compiled.selection.Key(), Some(root.scope));
        BegunTicket(root.kernel.prepared, a, b, call.value.ticket, root.id, compiled.selection, granted, pending,
                    draining);
        AddPending(b.state.tickets, root.id, pending, draining, node, call.value.ticket);
        if b.state.tickets[call.value.ticket.id].logical == Pending {
          PendingIsLive(root.kernel.prepared, b, call.value.ticket.id);
        }
      }
    }

    /** What the call of a started node means for the node: it has come to an end, goes on, or is polled at once. */
    method SettleCall(node: string, call: Result<Call, Failure>, fuel: nat) returns (r: Result<(), Failure>)
      requires Base() && NodesOk(pending.Keys + {node}) && node !in pending && node in graph.nodes && DomainOk()
      requires TicketsOk(root.kernel.state.tickets, root.id, pending, draining)
      requires call.Ok? && call.value.Waiting? ==>
        && TicketsOk(root.kernel.state.tickets, root.id, pending[node := call.value.ticket], draining)
        && call.value.ticket.id in root.kernel.state.tickets
        && (root.kernel.state.tickets[call.value.ticket.id].logical == Pending ==>
              !root.kernel.state.tickets[call.value.ticket.id].quiescent)
      modifies this`pending, this`draining, this`hadDomain, this`unsuccessful, this`completed, this`failure
      modifies this`cancelled, this`stopped, this`marks
      modifies root.kernel`state, root.kernel`handed, root.kernel`effects, root.kernel.cells
      ensures Base() && NodesOk(pending.Keys) && DomainOk()
      ensures TicketsOk(root.kernel.state.tickets, root.id, pending, draining)
      ensures NothingReturns(old(root.kernel.state), root.kernel.state) && old(draining) <= draining
      ensures old(root.kernel.effects) <= root.kernel.effects
      ensures r.Ok? || root.kernel.Exhausted()
      ensures r.Ok? ==> marks.lost == old(marks).lost
      ensures node !in pending ==> pending == old(pending) && Settles(graph, node, old(At()), At())
      ensures !Pends(call) ==>
        && r == Ok(()) && node !in pending && draining == old(draining)
        && root.kernel.state == old(root.kernel.state) && root.kernel.Now() == old(root.kernel.Now())
        && Ends(node, EndOf(call))
      ensures call.Ok? && call.value.Waiting? ==>
        && OthersLive(old(root.kernel.state.tickets), root.kernel.state.tickets, call.value.ticket.id)
        && (r.Ok? ==> Accounted(root.kernel.state, pending, draining, node, call.value.ticket))
        && (node in pending ==>
              && r.Ok? && pending == old(pending)[node := call.value.ticket]
              && marks == old(marks) && completed == old(completed)
              && unsuccessful == old(unsuccessful) && stopped == old(stopped)
              && GoesOn(old(root.kernel.state.tickets), root.kernel.state.tickets, call.value.ticket.id))
    {
      hide StartedIn, LogOk, WaveOk, Base, TicketsOk, Accounted, NothingReturns, OthersLive, BusyIn, Marks.Started;
      hide Answers;
      NothingHappens(root.kernel.state);
      match call {
        case Ok(Done(outcome)) => FinishNode(node, Ok(outcome));
        case Ok(Waiting(ticket)) =>
          if root.kernel.state.tickets[ticket.id].logical != Pending {
            ghost var answer;
            r, answer := AcceptPoll(node, ticket, fuel);
            return;
          }
          NothingMoves(root.kernel.state, ticket, pending, draining, node);
          pending := pending[node := ticket];
          assert pending.Keys == old(pending).Keys + {node};
        case Err(f) => FinishNode(node, Err(f));
      }
      return Ok(());
    }

    /** The call of a node that has left the queue, and what comes of it. */
    method RunNode(node: string, request: V.Value, fuel: nat)
      returns (r: Result<(), Failure>, ghost call: Result<Call, Failure>)
      requires Base() && NodesOk(pending.Keys + {node}) && node !in pending && node in graph.nodes && DomainOk()
      requires TicketsOk(root.kernel.state.tickets, root.id, pending, draining)
      modifies this`pending, this`draining, this`hadDomain, this`unsuccessful, this`completed, this`failure
      modifies this`cancelled, this`stopped, this`marks
      modifies root.kernel`state, root.kernel`handed, root.kernel`effects, root.kernel.cells
      ensures Base() && NodesOk(pending.Keys) && DomainOk()
      ensures TicketsOk(root.kernel.state.tickets, root.id, pending, draining)
      ensures Calls(graph, node, old(At()), At())
      ensures Called(old(root.kernel.Now()), root.kernel.Now(), node, old(AdmitsNode(node, request)))
      ensures NothingReturns(old(root.kernel.state), root.kernel.state) && old(draining) <= draining
      ensures r.Ok? ==> marks.lost == old(marks).lost
      ensures r.Ok? || root.kernel.Exhausted()
      ensures r.Ok? && call.Ok? && call.value.Waiting? ==>
        Accounted(root.kernel.state, pending, draining, node, call.value.ticket)
      ensures node !in pending ==> pending == old(pending)
      ensures node in pending ==>
        && call.Ok? && call.value.Waiting? && pending == old(pending)[node := call.value.ticket]
        && marks == old(marks) && completed == old(completed)
        && call.value.ticket.id in root.kernel.state.tickets
        && root.kernel.state.tickets[call.value.ticket.id].logical == Pending
      ensures !Pends(call) ==> r == Ok(()) && node !in pending && Ends(node, EndOf(call))
      ensures DeclaredIfDone(root.kernel.prepared, graph.nodes[node].selection, call)
      ensures old(Idle()) ==> Idle() && !Pends(call)
    {
      hide StartedIn, LogOk, Compiled, TicketsOk, Base, NodesOk, Gone, DomainOk, NothingReturns, StartsOk;
      hide Declared, OthersLive, AllStay, BusyIn, Accounted, NothingLive;
      hide Kernel.Dispatched, Kernel.Kind, AdmitsNode, EndOf;
      ghost var w0, admitted := root.kernel.Now(), AdmitsNode(node, request);
      ghost var s0 := root.kernel.state;
      TreeHeld();
      var called := CallNode(node, request, fuel);
      ghost var s1 := root.kernel.state;
      ghost var w1 := root.kernel.Now();
      call := called;
      r := SettleCall(node, called, fuel);
      ReturnsTrans(s0, s1, root.kernel.state);
      StillDispatched(w0, w1, root.kernel.Now(), admitted, KindOf(node), graph.nodes[node].owner,
                      graph.nodes[node].selection);
      if called.Ok? && called.value.Waiting? {
        BusyOthers(root.kernel.prepared, s0, s1.tickets, root.kernel.state.tickets, called.value.ticket.id);
      } else {
        BusyAtOnce(s0.tickets, s1.tickets);
      }
    }

    /** The starts stay as good as they were while no node is lost, unless the scope numbers run out. */
    lemma StillInTime(before: State, lost: set<string>)
      requires InTimeWith(lost, before.nextScope >= MAX_U64) && before.nextScope <= root.kernel.state.nextScope
      requires marks.lost == lost || root.kernel.Exhausted()
      ensures InTime()
    {
      StartsStay(starts, lost, before.nextScope >= MAX_U64, marks.lost, root.kernel.Exhausted());
    }

    /** A waiting node whose turn it is starts, once. */
    method StartOne(node: string, fuel: nat) returns (r: Result<(), Failure>, ghost call: Result<Call, Failure>)
      requires Valid() && !terminal && !stopped && node in waiting && node in graph.predecessors
      requires forall p | p in graph.predecessors[node] :: p !in unsuccessful && p !in waiting && p !in pending
      modifies this`starts, this`waiting, this`pending, this`draining, this`hadDomain, this`unsuccessful, this`completed
      modifies this`failure, this`cancelled, this`stopped, this`marks
      modifies root.kernel`state, root.kernel`handed, root.kernel`effects, root.kernel.cells
      ensures Valid() && node in graph.nodes
      ensures Calls(graph, node, old(At()).(waiting := old(waiting) - {node}), At())
      ensures r.Ok? ==> marks.lost == old(marks).lost
      ensures var request := Asked(graph, payload, windows, begun, wave, node);
        && starts == old(starts) + [StartOf(graph.predecessors, active, old(marks), node, wave, request)]
        && Called(old(root.kernel.Now()), root.kernel.Now(), node, old(AdmitsNode(node, request)))
      ensures NothingReturns(old(root.kernel.state), root.kernel.state)
      ensures old(draining) <= draining && forall n | n in old(pending) :: n in pending && pending[n] == old(pending)[n]
      ensures r.Ok? && call.Ok? && call.value.Waiting? ==>
        Accounted(root.kernel.state, pending, draining, node, call.value.ticket)
      ensures node !in pending ==> pending == old(pending)
      ensures node in pending ==>
        && call.Ok? && call.value.Waiting? && pending == old(pending)[node := call.value.ticket]
        && marks == old(marks) && completed == old(completed)
        && call.value.ticket.id in root.kernel.state.tickets
        && root.kernel.state.tickets[call.value.ticket.id].logical == Pending
      ensures !Pends(call) ==> r == Ok(()) && node !in pending && Ends(node, EndOf(call))
      ensures DeclaredIfDone(root.kernel.prepared, graph.nodes[node].selection, call)
      ensures old(Idle()) ==> Idle() && r.Ok?
    {
      hide StartedIn, LogOk, Compiled, TicketsOk, Base, NodesOk, Gone, DomainOk, NothingReturns, StartOf, StartsOk;
      hide Carried;
      hide InTimeWith, RequestsOk, AtHand, Asked, AdmitsNode, Called, KindOf;
      hide Declared, DeclaredIfDone, BusyIn, Accounted, NothingLive, Calls, InOrder, WaveOk, EndOf;
      hide OthersLive, Alone, Withdrawn;
      Facts(node);
      var request := if node in nodeRequests then nodeRequests[node] else payload;
      TakeNode(node, request);
      ghost var s0, lost := root.kernel.state, marks.lost;
      r, call := RunNode(node, request, fuel);
      ScopesRise(s0, root.kernel.state);
      StillInTime(s0, lost);
    }

    /** Nodes wait, nothing is pending, and no ticket is live. */
    ghost predicate Ready()
      reads this, root.kernel`state
    {
      waiting != {} && pending == map[] && !stopped && NothingLive(root.kernel.state.tickets)
    }

    /** One turn of the scheduling loop, for the active node number `i`. */
    method TakeTurn(i: nat, fuel: nat) returns (r: Result<(), Failure>)
      requires Valid() && i < |active|
      modifies this`starts, this`waiting, this`pending, this`draining, this`hadDomain, this`unsuccessful, this`completed
      modifies this`failure, this`cancelled, this`stopped, this`marks
      modifies root.kernel`state, root.kernel`handed, root.kernel`effects, root.kernel.cells
      ensures Valid() && Turn(graph, active[i], old(At()), At())
      ensures r.Ok? ==> marks.lost == old(marks).lost
      ensures active[i] in graph.nodes
      ensures var request := Asked(graph, payload, windows, begun, wave, active[i]);
        || starts == old(starts)
        || (starts == old(starts) + [StartOf(graph.predecessors, active, old(marks), active[i], wave, request)]
            && Called(old(root.kernel.Now()), root.kernel.Now(), active[i], old(AdmitsNode(active[i], request))))
      ensures starts != old(starts) ==> !old(stopped) && active[i] in old(waiting)
      ensures NothingReturns(old(root.kernel.state), root.kernel.state)
      ensures old(draining) <= draining && forall n | n in old(pending) :: n in pending && pending[n] == old(pending)[n]
      ensures waiting <= old(waiting) && (old(stopped) ==> stopped)
      ensures waiting == old(waiting) ==>
        root.kernel.state == old(root.kernel.state) && pending == old(pending) && stopped == old(stopped)
      ensures old(Ready() && NoneWaiting(active, i, waiting)) ==> NoneWaiting(active, i + 1, waiting)
      ensures old(Idle() && !stopped && NoneWaiting(active, i, waiting)) ==> NoneWaiting(active, i + 1, waiting)
      ensures waiting == old(waiting) && old(Ready()) ==> Ready()
      ensures old(Idle()) ==> r.Ok?
      ensures old(Idle()) ==> Idle()
    {
      hide Carried, StartedIn, LogOk, WaveOk, Base, TicketsOk, NothingReturns, NothingLive, Settles, StartOf, StartsOk;
      hide NodesOk, DomainOk, Called, AdmitsNode, KindOf, Asked, InTime;
      var node := active[i];
      NodeHeld(i);
      NothingHappens(root.kernel.state);
      if stopped || node !in waiting { return Ok(()); }
      var predecessors := graph.predecessors[node];
      if p :| p in predecessors && p in unsuccessful {
        assert p in predecessors * unsuccessful;
        SkipOne(node);
        return Ok(());
      }
      if p :| p in predecessors && (p in waiting || p in pending) {
        assert p in predecessors * (waiting + pending.Keys);
        if pending == map[] { SomeoneEarlier(i, predecessors); }
        return Ok(());
      }
      if Busy(graph.nodes[node].Provider()) {
        NobodyBusy(root.kernel.state.tickets, graph.nodes[node].Provider());
        return Ok(());
      }
      CanStart(node);
      ghost var call;
      r, call := StartOne(node, fuel);
    }

    /** The scheduling loop of `pump`, over the active nodes in order. */
    method StartNodes(fuel: nat) returns (r: Result<(), Failure>, ghost stages: seq<Stage>)
      requires Valid()
      modifies this`starts, this`waiting, this`pending, this`draining, this`hadDomain, this`unsuccessful, this`completed
      modifies this`failure, this`cancelled, this`stopped, this`marks
      modifies root.kernel`state, root.kernel`handed, root.kernel`effects, root.kernel.cells
      ensures Valid() && waiting <= old(waiting)
      ensures Pass(graph, active, stages) && stages[0] == old(At()) && stages[|stages| - 1] == At()
      ensures r.Ok? ==> stopped || |stages| == |active| + 1
      ensures r.Ok? ==> marks.lost == old(marks).lost
      ensures old(starts) <= starts
      ensures NothingReturns(old(root.kernel.state), root.kernel.state)
      ensures old(draining) <= draining && forall n | n in old(pending) :: n in pending && pending[n] == old(pending)[n]
      ensures InActiveOrder(active, starts[|old(starts)|..], wave)
      ensures old(stopped) || old(waiting) == {} ==> starts == old(starts)
      ensures old(stopped) ==> stopped
      ensures r.Ok? && old(Ready()) ==> waiting < old(waiting)
      ensures old(Idle()) ==> r.Ok? && Idle() && (stopped || waiting == {})
      ensures old(Quiet()) ==> Quiet()
    {
      hide Valid, NothingLive, Gone, StartedUpTo, InActiveOrder, Turn, NothingReturns, Pass, At, Idle, NoneWaiting;
      hide InNameOrder, StartedIn, Planned, Called, AdmitsNode, Asked, KindOf, BusyIn;
      ghost var ready, idle := Ready(), Idle();
      NothingStarted(active, starts, wave);
      FirstStage(graph, active, At());
      NobodyYet(active, waiting);
      stages := [At()];
      r := Ok(());
      NothingHappens(root.kernel.state);
      var nodes := active;
      var i := 0;
      while i < |nodes|
        invariant 0 <= i <= |nodes| && r.Ok? && Valid() && waiting <= old(waiting) && nodes == active
        invariant Pass(graph, active, stages) && |stages| == i + 1 && stages[0] == old(At()) && stages[i] == At()
        invariant marks.lost == old(marks).lost
        invariant old(draining) <= draining && forall n | n in old(pending) ::
          n in pending && pending[n] == old(pending)[n]
        invariant old(starts) <= starts && StartedUpTo(nodes, starts, |old(starts)|, i, wave)
        invariant old(stopped) || old(waiting) == {} ==> starts == old(starts)
        invariant NothingReturns(old(root.kernel.state), root.kernel.state)
        invariant old(stopped) ==> stopped
        invariant ready ==>
          || waiting < old(waiting)
          || (waiting == old(waiting) && Ready() && NoneWaiting(nodes, i, waiting))
        invariant idle ==> r.Ok? && Idle() && (stopped || NoneWaiting(nodes, i, waiting))
      {
        if stopped { break; }
        ghost var before, s1 := starts, root.kernel.state;
        r := TakeTurn(i, fuel);
        ReturnsTrans(old(root.kernel.state), s1, root.kernel.state);
        OneMoreInOrder(nodes, before, starts, |old(starts)|, i, wave);
        OneMoreTurn(graph, active, stages, At());
        stages := stages + [At()];
        i := i + 1;
        if r.Err? { break; }
      }
      StartedInOrder(nodes, starts, |old(starts)|, i, wave);
      if r.Err? { return; }
      if waiting != {} { SomeoneListed(i); }
      if old(Quiet()) { QuietPass(old(starts)); }
      return Ok(()), stages;
    }

    lemma CanStart(node: string)
      requires Valid() && node in waiting
      ensures !terminal || stopped
    {
    }

    /** The execution is over. */
    method Conclude()
      requires Valid() && (stopped || (waiting == {} && pending == map[]))
      modifies this`terminal
      ensures Valid() && terminal
    {
      hide Base, NodesOk, DomainOk, InTime, Carried, TicketsOk;
      terminal := true;
    }

    /** The middle part of `pump`: the nodes move on, and a stopped graph gives up its pending calls. */
    method MoveNodes(fuel: nat) returns (r: Result<(), Failure>)
      requires Valid()
      modifies this`starts, this`waiting, this`pending, this`draining, this`hadDomain, this`unsuccessful
      modifies this`completed, this`failure
      modifies this`cancelled, this`stopped, this`marks, root.kernel`state, root.kernel`handed, root.kernel`effects
      modifies root.kernel.cells
      ensures Valid() && waiting <= old(waiting) && (old(stopped) ==> stopped)
      ensures old(starts) <= starts
      ensures NothingReturns(old(root.kernel.state), root.kernel.state) && old(draining) <= draining
      ensures r.Ok? ==> forall n | n in old(pending) ::
        Accounted(root.kernel.state, pending, draining, n, old(pending)[n])
      ensures r.Ok? && stopped ==> pending == map[]
      ensures r.Ok? ==> marks.lost == old(marks).lost
      ensures r.Ok? && !old(stopped) && old(waiting) != {} && old(NothingLive(root.kernel.state.tickets)) ==>
        stopped || waiting < old(waiting)
      ensures old(Quiet()) ==> Quiet()
    {
      hide Valid, NothingLive, Gone, InNameOrder, StartedIn, Pass, Planned, InActiveOrder, At, LetGo, SomeLive;
      hide BusyIn, Withdrawn, Called, AdmitsNode, Asked, StartOf, KindOf, AtRest;
      ghost var held := pending;
      ghost var s0, d0 := root.kernel.state, draining;
      if !stopped {
        r := PollPending(fuel);
        if r.Err? { return; }
        ghost var s1, p1, d1 := root.kernel.state, pending, draining;
        ghost var stages;
        r, stages := StartNodes(fuel);
        StillAccounted(held, s0, s1, p1, d1, root.kernel.state, pending, draining);
        if r.Err? { return; }
      }
      ghost var s2, p2, d2 := root.kernel.state, pending, draining;
      if stopped {
        ghost var done, failed;
        r, done, failed := CancelPending(fuel);
        if r.Err? { return; }
      }
      StillAccounted(held, s0, s2, p2, d2, root.kernel.state, pending, draining);
      return Ok(());
    }

    /** The last part of `pump`: a finished wave is followed by the next one, or the execution ends. */
    method EndTurn()
      requires Valid()
      modifies this`windows, this`stateCursor, this`active, this`waiting, this`unsuccessful, this`nodeRequests
      modifies this`marks, this`wave, this`begun
      modifies this`terminal
      ensures Valid() && old(windows) <= windows
      ensures terminal <==> old(terminal) || stopped || (waiting == {} && pending == map[])
      ensures terminal && !old(terminal) && !stopped ==>
        waiting == {} && pending == map[] && stateCursor == root.kernel.cells.epoch == |root.kernel.cells.history|
      ensures windows == old(windows) ==> marks == old(marks) && waiting == old(waiting)
      ensures old(Quiet()) ==> Quiet()
    {
      hide Valid, Active, StateTriggers, HookRequest, InNameOrder, StartedIn, NameOrder, Projected, NothingLive;
      if !terminal && !stopped && waiting == {} && pending == map[] {
        var admitted := AdmitStateWave();
      }
      if !terminal && (stopped || (waiting == {} && pending == map[])) { Conclude(); }
    }

    /** Every start carried its own request. Over all waves a node starts once, after every node that it comes after
        along a path inside its wave; these have succeeded unless they were lost. No node is lost while scope
        numbers last. */
    ghost predicate RunOk()
      reads this`starts, this`marks, this`windows, this`begun, this`wave, root, root.kernel`state
    {
      && RequestsOk(graph, payload, starts, windows, begun, wave)
      && (forall i, x | 0 <= i < |starts| && Depends(starts[i].plan, starts[i].node, x) :: Follows(starts, i, x))
      && (forall i | 0 <= i < |starts| ::
            && starts[i].node in starts[i].plan && starts[i].node !in StartedIn(starts[..i], starts[i].wave)
            && (starts[i].Timely() <==> starts[i].plan[starts[i].node] !! starts[i].lost))
      && (!root.kernel.Exhausted() ==> marks.lost == {} && forall i | 0 <= i < |starts| :: starts[i].lost == {})
    }

    lemma StartsInTime()
      requires Valid()
      ensures RunOk()
    {
      hide Base, NodesOk, DomainOk, TicketsOk, LogOk, Follows, Depends;
      RunKeepsPaths(starts, wave, Plan(graph.predecessors, active));
    }

    /** `pump`: one turn of the execution. */
    method Pump(fuel: nat) returns (r: Result<Status, Failure>)
      requires Valid()
      modifies this, root.kernel`state, root.kernel`handed, root.kernel`effects, root.kernel.cells
      ensures Valid()
      ensures old(terminal) ==> terminal
      ensures r.Ok? ==> (terminal <==> old(terminal) || stopped || (waiting == {} && pending == map[]))
      ensures old(windows) <= windows && old(starts) <= starts
      ensures r.Ok? && terminal && !old(terminal) && !stopped ==>
        && waiting == {} && pending == map[]
        && stateCursor == root.kernel.cells.epoch == |root.kernel.cells.history|
      ensures r.Ok? && terminal && !old(terminal) && stopped ==> pending == map[]
      ensures r.Ok? ==> (r.value.Running? <==> !terminal) && (r.value.Finished? <==> terminal && draining == [])
      ensures r.Ok? && !old(terminal) && !old(stopped) && old(waiting) != {}
              && old(NothingLive(root.kernel.state.tickets)) ==>
        stopped || waiting < old(waiting) || old(windows) < windows
      ensures NothingReturns(old(root.kernel.state), root.kernel.state)
      ensures r.Ok? ==> forall n | n in old(pending) ::
        Accounted(root.kernel.state, pending, draining, n, old(pending)[n])
      ensures r.Ok? ==> forall t | t in old(draining) :: t in draining || Gone(root.kernel.state, t.id)
      ensures r.Ok? && old(NothingLive(root.kernel.state.tickets)) ==>
        forall t | t in old(draining) :: Gone(root.kernel.state, t.id)
      ensures r.Ok? && windows == old(windows) ==> marks.lost == old(marks).lost
      ensures old(Quiet()) ==> Quiet()
    {
      hide Valid, NothingLive, Active, Gone, StateTriggers, HookRequest, Places, InOrder, InNameOrder, StartedIn;
      hide Planned;
      var drained := DrainLeases(fuel);
      if drained.Err? { return Err(drained.error); }
      ghost var held := pending;
      var moved := MoveNodes(fuel);
      if moved.Err? { return Err(moved.error); }
      assert forall n | n in held :: Accounted(root.kernel.state, pending, draining, n, held[n]);
      EndTurn();
      return Ok(if terminal then if draining == [] then Finished else Drains else Running);
    }

    /** Any number of pumps, whether they report failures or not. Over the whole run a node starts only after
        all the nodes that it comes after along paths inside its wave have succeeded, unless the scope numbers run
        out; what is lost then, and only that, lets a dependent start early. */
    method PumpRun(turns: nat, fuel: nat)
      requires Valid()
      modifies this, root.kernel`state, root.kernel`handed, root.kernel`effects, root.kernel.cells
      ensures Valid() && old(starts) <= starts && old(windows) <= windows && (old(terminal) ==> terminal)
      ensures RunOk()
      ensures old(Quiet()) ==> InNameOrder(starts)
    {
      hide Valid, Idle, InNameOrder, Planned;
      var i := 0;
      while i < turns
        invariant old(Quiet()) ==> Quiet()
        invariant Valid() && old(starts) <= starts && old(windows) <= windows && (old(terminal) ==> terminal)
      {
        i := i + 1;
        var turn := Pump(fuel);
      }
      StartsInTime();
    }
  }

  lemma StillDispatched(a: World, b: World, c: World, admitted: bool, kind: EffectKind, caller: string,
                        selection: P.Selection)
    requires Kernel.Dispatched(a, b, admitted, kind, caller, selection, false)
    requires b.effects <= c.effects && (!admitted ==> c == b)
    ensures Kernel.Dispatched(a, c, admitted, kind, caller, selection, false)
  {
  }

  lemma BegunTicket(p: P.Prepared, a: World, b: World, ticket: Ticket, root: nat, selection: P.Selection,
                    scope: Result<ScopedRequest, Failure>, pending: map<string, Ticket>, draining: seq<Ticket>)
    requires Begun(a, b, ticket, root, selection, "", scope) && Calm(p, a, {}) && a.state.stack == []
    requires TicketsOk(a.state.tickets, root, pending, draining)
    ensures Kept(b.state.tickets, root, ticket)
    ensures !b.state.tickets[ticket.id].delivered && !b.state.tickets[ticket.id].cancelled
    ensures b.state.tickets[ticket.id].selection == selection && a.state.nextTicket <= ticket.id
    ensures Alone(ticket.id, pending, draining)
  {
    NewIsAlone(p, a, root, pending, draining, ticket.id);
  }

  /** With nothing pending and every earlier node past waiting, no predecessor can be waiting. */
  lemma WaitingIsListed(g: Graph, active: seq<string>, waiting: set<string>, pending: set<string>,
                        unsuccessful: set<string>, m: Marks, stopped: bool, i: nat, predecessors: set<string>)
    requires WaveOk(g, active, waiting, pending, unsuccessful, m, stopped) && InOrder(g, active)
    requires i < |active| && active[i] in g && predecessors == g[active[i]]
    requires exists p | p in predecessors :: p in waiting || p in pending
    ensures pending == {} ==> exists j :: 0 <= j < i && active[j] in waiting
  {
    var p :| p in predecessors && (p in waiting || p in pending);
    WaitingIsActive(g, active, waiting, pending, unsuccessful, m, stopped, p);
    assert p in active[..i];
  }

  lemma NobodyBusy(T: Forest, provider: string)
    requires exists id | id in T :: !T[id].quiescent && T[id].selection.provider == provider
    ensures !NothingLive(T)
  {
  }

  lemma AllListed(g: Graph, active: seq<string>, waiting: set<string>, pending: set<string>,
                  unsuccessful: set<string>, m: Marks, stopped: bool)
    requires WaveOk(g, active, waiting, pending, unsuccessful, m, stopped)
    ensures (forall j | 0 <= j < |active| :: active[j] !in waiting) ==> waiting == {}
  {
    if waiting != {} {
      var n :| n in waiting;
      WaitingIsActive(g, active, waiting, pending, unsuccessful, m, stopped, n);
    }
  }

  ghost predicate NoneWaiting(nodes: seq<string>, i: nat, waiting: set<string>) {
    forall j | 0 <= j < i && j < |nodes| :: nodes[j] !in waiting
  }

  /** Leases that are accounted for stay so while none returns and those held are accounted for. */
  lemma StillAccounted(leases: map<string, Ticket>, s0: State, s1: State, p1: map<string, Ticket>, d1: seq<Ticket>,
                       s2: State, p2: map<string, Ticket>, d2: seq<Ticket>)
    requires NothingReturns(s0, s1) && NothingReturns(s1, s2) && d1 <= d2
    requires forall n | n in leases :: Accounted(s1, p1, d1, n, leases[n])
    requires forall n | n in p1 :: Accounted(s2, p2, d2, n, p1[n])
    ensures NothingReturns(s0, s2)
    ensures forall n | n in leases :: Accounted(s2, p2, d2, n, leases[n])
  {
  }

  predicate AnyDomain(steps: seq<GraphStep>) {
    exists i :: 0 <= i < |steps| && steps[i].outcome.Domain?
  }

  lemma OneMoreStep(steps: seq<GraphStep>, node: string, outcome: Outcome)
    ensures AnyDomain(steps + [GraphStep(node, outcome)]) == (outcome.Domain? || AnyDomain(steps))
  {
    var more := steps + [GraphStep(node, outcome)];
    assert more[|steps|] == GraphStep(node, outcome);
    forall i | 0 <= i < |steps| ensures more[i] == steps[i] {}
  }

  lemma NodesAreGraph(c: CompiledGraph)
    requires Compiled(c)
    ensures c.predecessors.Keys == c.nodes.Keys
  {
  }

  lemma QuietMeansQuiet(T: Forest, id: nat)
    requires id in T
    ensures NothingLive(T) ==> T[id].quiescent
  {
  }

  lemma FewerLive(T: Forest, U: Forest)
    requires forall id | id in U :: id in T && U[id] == T[id]
    ensures NothingLive(T) ==> NothingLive(U)
  {
  }

  lemma FirstOfRest(T: Forest, root: nat, pending: map<string, Ticket>, draining: seq<Ticket>, rest: seq<Ticket>)
    requires TicketsOk(T, root, pending, draining + rest) && rest != []
    ensures TicketsOk(T, root, pending, draining + rest[1..]) && Kept(T, root, rest[0])
    ensures Alone(rest[0].id, pending, draining + rest[1..])
  {
    var all, fewer := draining + rest, draining + rest[1..];
    var n := |draining|;
    assert all[n] == rest[0];
    forall i | 0 <= i < |fewer| ensures fewer[i] == all[if i < n then i else i + 1] {}
    forall i, j | 0 <= i < j < |fewer| ensures fewer[i].id != fewer[j].id {
      assert all[if i < n then i else i + 1].id != all[if j < n then j else j + 1].id;
    }
    forall i | 0 <= i < |fewer| ensures fewer[i].id != rest[0].id && Kept(T, root, fewer[i]) {
      if i < n { assert all[i].id != all[n].id; } else { assert all[n].id != all[i + 1].id; }
      assert Kept(T, root, all[if i < n then i else i + 1]);
    }
    forall k, i | k in pending && 0 <= i < |fewer| ensures pending[k].id != fewer[i].id {
      assert pending[k].id != all[if i < n then i else i + 1].id;
    }
    forall k | k in pending ensures pending[k].id != rest[0].id { assert pending[k].id != all[n].id; }
  }

  lemma WithoutRest(T: Forest, root: nat, pending: map<string, Ticket>, draining: seq<Ticket>, rest: seq<Ticket>)
    requires TicketsOk(T, root, pending, draining + rest)
    ensures TicketsOk(T, root, pending, draining)
  {
    var all := draining + rest;
    assert forall i | 0 <= i < |draining| :: draining[i] == all[i];
  }

  /** The nodes that committed changes activate, in order, and what each is told; neither the order nor
      the requests can fail. */
  method PrepareWave(graph: CompiledGraph, changed: set<string>, epoch: u64)
    returns (active: seq<string>, requests: map<string, V.Value>)
    requires Compiled(graph) && forall name | name in changed :: NodeKey(name)
    ensures Projected(graph.predecessors, Active(graph, StateTriggers(changed)), active)
    ensures InOrder(graph.predecessors, active) && forall n | n in active :: n in graph.predecessors && n in graph.nodes
    ensures forall n :: n in active <==> n in Active(graph, StateTriggers(changed))
    ensures requests == map n | n in Active(graph, StateTriggers(changed)) ::
      HookRequest(graph.nodes[n], changed, epoch)
  {
    hide Compiled, InOrder, HookRequest, Active, Topological, NameOrder;
    ActiveAreNodes(graph, StateTriggers(changed));
    var activation := StateActivation(graph, changed);
    active := activation.value;
    ProjectionInOrder(graph.predecessors, Active(graph, StateTriggers(changed)), active);
    forall n | n in active ensures Matching(graph.nodes[n].triggers, changed) != [] {
      HooksNeverFail(graph, changed, n);
    }
    var made := StateHookRequests(graph, active, changed, epoch);
    requests := made.value;
  }

  lemma NoTriggers(c: CompiledGraph)
    ensures Active(c, StateTriggers({})) == {}
  {
  }

  lemma ActiveAreNodes(c: CompiledGraph, triggers: set<string>)
    requires Compiled(c)
    ensures Active(c, triggers) <= c.predecessors.Keys && c.predecessors.Keys == c.nodes.Keys
  {
  }

  lemma CursorInRange(cells: map<C.Id, C.Cell>, history: seq<set<C.Id>>, windows: seq<Window>, start: nat, cursor: nat)
    requires WindowsOk(cells, history, windows, start, cursor)
    ensures cursor <= |history|
  {
  }

  lemma EmptyProjection(active: seq<string>, part: set<string>)
    requires active == [] && forall n :: n in active <==> n in part
    ensures part == {}
  {
  }

  lemma ChangedNames(cells: C.Cells, after: u64, changed: set<string>)
    requires cells.Valid()
    requires forall name :: name in changed <==>
      exists id :: id in cells.cells && cells.WatchedAs(id, name) && exists k | after <= k < |cells.history| ::
        id in cells.history[k]
    ensures forall name :: name in changed <==> ChangedIn(cells.cells, cells.history, after, |cells.history|, name)
  {
    forall name ensures name in changed <==> ChangedIn(cells.cells, cells.history, after, |cells.history|, name) {
      forall id | id in cells.cells
        ensures cells.WatchedAs(id, name) == Watches(cells.cells, id, name)
        ensures TouchedIn(cells.history, id, after, |cells.history|)
          <==> exists k | after <= k < |cells.history| :: id in cells.history[k]
      {
      }
    }
  }

  lemma WellNamed(cells: map<C.Id, C.Cell>, history: seq<set<C.Id>>, w: Window)
    requires WindowOk(cells, history, w) && NamesOk(cells)
    ensures forall name | name in w.changed :: NodeKey(name)
  {
    forall name | name in w.changed ensures NodeKey(name) {
      var id :| id in cells && Watches(cells, id, name) && TouchedIn(history, id, w.from, w.to);
    }
  }

  lemma AloneStays(p: P.Prepared, a: World, b: World, root: nat, id: nat, pending: map<string, Ticket>,
                   draining: seq<Ticket>)
    requires Step(p, a, b, id) && TicketsOk(a.state.tickets, root, pending, draining) && Alone(id, pending, draining)
    ensures TicketsOk(b.state.tickets, root, pending, draining)
  {
    TicketsStay(p, a, b, root, id, pending, draining);
  }

  lemma LaterQuiet(p: P.Prepared, a: World, b: World, id: nat)
    requires Calm(p, a, {}) && Step(p, a, b, id) && id in a.state.tickets && id in b.state.tickets
    ensures a.state.tickets[id].quiescent ==> b.state.tickets[id].quiescent
  {
    AllYounger(p, a.state.tickets, a.state.nextTicket);
  }

  // ----- admission of an action

  datatype Action = Action(event: string, payload: Schemas.ValueSchema, required: set<string>)

  /** The root's scope for an action: its requirements are root operations, and their resource grants
      bound what is delegated. */
  function ActionScope(p: P.Prepared, action: Action, scope: ScopedRequest): (r: Option<ScopedRequest>)
    ensures r.Some? <==>
      && (forall key | key in action.required ::
            key in p.authority.operations && key in scope.authority.operations && ("root", key) in p.grants)
      && (forall id | scope.resource == Some(id) ::
            && id in scope.authority.resources
            && forall key | key in action.required :: id in p.grants[("root", key)])
    ensures r.Some? ==>
      && r.value.resource == scope.resource && r.value.authority.operations == scope.authority.operations
      && forall id :: id in r.value.authority.resources <==>
           && id in scope.authority.resources
           && forall key | key in action.required :: id in p.grants[("root", key)]
  {
    if exists key | key in action.required ::
         key !in p.authority.operations || key !in scope.authority.operations || ("root", key) !in p.grants
    then None
    else
      var resources := set r | r in scope.authority.resources
                               && forall key | key in action.required ::
                                  ("root", key) in p.grants && r in p.grants[("root", key)];
      if scope.resource.Some? && scope.resource.value !in resources then None
      else Some(ScopedRequest(scope.authority.(resources := resources), scope.resource))
  }

  /** `begin_action_scoped`: the action's event selects the first wave, and the cursor starts at the
      epoch of admission. */
  method BeginAction(k: Kernel, graph: CompiledGraph, actions: map<string, Action>, name: string, payload: V.Value,
                     scope: ScopedRequest, pendingAllowed: bool)
    returns (r: Result<GraphExecution, Failure>)
    requires Between(k) && Compiled(graph) && NamesOk(k.cells.cells)
    modifies k`state, k`bound
    ensures r.Err? ==> Between(k) && (old(AtRest(k)) ==> AtRest(k)) && k.state == old(k.state)
    ensures r.Ok? ==> name in actions && ActionScope(k.prepared, actions[name], scope).Some?
    ensures r.Ok? <==>
      && name in actions && Schemas.Accepts(actions[name].payload, payload) && actions[name].event in graph.events
      && var narrowed := ActionScope(k.prepared, actions[name], scope);
         narrowed.Some? && old(Admissible(k, k.prepared.entry, narrowed.value))
    ensures name !in actions ==> r == Err(Failure(MissingBinding))
    ensures name in actions && !Schemas.Accepts(actions[name].payload, payload) ==> r == Err(Failure(SchemaRejected))
    ensures name in actions && Schemas.Accepts(actions[name].payload, payload) ==>
      && (ActionScope(k.prepared, actions[name], scope).None? ==> r == Err(Failure(Denied)))
      && (ActionScope(k.prepared, actions[name], scope).Some? && actions[name].event !in graph.events ==>
            r == Err(Failure(DescriptorInvalid)))
    ensures r.Ok? ==>
      && r.value.Valid() && r.value.root.kernel == k && !r.value.terminal && !r.value.stopped
      && r.value.waiting == Active(graph, {actions[name].event}) && r.value.stateCursor == |k.cells.history|
      && Some(r.value.root.scope) == ActionScope(k.prepared, actions[name], scope)
    ensures r.Ok? ==> Projected(graph.predecessors, r.value.waiting, r.value.active)
    ensures r.Ok? ==> r.value.starts == [] && (!pendingAllowed ==> r.value.Quiet())
    ensures r.Ok? ==> r.value.root.scope.authority.Within(scope.authority)
  {
    hide Calm, RestTickets, Active, Topological, Compiled, NamesOk, Admissible, NameOrder, Plan, ActionScope;
    hide InOrder, DropLaws, RestLaws, WaveOk, RequestsOk, AtHand, LogOk, StartsOk, TicketsOk, WindowsOk;
    if name !in actions { return Err(Failure(MissingBinding)); }
    var action := actions[name];
    if !Schemas.Accepts(action.payload, payload) { return Err(Failure(SchemaRejected)); }
    var narrowed := ActionScope(k.prepared, action, scope);
    if narrowed.None? { return Err(Failure(Denied)); }
    if action.event !in graph.events { return Err(Failure(DescriptorInvalid)); }
    var active := ProjectTriggers(graph, {action.event});
    ActiveAreNodes(graph, {action.event});
    ProjectionInOrder(graph.predecessors, Active(graph, {action.event}), active.value);
    var epoch := k.cells.epoch;
    var admitted := AdmitRoot(k, k.prepared.entry, narrowed.value);
    if admitted.Err? { return Err(admitted.error); }
    var execution := new GraphExecution(admitted.value, graph, payload, active.value, epoch, pendingAllowed);
    assert execution.waiting == Active(graph, {action.event});
    ProjectedIsPlanned(graph.predecessors, Active(graph, {action.event}), active.value);
    return Ok(execution);
  }
}
