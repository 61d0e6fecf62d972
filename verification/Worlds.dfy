/** The kernel's state as a value, the laws it obeys, and what an operation may do to it. */
module Worlds {
  import opened Wrappers
  import opened Contract
  import opened Bytes
  import opened Values
  import opened Prepared
  import opened Tickets
  import CellStore
  import StateRequests
  import Schemas

  /** `State` of runtime.rs, with the two identity counters that the kernel draws from. Its one map of tickets
      is kept in two parts: `orphans` holds the finished tickets that have outlived a parent, which only a
      drop that panicked leaves behind. No call can name them, and only the size of the map shows them. */
  datatype State = State(
    tickets: Forest, nextTicket: nat, stack: Stack, nextScope: nat,
    activeRoot: Option<nat>, rootLive: bool, nextRoot: nat, completedRoots: nat, stopped: bool, orphans: Forest)

  /** All that native calls may change: the state, what was handed out and effected, and the cells; and the
      scope of the root that was admitted last, which they may not change. */
  datatype World = World(
    state: State, handed: multiset<nat>, effects: seq<Effect>,
    cells: map<CellStore.Id, CellStore.Cell>, history: seq<set<CellStore.Id>>,
    cursors: map<nat, CellStore.Subscription>, bound: ScopedRequest)

  /** The laws of the kernel, except that derived flags may lag. `open` holds the tickets whose
      children are being cancelled further down the call chain. */
  ghost predicate Sane(p: Prepared, w: World, open: set<nat>) {
    && TreeOk(p, w.state.tickets, w.state.nextTicket)
    && Lifecycle(w.state.tickets, w.handed, w.state.nextTicket)
    && Providers(w.state.tickets)
    && Closed(w.state.tickets, open)
    && (forall id | id in w.state.tickets :: Some(w.state.tickets[id].root) == w.state.activeRoot)
    && StackOk(p, w.state.tickets, w.state.stack, w.state.activeRoot)
    && InBounds(w.bound, w.state.tickets, w.state.stack)
    && (forall i | 0 <= i < |w.effects| :: Lawful(p, w.effects[i]))
  }

  ghost predicate Calm(p: Prepared, w: World, open: set<nat>) {
    Sane(p, w, open) && Exact(w.state.tickets)
  }

  /** As `Calm`, but the derived flag of `id` may lag behind. */
  ghost predicate Lagging(p: Prepared, w: World, open: set<nat>, id: nat) {
    Sane(p, w, open) && ExactBut(w.state.tickets, id) && Sound(w.state.tickets)
  }

  ghost predicate CellsAdvance(a: World, b: World) {
    StateRequests.Advances(a.cells, a.history, b.cells, b.history)
  }

  /** Only the host abandons tickets, and only the host is ever handed the result of a ticket that stays. */
  ghost predicate Marks(a: World, b: World) {
    forall id | id in b.state.tickets ::
      && (id in a.state.tickets ==> b.state.tickets[id].abandoned == a.state.tickets[id].abandoned)
      && (id !in a.state.tickets ==> !b.state.tickets[id].abandoned)
      && (b.handed[id] > 0 && !b.state.tickets[id].delivered ==>
            id in a.state.tickets && a.handed[id] > 0 && !a.state.tickets[id].delivered)
  }

  lemma MarksTrans(p: Prepared, a: World, b: World, c: World)
    requires Marks(a, b) && Marks(b, c)
    requires TreeOk(p, a.state.tickets, a.state.nextTicket)
    requires Evolves(a.state.tickets, a.state.nextTicket, b.state.tickets, b.state.nextTicket)
    requires Evolves(b.state.tickets, b.state.nextTicket, c.state.tickets, c.state.nextTicket)
    ensures Marks(a, c)
  {
    AllYounger(p, a.state.tickets, a.state.nextTicket);
  }

  /** No ticket begins, no cell is committed, no cursor is opened or moved, and no protected effect takes place. */
  ghost predicate Frozen(a: World, b: World) {
    && b.state.nextTicket == a.state.nextTicket && b.cells == a.cells && b.history == a.history
    && b.effects == a.effects && b.bound == a.bound && Fewer(a.cursors, b.cursors)
  }

  predicate Fewer(a: map<nat, CellStore.Subscription>, b: map<nat, CellStore.Subscription>) {
    forall c | c in b :: c in a && b[c] == a[c]
  }

  /** The work of a revoked ticket `t` only winds down; a ticket vanishes only when some child below `t`
      can be consumed. */
  ghost predicate Winds(a: World, b: World, t: nat) {
    Frozen(a, b) && Spared(a.state.tickets, b.state.tickets, t)
  }

  /** Nobody stops working before its children are gone, and a scope number is spent only on ending work. */
  ghost predicate Devours(a: World, b: World) {
    && Consumed(a.state.tickets, b.state.tickets)
    && b.state.nextScope + |Working(b.state.tickets)| <= a.state.nextScope + |Working(a.state.tickets)|
  }

  /** Scope numbers and nesting suffice to end all work at and below ticket `id`. */
  ghost predicate Ample(s: State, fuel: int, id: nat) {
    0 <= fuel && s.nextScope + |Working(s.tickets)| + fuel <= MAX_U64 && s.nextTicket <= id + fuel
  }

  /** Every commit was preceded by a recorded effect of its own, and every effect is on behalf of the same root. */
  ghost predicate Logged(a: World, b: World) {
    && a.effects <= b.effects && |b.history| - |a.history| <= |b.effects| - |a.effects|
    && b.bound == a.bound && forall i | |a.effects| <= i < |b.effects| :: b.effects[i].bound == a.bound
  }

  /** What nested calls do: they return, and tickets, cells and effects only advance. */
  ghost predicate Ran(p: Prepared, a: World, b: World) {
    && b.state == a.state.(tickets := b.state.tickets, nextTicket := b.state.nextTicket, nextScope := b.state.nextScope)
    && a.state.nextScope <= b.state.nextScope
    && TreeOk(p, a.state.tickets, a.state.nextTicket) && TreeOk(p, b.state.tickets, b.state.nextTicket)
    && Evolves(a.state.tickets, a.state.nextTicket, b.state.tickets, b.state.nextTicket)
    && Marks(a, b)
    && CellsAdvance(a, b)
    && Logged(a, b)
  }

  /** `Ran`, and of the tickets only `t` and its descendants changed. */
  ghost predicate Step(p: Prepared, a: World, b: World, t: nat) {
    Ran(p, a, b) && Touches(a.state.tickets, b.state.tickets, t)
  }

  /** `Ran`, and only strict descendants of `t` changed. */
  ghost predicate StepBelow(p: Prepared, a: World, b: World, t: nat) {
    Ran(p, a, b) && Below(a.state.tickets, b.state.tickets, t)
  }

  /** The same call, by its frozen identity. */
  ghost predicate Kin(r: Record, s: Record) {
    && s.root == r.root && s.parent == r.parent && s.ancestors == r.ancestors && s.slot == r.slot
    && s.selection == r.selection && s.authority == r.authority && s.resource == r.resource
  }

  /** Neither cancelled nor delivered since, and a terminal status stands. */
  ghost predicate SameMarks(r: Record, s: Record) {
    && s.cancelled == r.cancelled && s.delivered == r.delivered && s.abandoned == r.abandoned
    && (r.logical != Pending ==> s.logical == r.logical)
    && (s.logical == Logical.Cancelled ==> r.logical == Logical.Cancelled)
  }

  /** What entering a ticket may do to its record. */
  ghost predicate Entered(r: Record, s: Record) { Kin(r, s) && SameMarks(r, s) }

  lemma EnteredSame(r: Record)
    ensures Entered(r, r)
  {
  }

  lemma EnteredTrans(r: Record, s: Record, t: Record)
    requires Entered(r, s) || SameButQuiet(r, s)
    requires Entered(s, t) || SameButQuiet(s, t)
    ensures Entered(r, t) && t.ancestors == r.ancestors && (r.Revoked() ==> t.Revoked())
  {
  }

  lemma EnteredFacts(r: Record, s: Record)
    requires Entered(r, s) || SameButQuiet(r, s)
    ensures Entered(r, s) && s.ancestors == r.ancestors && (r.Revoked() ==> s.Revoked())
    ensures s.parent == r.parent && s.selection == r.selection && s.root == r.root
  {
  }

  /** The top frame is that of `id` or of one of its ancestors, or the kernel rests. */
  ghost predicate OnPath(s: State, id: nat)
    requires id in s.tickets
  {
    s.stack != [] ==>
      && s.stack[|s.stack| - 1].ticket.Some?
      && (s.stack[|s.stack| - 1].ticket == Some(id) || s.stack[|s.stack| - 1].ticket.value in s.tickets[id].ancestors)
  }

  /** Ticket `id` is known and may be entered or cancelled from here. */
  ghost predicate Reachable(s: State, open: set<nat>, id: nat) {
    id in s.tickets && open <= s.tickets[id].ancestors && Enterable(s.tickets, s.stack, id)
  }

  /** ... and cancellation has already reached it if it has reached an ancestor. */
  ghost predicate MayEnter(s: State, open: set<nat>, id: nat) {
    && Reachable(s, open, id)
    && ChainOk(s.tickets, id)
    && (s.tickets[id].native ==> s.tickets[id].Revoked())
  }

  function PutTicket(w: World, id: nat, r: Record): World {
    w.(state := w.state.(tickets := w.state.tickets[id := r]))
  }

  // ----- composing steps

  lemma RanStays(p: Prepared, a: World)
    requires TreeOk(p, a.state.tickets, a.state.nextTicket)
    ensures Ran(p, a, a)
  {
    AllYounger(p, a.state.tickets, a.state.nextTicket);
  }

  lemma RanTrans(p: Prepared, a: World, b: World, c: World)
    requires Ran(p, a, b) && Ran(p, b, c)
    ensures Ran(p, a, c)
  {
    EvolvesTrans(p, a.state.tickets, a.state.nextTicket, b.state.tickets, b.state.nextTicket,
                 c.state.tickets, c.state.nextTicket);
    MarksTrans(p, a, b, c);
  }

  lemma WindsTrans(p: Prepared, a: World, b: World, c: World, t: nat)
    requires Ran(p, a, b) && Winds(a, b, t) && Winds(b, c, t)
    ensures Winds(a, c, t)
  {
    SparedTrans(p, a.state.tickets, a.state.nextTicket, b.state.tickets, c.state.tickets, t);
  }

  /** What winds down below a child winds down below its parent. */
  lemma WindsUp(p: Prepared, a: World, b: World, t: nat, c: nat)
    requires TreeOk(p, a.state.tickets, a.state.nextTicket) && Winds(a, b, c)
    requires c in a.state.tickets && t in a.state.tickets[c].ancestors
    ensures Winds(a, b, t)
  {
    SparedUp(p, a.state.tickets, a.state.nextTicket, b.state.tickets, t, c);
  }

  lemma SameKeysWind(a: World, b: World, t: nat)
    requires Frozen(a, b) && b.state.tickets.Keys == a.state.tickets.Keys
    ensures Winds(a, b, t)
  {
  }

  lemma DevoursTrans(p: Prepared, a: World, b: World, c: World)
    requires Ran(p, a, b) && Ran(p, b, c) && Devours(a, b) && Devours(b, c) && Frozen(b, c)
    ensures Devours(a, c)
  {
    ConsumedTrans(p, a.state.tickets, a.state.nextTicket, b.state.tickets, b.state.nextTicket, c.state.tickets);
  }

  /** Nobody's native work ended. */
  lemma SameWorkDevours(a: World, b: World)
    requires b.state.tickets.Keys == a.state.tickets.Keys && b.state.nextScope == a.state.nextScope
    requires forall id | id in a.state.tickets ::
      b.state.tickets[id].native == a.state.tickets[id].native
        && b.state.tickets[id].parent == a.state.tickets[id].parent
    ensures Devours(a, b)
  {
    assert Working(a.state.tickets) == Working(b.state.tickets);
  }

  lemma AmpleKept(a: World, b: World, fuel: int, id: nat)
    requires Ample(a.state, fuel, id) && Devours(a, b) && Frozen(a, b)
    ensures Ample(b.state, fuel, id)
  {
  }

  lemma AmpleBelow(s: State, fuel: int, id: nat, c: nat)
    requires Ample(s, fuel, id) && id <= c
    ensures Ample(s, fuel, c)
  {
  }

  /** Ticket `id` has ended its native work; nothing else has changed. */
  ghost predicate Retired(T: Forest, U: Forest, id: nat) {
    && U.Keys == T.Keys && id in T && U[id].native && U[id].parent == T[id].parent
    && forall x | x in T && x != id :: SameButQuiet(T[x], U[x])
  }

  lemma RetiredDevours(a: World, b: World, id: nat)
    requires Retired(a.state.tickets, b.state.tickets, id) && !a.state.tickets[id].native
    requires forall c | c in a.state.tickets :: a.state.tickets[c].parent != Some(id)
    requires b.state.nextScope == a.state.nextScope
    ensures Devours(a, b) && |Working(b.state.tickets)| == |Working(a.state.tickets)| - 1
  {
    var W, X := Working(a.state.tickets), Working(b.state.tickets);
    assert id in W && X == W - {id};
    forall c | c in a.state.tickets && a.state.tickets[c].parent.Some?
      && a.state.tickets[c].parent.value in a.state.tickets
               && !a.state.tickets[a.state.tickets[c].parent.value].native
      ensures a.state.tickets[c].parent.value in b.state.tickets
      ensures !b.state.tickets[a.state.tickets[c].parent.value].native
    {
      assert a.state.tickets[c].parent.value != id;
    }
  }

  /** A finished child has been released. */
  lemma ReleasedDevours(p: Prepared, a: World, b: World, id: nat)
    requires TreeOk(p, a.state.tickets, a.state.nextTicket)
    requires SameTree(Without(a.state.tickets, id), b.state.tickets) && b.state.nextScope == a.state.nextScope
    ensures Devours(a, b)
  {
    var T, U := a.state.tickets, b.state.tickets;
    assert Working(U) <= Working(T);
    Smaller(Working(U), Working(T));
    forall c | c in T && c in U && T[c].parent.Some? && T[c].parent.value in T && !T[T[c].parent.value].native
      ensures T[c].parent.value in U && !U[T[c].parent.value].native
    {
      assert Hangs(p, T, a.state.nextTicket, c);
    }
  }

  lemma {:induction false} Smaller(A: set<nat>, B: set<nat>)
    requires A <= B
    ensures |A| <= |B|
  {
    assert B == A + (B - A);
  }

  lemma StepRan(p: Prepared, a: World, b: World, t: nat)
    requires Step(p, a, b, t)
    ensures Ran(p, a, b) && a.state.nextScope <= b.state.nextScope
  {
  }

  /** After what came before, one child of `t` wound down. */
  lemma ChildWound(p: Prepared, a: World, b: World, c: World, open: set<nat>, t: nat, child: nat, devours: bool)
    requires StepBelow(p, a, b, t) && Step(p, b, c, child) && Winds(a, b, t) && Winds(b, c, child)
    requires child in b.state.tickets && t in b.state.tickets[child].ancestors
    requires devours ==> Devours(a, b) && Devours(b, c)
    ensures Winds(a, c, t) && (devours ==> Devours(a, c))
  {
    hide Spared, Devours, Touches, Below;
    WindsUp(p, b, c, t, child);
    WindsTrans(p, a, b, c, t);
    if devours { DevoursTrans(p, a, b, c); }
  }

  /** Refreshing the derived flags ends nobody's work. */
  lemma RefreshWinds(a: World, b: World, t: nat)
    requires SameTree(a.state.tickets, b.state.tickets) && b.state.nextScope == a.state.nextScope && Frozen(a, b)
    ensures Winds(a, b, t) && Devours(a, b)
  {
    SameKeysWind(a, b, t);
    SameWorkDevours(a, b);
  }

  /** One step at or below `t` after another. */
  lemma ThenStep(p: Prepared, a: World, b: World, c: World, t: nat)
    requires Step(p, a, b, t) && Step(p, b, c, t)
    ensures Step(p, a, c, t)
    ensures Winds(a, b, t) && Winds(b, c, t) ==> Winds(a, c, t)
    ensures Devours(a, b) && Devours(b, c) && Winds(b, c, t) ==> Devours(a, c)
    ensures DevoursOne(a, b) && Devours(b, c) && Winds(b, c, t) ==> DevoursOne(a, c)
  {
    hide Ran, Spared, Touches, Consumed;
    StepTrans(p, a, b, c, t);
    if Winds(a, b, t) && Winds(b, c, t) { WindsTrans(p, a, b, c, t); }
    if Devours(a, b) && Devours(b, c) && Winds(b, c, t) { DevoursTrans(p, a, b, c); }
    if DevoursOne(a, b) && Devours(b, c) && Winds(b, c, t) { DevoursTrans(p, a, b, c); }
  }

  lemma SameNative(r: Record, s: Record)
    requires SameButQuiet(r, s)
    ensures s.native == r.native
  {
  }

  lemma SameTwice(r: Record, s: Record, t: Record)
    requires SameButQuiet(r, s) && SameButQuiet(s, t)
    ensures SameButQuiet(r, t)
  {
  }

  lemma SettledRetires(T: Forest, id: nat, s: Record)
    requires id in T && s.native && s.parent == T[id].parent
    ensures Retired(T, T[id := s], id)
  {
  }

  /** A ticket that has ended its work above finished children is quiescent once the flags are fresh. */
  lemma QuietAgain(p: Prepared, a: World, b: World, open: set<nat>, id: nat)
    requires Calm(p, b, open) && SameTree(a.state.tickets, b.state.tickets)
    requires id in a.state.tickets && a.state.tickets[id].native
    requires forall c | c in a.state.tickets && a.state.tickets[c].parent == Some(id) :: a.state.tickets[c].quiescent
    requires forall c | c in a.state.tickets && a.state.tickets[c].quiescent :: b.state.tickets[c].quiescent
    ensures id in b.state.tickets && b.state.tickets[id].quiescent
  {
    assert b.state.tickets[id].quiescent == Quiet(b.state.tickets, id);
  }

  // ----- the frame of a ticket that devours

  /** As `Devours`, with one scope number to spare. */
  ghost predicate DevoursOne(a: World, b: World) {
    && Consumed(a.state.tickets, b.state.tickets)
    && b.state.nextScope + |Working(b.state.tickets)| < a.state.nextScope + |Working(a.state.tickets)|
  }

  lemma AmpleInside(w: World, f: Frame, fuel: nat, id: nat)
    requires Ample(w.state, fuel, id) && id in w.state.tickets && id < w.state.nextTicket
    requires !w.state.tickets[id].native
    ensures w.state.nextScope < MAX_U64 && Ample(Pushed(w, f).state, fuel - 1, id + 1)
  {
    assert id in Working(w.state.tickets);
  }

  lemma PoppedWinds(a: World, f: Frame, b: World, id: nat, devours: bool)
    requires devours ==> DevoursOne(Pushed(a, f), b)
    ensures var c := b.(state := b.state.(stack := a.state.stack));
      (Winds(Pushed(a, f), b, id) ==> Winds(a, c, id)) && (devours ==> Devours(a, c))
  {
  }

  /** The native code has consumed its children and ended. */
  lemma NativeDone(p: Prepared, a: World, b: World, c: World, fuel: nat, id: nat)
    requires Step(p, a, b, id) && Step(p, b, c, id)
    requires Ample(a.state, fuel - 1, id + 1) && Devours(a, b) && Frozen(a, b) && Frozen(b, c)
    requires forall x | x in b.state.tickets :: b.state.tickets[x].parent != Some(id)
    requires id in b.state.tickets && !b.state.tickets[id].native
    requires Retired(b.state.tickets, c.state.tickets, id) && c.state.nextScope == b.state.nextScope
    ensures DevoursOne(a, c) && Ample(c.state, fuel, id)
  {
    RetiredDevours(b, c, id);
    DevoursTrans(p, a, b, c);
  }

  /** The first `k` children are gone. */
  ghost predicate Eaten(T: Forest, children: seq<nat>, k: nat) {
    forall j | 0 <= j < |children| && j < k :: children[j] !in T
  }

  lemma NoneEaten(T: Forest, children: seq<nat>)
    ensures Eaten(T, children, 0)
  {
  }

  lemma OneMoreEaten(T: Forest, children: seq<nat>, k: nat)
    requires Eaten(T, children, k) && k < |children| && children[k] !in T
    ensures Eaten(T, children, k + 1)
  {
  }

  lemma SameParent(p: Prepared, a: World, b: World, id: nat, c: nat)
    requires TopEffect(p, a, b) && c in a.state.tickets && c in b.state.tickets
    ensures b.state.tickets[c].parent == a.state.tickets[c].parent
  {
    AllYounger(p, a.state.tickets, a.state.nextTicket);
  }

  /** One more child has been polled by the code of `id`. */
  lemma DevouredOne(p: Prepared, a: World, b: World, c: World, open: set<nat>, id: nat, children: seq<nat>, k: nat,
                    ample: bool)
    requires TopEffect(p, a, b) && TopEffect(p, b, c) && TopOk(b.state.tickets, b.state.stack, open)
    requires b.state.stack == a.state.stack != [] && b.state.stack[|b.state.stack| - 1].ticket == Some(id)
    requires id in a.state.tickets && id in b.state.tickets && b.state.tickets[id].cancelled && Frozen(a, b)
    requires ample ==> Devours(a, b) && Devours(b, c) && Eaten(b.state.tickets, children, k)
    requires k < |children| && forall x | x in children :: x in a.state.tickets
    ensures TopEffect(p, a, c) && TopOk(c.state.tickets, c.state.stack, open) && c.state.stack == a.state.stack
    ensures id in c.state.tickets && c.state.tickets[id].cancelled && Frozen(a, c)
    ensures ample ==> Devours(a, c) && Eaten(c.state.tickets, children, k)
  {
    TopEffectTrans(p, a, b, c);
    TopEffectKeepsTop(p, b, c, open);
    if ample {
      DevoursTrans(p, a, b, c);
      AllYounger(p, a.state.tickets, a.state.nextTicket);
      assert forall j | 0 <= j < |children| :: children[j] in children;
    }
  }

  lemma AllEaten(p: Prepared, a: World, b: World, id: nat, children: seq<nat>)
    requires TopEffect(p, a, b) && Frozen(a, b) && Eaten(b.state.tickets, children, |children|)
    requires forall c | c in a.state.tickets && a.state.tickets[c].parent == Some(id) :: c in children
    ensures forall c | c in b.state.tickets :: b.state.tickets[c].parent != Some(id)
  {
    forall c | c in b.state.tickets ensures b.state.tickets[c].parent != Some(id) {
      assert Hangs(p, b.state.tickets, b.state.nextTicket, c);
      assert Later(a.state.tickets[c], b.state.tickets[c]);
    }
  }

  lemma DevoursBoth(p: Prepared, a: World, b: World, c: World)
    requires TopEffect(p, a, b) && TopEffect(p, b, c) && Devours(a, b) && Devours(b, c) && Frozen(b, c)
    ensures Devours(a, c)
  {
    DevoursTrans(p, a, b, c);
  }

  /** A finished child has a result to be taken, or was cancelled without one. */
  lemma ChildHasResult(p: Prepared, w: World, open: set<nat>, c: nat)
    requires Calm(p, w, open) && c in w.state.tickets && w.state.tickets[c].quiescent && w.state.tickets[c].parent.Some?
    ensures w.state.tickets[c].result.Some? || w.state.tickets[c].logical == Logical.Cancelled
  {
    assert LifeOk(w.state.tickets, w.handed, c);
    assert w.state.tickets[c].quiescent == Quiet(w.state.tickets, c);
  }

  lemma RetiredRefreshed(T: Forest, U: Forest, V: Forest, id: nat)
    requires Retired(T, U, id) && SameTree(U, V)
    ensures Retired(T, V, id)
  {
  }

  lemma StepStays(p: Prepared, a: World, open: set<nat>, t: nat)
    requires Sane(p, a, open)
    ensures Step(p, a, a, t) && StepBelow(p, a, a, t)
  {
    RanStays(p, a);
  }

  lemma StepTrans(p: Prepared, a: World, b: World, c: World, t: nat)
    requires Step(p, a, b, t) && Step(p, b, c, t)
    ensures Step(p, a, c, t)
  {
    RanTrans(p, a, b, c);
    TouchesTrans(p, a.state.tickets, b.state.tickets, c.state.tickets,
                 a.state.nextTicket, b.state.nextTicket, c.state.nextTicket, t, t);
  }

  lemma StepBelowTrans(p: Prepared, a: World, b: World, c: World, t: nat, child: nat)
    requires StepBelow(p, a, b, t) && Step(p, b, c, child)
    requires child in b.state.tickets && t in b.state.tickets[child].ancestors
    ensures StepBelow(p, a, c, t)
  {
    RanTrans(p, a, b, c);
    BelowTrans(p, a.state.tickets, b.state.tickets, c.state.tickets,
               a.state.nextTicket, b.state.nextTicket, c.state.nextTicket, t, child);
  }

  lemma BelowThenBelow(p: Prepared, a: World, b: World, c: World, t: nat)
    requires StepBelow(p, a, b, t) && StepBelow(p, b, c, t)
    ensures StepBelow(p, a, c, t)
  {
    RanTrans(p, a, b, c);
    BelowTrans(p, a.state.tickets, b.state.tickets, c.state.tickets,
               a.state.nextTicket, b.state.nextTicket, c.state.nextTicket, t, t);
  }

  lemma BelowIsStep(p: Prepared, a: World, b: World, t: nat)
    requires StepBelow(p, a, b, t)
    ensures Step(p, a, b, t)
    ensures b.state.stack == a.state.stack
    ensures t in a.state.tickets ==>
      t in b.state.tickets && SameButQuiet(a.state.tickets[t], b.state.tickets[t])
  {
  }

  // ----- one record moves on

  lemma PutKeepsShape(p: Prepared, w: World, open: set<nat>, id: nat, r: Record)
    requires Sane(p, w, open) && id in w.state.tickets && Later(w.state.tickets[id], r)
    requires r.abandoned == w.state.tickets[id].abandoned && Typed(p, r)
    ensures var T := w.state.tickets[id := r];
      && TreeOk(p, T, w.state.nextTicket) && Providers(T) && StackOk(p, T, w.state.stack, w.state.activeRoot)
      && InBounds(w.bound, T, w.state.stack)
    ensures Step(p, w, PutTicket(w, id, r), id)
    ensures var T := w.state.tickets[id := r]; forall x | x in T :: Some(T[x].root) == w.state.activeRoot
  {
    hide Lifecycle, Closed, Lawful, StackOk, TreeOk, Hangs, Typed;
    var T := w.state.tickets[id := r];
    PutTyped(p, w.state.tickets, w.state.nextTicket, id, r);
    assert Forward(w.state.tickets, T);
    ForwardTree(p, w.state.tickets, w.state.nextTicket, T);
    ForwardStack(p, w.state.tickets, w.state.stack, w.state.activeRoot, T);
  }

  /** `cancel_ticket` marks a live ticket; its children are to follow. */
  lemma MarkStep(p: Prepared, w: World, open: set<nat>, id: nat)
    requires Calm(p, w, open) && id in w.state.tickets && !w.state.tickets[id].quiescent
    ensures var w' := PutTicket(w, id, CancelledRecord(w.state.tickets[id]));
      Calm(p, w', open + {id}) && Lagging(p, w', open + {id}, id) && Step(p, w, w', id)
  {
    hide InBounds;
    var r := CancelledRecord(w.state.tickets[id]);
    MarkKeeps(p, w.state.tickets, w.state.nextTicket, w.handed, open, id);
    TypedFacts(p, w.state.tickets, w.state.nextTicket, id);
    PutKeepsShape(p, w, open, id, r);
    ExactIsSound(w.state.tickets[id := r], id);
  }

  /** A settled reply: until the flags are refreshed and the children of a failed ticket cancelled. */
  lemma SettleStep(p: Prepared, w: World, open: set<nat>, id: nat, s: Record)
    requires Calm(p, w, open) && id in w.state.tickets && !w.state.tickets[id].native
    requires Later(w.state.tickets[id], s) && s.cancelled == w.state.tickets[id].cancelled
    requires s.delivered == w.state.tickets[id].delivered && s.quiescent == w.state.tickets[id].quiescent
    requires s.abandoned == w.state.tickets[id].abandoned && Typed(p, s)
    requires s.logical == Pending ==> !s.native
    requires w.state.tickets[id].logical != Pending ==> s.result == w.state.tickets[id].result
    requires w.state.tickets[id].logical == Pending ==>
      || (s.logical == Pending && s.result == None)
      || (s.logical == Ready && s.result.Some? && s.result.value.Ok? && s.native
          && forall c | c in w.state.tickets && w.state.tickets[c].parent == Some(id) :: w.state.tickets[c].quiescent)
      || (s.logical == Failed && s.result.Some? && s.result.value.Err?)
    ensures Lagging(p, PutTicket(w, id, s), open + {id}, id) && Step(p, w, PutTicket(w, id, s), id)
    ensures w.state.tickets[id].Revoked() || !s.Revoked() ==> Lagging(p, PutTicket(w, id, s), open, id)
  {
    hide InBounds, StackOk, Providers, TreeOk;
    var T, U := w.state.tickets, w.state.tickets[id := s];
    PutKeepsShape(p, w, open, id, s);
    if s.logical == Ready && T[id].logical == Pending {
      assert forall c | c in U && U[c].parent == Some(id) ::
        T[c].parent == Some(id) && U[c].quiescent == T[c].quiescent;
      assert Quiet(U, id);
    }
    SettleKeeps(p, T, w.state.nextTicket, w.handed, open, id, s);
  }

  /** Refreshed flags. */
  lemma RefreshWorld(p: Prepared, w: World, open: set<nat>, T: Forest, t: nat)
    requires Sane(p, w, open) && SameTree(w.state.tickets, T) && Exact(T)
    requires forall id | id in T && w.state.tickets[id].quiescent :: T[id].quiescent
    ensures Calm(p, w.(state := w.state.(tickets := T)), open)
    ensures Step(p, w, w.(state := w.state.(tickets := T)), t)
  {
    hide StackOk, Providers, Closed, Hangs;
    assert Forward(w.state.tickets, T);
    TreeTyped(p, w.state.tickets, T, w.state.nextTicket);
    ForwardTree(p, w.state.tickets, w.state.nextTicket, T);
    ForwardStack(p, w.state.tickets, w.state.stack, w.state.activeRoot, T);
    FlagsKeepLife(w.state.tickets, w.state.nextTicket, w.handed, open, T);
    forall x | x in T ensures Some(T[x].root) == w.state.activeRoot {
      assert SameButQuiet(w.state.tickets[x], T[x]);
    }
  }

  // ----- children

  lemma CalmIsLagging(p: Prepared, w: World, open: set<nat>, id: nat)
    requires Calm(p, w, open)
    ensures Lagging(p, w, open, id) && Exact(w.state.tickets) && Sane(p, w, open)
  {
    ExactIsSound(w.state.tickets, id);
  }

  /** A live child: the flags are exact, and it can be cancelled. */
  lemma ChildToCancel(p: Prepared, w: World, open: set<nat>, id: nat, c: nat)
    requires Lagging(p, w, open + {id}, id) && id in w.state.tickets && open <= w.state.tickets[id].ancestors
    requires c in w.state.tickets && w.state.tickets[c].parent == Some(id) && !w.state.tickets[c].quiescent
    requires OnPath(w.state, id)
    ensures Calm(p, w, open + {id}) && Reachable(w.state, open + {id}, c)
    ensures id < c < w.state.nextTicket && id in w.state.tickets[c].ancestors
  {
    LiveChildExact(w.state.tickets, id, c);
    assert Hangs(p, w.state.tickets, w.state.nextTicket, c);
  }

  /** A live child of a revoked ticket has been cancelled and can be polled. */
  lemma ChildToDrain(p: Prepared, w: World, open: set<nat>, id: nat, c: nat)
    requires Calm(p, w, open) && id in w.state.tickets && open <= w.state.tickets[id].ancestors
    requires w.state.tickets[id].Revoked() && OnPath(w.state, id)
    requires c in w.state.tickets && w.state.tickets[c].parent == Some(id) && !w.state.tickets[c].quiescent
    ensures MayEnter(w.state, open, c) && w.state.tickets[c].Revoked()
    ensures id < c < w.state.nextTicket && id in w.state.tickets[c].ancestors
  {
    assert Hangs(p, w.state.tickets, w.state.nextTicket, c);
    assert Hangs(p, w.state.tickets, w.state.nextTicket, id);
  }

  /** All the collected children of `id` are still there. */
  ghost predicate Present(T: Forest, id: nat, children: seq<nat>) {
    forall j | 0 <= j < |children| :: children[j] in T && T[children[j]].parent == Some(id)
  }

  /** The first `k` children have been cancelled, or have finished. */
  ghost predicate Handled(T: Forest, children: seq<nat>, k: nat) {
    forall j | 0 <= j < |children| && j < k && children[j] in T ::
      T[children[j]].cancelled || T[children[j]].quiescent
  }

  lemma OneMoreHandled(T: Forest, id: nat, children: seq<nat>, k: nat)
    requires Handled(T, children, k) && Present(T, id, children) && k < |children|
    requires T[children[k]].cancelled || T[children[k]].quiescent
    ensures Handled(T, children, k + 1)
  {
  }

  /** The other children are untouched by what happens to one of them. */
  lemma SiblingsStay(p: Prepared, a: World, b: World, id: nat, children: seq<nat>, k: nat)
    requires k < |children| && Step(p, a, b, children[k]) && children[k] in b.state.tickets
    requires Present(a.state.tickets, id, children)
    ensures Present(b.state.tickets, id, children)
    ensures Handled(a.state.tickets, children, k) ==> Handled(b.state.tickets, children, k)
  {
    forall j | 0 <= j < |children|
      ensures children[j] in b.state.tickets && b.state.tickets[children[j]].parent == Some(id)
      ensures a.state.tickets[children[j]].cancelled || a.state.tickets[children[j]].quiescent
        ==> b.state.tickets[children[j]].cancelled || b.state.tickets[children[j]].quiescent
    {
      var d := children[j];
      assert Hangs(p, a.state.tickets, a.state.nextTicket, d);
      if d != children[k] { SiblingsApart(p, a.state.tickets, a.state.nextTicket, id, children[k], d); }
      assert Later(a.state.tickets[d], b.state.tickets[d]);
    }
  }

  /** One more child has been cancelled: `id` itself and the other children stay as they are. */
  lemma ChildCancelled(p: Prepared, a: World, b: World, c: World, open: set<nat>, id: nat, children: seq<nat>, k: nat)
    requires StepBelow(p, a, b, id) && k < |children| && Step(p, b, c, children[k]) && Calm(p, c, open + {id})
    requires children[k] in b.state.tickets && id in b.state.tickets[children[k]].ancestors
      && children[k] in c.state.tickets
    requires id in a.state.tickets && Present(b.state.tickets, id, children) && Handled(b.state.tickets, children, k)
    ensures StepBelow(p, a, c, id) && Lagging(p, c, open + {id}, id) && Exact(c.state.tickets)
    requires OnPath(a.state, id)
    ensures id in c.state.tickets && SameButQuiet(a.state.tickets[id], c.state.tickets[id])
    ensures c.state.tickets[id].ancestors == a.state.tickets[id].ancestors && OnPath(c.state, id)
    ensures Present(c.state.tickets, id, children) && Handled(c.state.tickets, children, k)
  {
    hide Sane, Ran, Present, Handled, Sound, ExactBut;
    StepBelowTrans(p, a, b, c, id, children[k]);
    BelowIsStep(p, a, c, id);
    CalmIsLagging(p, c, open + {id}, id);
    SiblingsStay(p, b, c, id, children, k);
  }

  /** All children having been handled, `id` need not be `open` any more. */
  lemma ChildrenDone(p: Prepared, a: World, b: World, open: set<nat>, id: nat, children: seq<nat>)
    requires StepBelow(p, a, b, id) && b.state.nextTicket == a.state.nextTicket && Lagging(p, b, open + {id}, id)
    requires forall c | c in a.state.tickets && a.state.tickets[c].parent == Some(id) :: c in children
    requires Present(b.state.tickets, id, children) && Handled(b.state.tickets, children, |children|)
    ensures Lagging(p, b, open, id)
  {
    var T := b.state.tickets;
    forall c | c in T && T[c].parent == Some(id) ensures c in children {
      assert Hangs(p, T, b.state.nextTicket, c);
      assert Later(a.state.tickets[c], T[c]);
    }
    assert Closed(T, open);
  }

  /** The first `k` children have finished. */
  ghost predicate Finished(T: Forest, children: seq<nat>, k: nat) {
    forall j | 0 <= j < |children| && j < k && children[j] in T :: T[children[j]].quiescent
  }

  lemma OneMoreFinished(T: Forest, id: nat, children: seq<nat>, k: nat)
    requires Finished(T, children, k) && Present(T, id, children) && k < |children|
    requires T[children[k]].quiescent
    ensures Finished(T, children, k + 1)
  {
  }

  lemma SiblingsFinished(p: Prepared, a: World, b: World, id: nat, children: seq<nat>, k: nat)
    requires k < |children| && Step(p, a, b, children[k]) && Present(a.state.tickets, id, children)
    ensures Finished(a.state.tickets, children, k) ==> Finished(b.state.tickets, children, k)
  {
    if Finished(a.state.tickets, children, k) {
      forall j | 0 <= j < |children| && j < k && children[j] in b.state.tickets
        ensures b.state.tickets[children[j]].quiescent
      {
        assert Hangs(p, a.state.tickets, a.state.nextTicket, children[j]);
        assert Later(a.state.tickets[children[j]], b.state.tickets[children[j]]);
      }
    }
  }

  lemma AllFinished(p: Prepared, a: World, b: World, id: nat, children: seq<nat>)
    requires StepBelow(p, a, b, id) && Frozen(a, b)
    requires forall c | c in a.state.tickets && a.state.tickets[c].parent == Some(id) :: c in children
    requires Finished(b.state.tickets, children, |children|)
    ensures forall c | c in b.state.tickets && b.state.tickets[c].parent == Some(id) :: b.state.tickets[c].quiescent
  {
    forall c | c in b.state.tickets && b.state.tickets[c].parent == Some(id) ensures b.state.tickets[c].quiescent {
      assert Hangs(p, b.state.tickets, b.state.nextTicket, c);
      assert Later(a.state.tickets[c], b.state.tickets[c]);
      assert c in children;
    }
  }

  /** The first `k` children of a revoked ticket have been polled since `a`. Code that devours has finished
      them; without scope numbers nothing has happened, and they had finished before. */
  ghost predicate Draining(p: Prepared, a: World, b: World, id: nat, children: seq<nat>, k: nat, devours: bool) {
    && StepBelow(p, a, b, id) && Winds(a, b, id) && b.state.stack == a.state.stack
    && id in a.state.tickets && id in b.state.tickets && SameButQuiet(a.state.tickets[id], b.state.tickets[id])
    && Present(b.state.tickets, id, children)
    && (devours ==> Devours(a, b) && Finished(b.state.tickets, children, k))
    && (a.state.nextScope >= MAX_U64 ==> b == a && Finished(b.state.tickets, children, k))
  }

  lemma DrainStarts(p: Prepared, a: World, open: set<nat>, id: nat, children: seq<nat>, devours: bool)
    requires Sane(p, a, open) && id in a.state.tickets
    requires forall c :: c in children <==> c in a.state.tickets && a.state.tickets[c].parent == Some(id)
    ensures Draining(p, a, a, id, children, 0, devours)
  {
    hide Sane, Present, Finished;
    StepStays(p, a, open, id);
    SameKeysWind(a, a, id);
    SameWorkDevours(a, a);
    ChildrenPresent(a.state.tickets, id, children);
  }

  lemma DrainNext(p: Prepared, a: World, b: World, id: nat, children: seq<nat>, k: nat, devours: bool)
    requires Draining(p, a, b, id, children, k, devours) && k < |children|
    ensures id in b.state.tickets && id in a.state.tickets && SameButQuiet(a.state.tickets[id], b.state.tickets[id])
    ensures children[k] in b.state.tickets && b.state.tickets[children[k]].parent == Some(id)
    ensures b.state.stack == a.state.stack && b.state.nextTicket == a.state.nextTicket
  {
    PresentChild(b.state.tickets, id, children, k);
  }

  lemma DrainSkips(p: Prepared, a: World, b: World, id: nat, children: seq<nat>, k: nat, devours: bool)
    requires Draining(p, a, b, id, children, k, devours) && k < |children|
    requires children[k] in b.state.tickets && b.state.tickets[children[k]].quiescent
    ensures Draining(p, a, b, id, children, k + 1, devours)
  {
    hide StepBelow, Devours, Spared, Present;
  }

  lemma DrainAmple(p: Prepared, a: World, b: World, id: nat, children: seq<nat>, k: nat, fuel: nat)
    requires Draining(p, a, b, id, children, k, true) && Ample(a.state, fuel, id)
    ensures Ample(b.state, fuel, id)
  {
    AmpleKept(a, b, fuel, id);
  }

  lemma DrainStep(p: Prepared, a: World, b: World, c: World, open: set<nat>, id: nat, children: seq<nat>, k: nat,
                  devours: bool)
    requires Draining(p, a, b, id, children, k, devours) && k < |children|
    requires Calm(p, b, open) && children[k] in b.state.tickets && id in b.state.tickets[children[k]].ancestors
    requires Step(p, b, c, children[k]) && Winds(b, c, children[k]) && c.state.stack == b.state.stack
    requires devours ==> Devours(b, c)
    ensures StepBelow(p, a, c, id) && Winds(a, c, id) && c.state.stack == a.state.stack
    ensures devours ==> Devours(a, c)
  {
    hide Step, StepBelow, Devours, Spared, Present, Finished, Calm;
    ChildWound(p, a, b, c, open, id, children[k], devours);
    StepBelowTrans(p, a, b, c, id, children[k]);
  }

  lemma DrainedChild(p: Prepared, a: World, b: World, c: World, open: set<nat>, id: nat, children: seq<nat>, k: nat,
                     devours: bool)
    requires Draining(p, a, b, id, children, k, devours) && k < |children|
    requires StepBelow(p, a, c, id) && Winds(a, c, id) && c.state.stack == a.state.stack
    requires Step(p, b, c, children[k]) && children[k] in c.state.tickets
    requires devours ==> Devours(a, c) && c.state.tickets[children[k]].quiescent
    requires b.state.nextScope < MAX_U64
    ensures Draining(p, a, c, id, children, k + 1, devours)
  {
    hide Step, StepBelow, Devours, Spared, Present, Finished;
    BelowIsStep(p, a, c, id);
    SiblingsStay(p, b, c, id, children, k);
    SiblingsFinished(p, b, c, id, children, k);
    if devours { OneMoreFinished(c.state.tickets, id, children, k); }
  }

  lemma DrainEnds(p: Prepared, a: World, b: World, id: nat, children: seq<nat>, devours: bool)
    requires Draining(p, a, b, id, children, |children|, devours)
    requires forall c | c in a.state.tickets && a.state.tickets[c].parent == Some(id) :: c in children
    ensures StepBelow(p, a, b, id) && Winds(a, b, id) && b.state.stack == a.state.stack
    ensures devours ==> Devours(a, b)
    ensures devours || a.state.nextScope >= MAX_U64 ==>
      forall c | c in b.state.tickets && b.state.tickets[c].parent == Some(id) :: b.state.tickets[c].quiescent
    ensures a.state.nextScope >= MAX_U64 ==> b == a
  {
    hide StepBelow, Devours, Spared, Present, Finished;
    if devours || a.state.nextScope >= MAX_U64 { AllFinished(p, a, b, id, children); }
  }

  lemma ChildrenPresent(T: Forest, id: nat, children: seq<nat>)
    requires forall c :: c in children <==> c in T && T[c].parent == Some(id)
    ensures Present(T, id, children) && Handled(T, children, 0) && Finished(T, children, 0)
  {
    assert forall j | 0 <= j < |children| :: children[j] in children;
  }

  lemma PresentChild(T: Forest, id: nat, children: seq<nat>, k: nat)
    requires Present(T, id, children) && k < |children|
    ensures children[k] in T && T[children[k]].parent == Some(id)
  {
  }

  // ----- facts about one ticket

  lemma TicketFacts(p: Prepared, w: World, open: set<nat>, id: nat)
    requires Sane(p, w, open) && id in w.state.tickets
    ensures p.Operation(w.state.tickets[id].selection).Ok? && id < w.state.nextTicket
    ensures Some(w.state.tickets[id].root) == w.state.activeRoot
    ensures w.state.tickets[id].logical == Pending ==> !w.state.tickets[id].native && !w.state.tickets[id].cancelled
    ensures w.state.tickets[id].logical == Logical.Cancelled ==> w.state.tickets[id].cancelled
  {
    assert Hangs(p, w.state.tickets, w.state.nextTicket, id);
    assert LifeOk(w.state.tickets, w.handed, id);
  }

  /** A ticket whose native work goes on is not quiescent; it is pending, or revoked. */
  lemma TypedTicket(p: Prepared, w: World, open: set<nat>, id: nat)
    requires Calm(p, w, open) && id in w.state.tickets
    ensures Typed(p, w.state.tickets[id])
  {
    TypedFacts(p, w.state.tickets, w.state.nextTicket, id);
  }

  /** A stored outcome is declared by the operation of its call. */
  lemma TypedOutcome(p: Prepared, w: World, open: set<nat>, id: nat, outcome: Outcome)
    requires Calm(p, w, open) && id in w.state.tickets && w.state.tickets[id].result == Some(Ok(outcome))
    ensures Declared(p, w.state.tickets[id].selection, outcome)
  {
    TypedTicket(p, w, open, id);
  }

  lemma StillWorking(p: Prepared, w: World, open: set<nat>, id: nat)
    requires Calm(p, w, open) && id in w.state.tickets && !w.state.tickets[id].native
    ensures !w.state.tickets[id].quiescent
    ensures w.state.tickets[id].logical == Pending <==> !w.state.tickets[id].Revoked()
    ensures w.state.tickets[id].logical in {Pending, Logical.Cancelled, Failed}
  {
    assert LifeOk(w.state.tickets, w.handed, id);
    assert w.state.tickets[id].quiescent == Quiet(w.state.tickets, id);
  }

  /** A live ticket whose own native work has ended is revoked: it waits for its children. */
  lemma LiveFacts(p: Prepared, w: World, open: set<nat>, id: nat)
    requires Calm(p, w, open) && id in w.state.tickets && !w.state.tickets[id].quiescent
    ensures w.state.tickets[id].native ==> w.state.tickets[id].Revoked()
    ensures w.state.tickets[id].logical != Ready
  {
    assert LifeOk(w.state.tickets, w.handed, id);
    assert w.state.tickets[id].quiescent == Quiet(w.state.tickets, id);
  }

  /** A live ticket whose own work has ended has a live child. */
  lemma LiveAboveLive(p: Prepared, w: World, open: set<nat>, id: nat)
    requires Calm(p, w, open) && id in w.state.tickets && w.state.tickets[id].native
    ensures !w.state.tickets[id].quiescent ==>
      exists c :: c in w.state.tickets && w.state.tickets[c].parent == Some(id) && !w.state.tickets[c].quiescent
  {
    assert w.state.tickets[id].quiescent == Quiet(w.state.tickets, id);
  }

  /** After a cancellation every live descendant is cancelled. */
  lemma CancelledBelow(p: Prepared, w: World, open: set<nat>, id: nat)
    requires Calm(p, w, open) && id in w.state.tickets && w.state.tickets[id].Revoked()
    requires open <= w.state.tickets[id].ancestors
    ensures forall d | d in w.state.tickets && id in w.state.tickets[d].ancestors && !w.state.tickets[d].quiescent ::
      w.state.tickets[d].cancelled
  {
    CancellationReaches(p, w.state.tickets, w.state.nextTicket, open, id);
  }

  // ----- frames

  function TicketFrame(r: Record, id: nat): Frame {
    Frame(r.root, Some(id), r.Revoked(), r.selection.provider, r.authority, r.resource)
  }

  function Pushed(w: World, f: Frame): World {
    w.(state := w.state.(stack := w.state.stack + [f], nextScope := w.state.nextScope + 1))
  }

  /** The frame pushed for a ticket leaves stack and forest in agreement, with the ticket executing. */
  lemma EnterFrame(p: Prepared, w: World, open: set<nat>, id: nat)
    requires Calm(p, w, open) && MayEnter(w.state, open, id) && !w.state.tickets[id].native
    ensures Calm(p, Pushed(w, TicketFrame(w.state.tickets[id], id)), open)
    ensures TopOk(w.state.tickets, w.state.stack + [TicketFrame(w.state.tickets[id], id)], open)
  {
    StillWorking(p, w, open, id);
    PushTicketFrame(p, w.state.tickets, w.state.nextTicket, w.state.stack, w.state.activeRoot, id,
                    TicketFrame(w.state.tickets[id], id));
  }

  /** What ran with one more frame on the stack ran, the frame being gone again. */
  lemma LeaveFrame(p: Prepared, a: World, f: Frame, b: World, open: set<nat>, id: nat)
    requires Step(p, Pushed(a, f), b, id) && Calm(p, b, open)
    ensures b.state.stack == a.state.stack + [f]
    ensures Step(p, a, b.(state := b.state.(stack := a.state.stack)), id)
    ensures Calm(p, b.(state := b.state.(stack := a.state.stack)), open)
  {
    assert b.state.stack[..|b.state.stack| - 1] == a.state.stack;
    StackBelow(p, b.state.tickets, b.state.stack, b.state.activeRoot);
  }

  // ----- release

  function Released(w: World, id: nat): World {
    w.(state := w.state.(tickets := Without(w.state.tickets, id)))
  }

  lemma WithoutKeepsLaws(p: Prepared, T: Forest, n: nat, handed: multiset<nat>, open: set<nat>, id: nat)
    requires TreeOk(p, T, n) && Lifecycle(T, handed, n) && Providers(T) && Closed(T, open)
    ensures Lifecycle(Without(T, id), handed, n) && Providers(Without(T, id)) && Closed(Without(T, id), open)
  {
    var U := Without(T, id);
    forall x | x in U ensures LifeOk(U, handed, x) {
      assert LifeOk(T, handed, x);
      if Quiet(T, x) { assert forall c | c in U && U[c].parent == Some(x) :: T[c].quiescent; }
    }
  }

  lemma WithoutKeepsStack(p: Prepared, T: Forest, n: nat, S: Stack, root: Option<nat>, id: nat)
    requires TreeOk(p, T, n) && StackOk(p, T, S, root)
    requires forall i | 0 <= i < |S| && S[i].ticket.Some? :: S[i].ticket.value < id
    ensures StackOk(p, Without(T, id), S, root)
  {
    hide Attenuated, NoReentry, Marked;
    var U := Without(T, id);
    forall i | 0 <= i < |S| && S[i].ticket.Some?
      ensures S[i].ticket.value in U
    {
      assert Carries(T, S[i]);
      assert Hangs(p, T, n, S[i].ticket.value);
    }
    forall i | 0 <= i < |S| ensures Carries(U, S[i]) { assert Carries(T, S[i]); }
  }

  lemma WithoutEvolves(p: Prepared, T: Forest, n: nat, id: nat)
    requires TreeOk(p, T, n)
    ensures Evolves(T, n, Without(T, id), n) && Touches(T, Without(T, id), id)
  {
    AllYounger(p, T, n);
  }

  /** A quiescent ticket that is not on the stack may be forgotten with all below it. */
  lemma ReleaseStep(p: Prepared, w: World, open: set<nat>, id: nat)
    requires Calm(p, w, open) && id in w.state.tickets && w.state.tickets[id].quiescent
    requires forall i | 0 <= i < |w.state.stack| && w.state.stack[i].ticket.Some? :: w.state.stack[i].ticket.value < id
    ensures Calm(p, Released(w, id), open) && Step(p, w, Released(w, id), id)
  {
    hide Lifecycle, Providers, Closed, StackOk, Evolves, Touches, Exact, TreeOk, Lawful;
    var T, n := w.state.tickets, w.state.nextTicket;
    WithoutKeepsTree(p, T, n, id);
    WithoutKeepsExact(p, T, n, id);
    WithoutKeepsLaws(p, T, n, w.handed, open, id);
    WithoutKeepsStack(p, T, n, w.state.stack, w.state.activeRoot, id);
    WithoutEvolves(p, T, n, id);
  }

  /** The result of a settled ticket is handed to the host. */
  function Taken(w: World, id: nat): World
    requires id in w.state.tickets
  {
    PutTicket(w, id, w.state.tickets[id].(result := None, delivered := true)).(handed := w.handed + multiset{id})
  }

  lemma TakeKeepsLife(p: Prepared, T: Forest, n: nat, handed: multiset<nat>, id: nat, r: Record)
    requires TreeOk(p, T, n) && Lifecycle(T, handed, n) && Exact(T)
    requires id in T && T[id].result.Some? && T[id].parent.None?
    requires r == T[id].(result := None, delivered := r.delivered)
    ensures Lifecycle(T[id := r], handed + multiset{id}, n) && Exact(T[id := r])
    ensures handed[id] == 0
  {
    var U := T[id := r];
    assert LifeOk(T, handed, id);
    assert forall c | c in T :: U[c].parent == T[c].parent && U[c].quiescent == T[c].quiescent;
    forall x | x in U ensures LifeOk(U, handed + multiset{id}, x) && U[x].quiescent == Quiet(U, x) {
      assert LifeOk(T, handed, x);
      assert Quiet(T, x) == Quiet(U, x);
      assert T[x].quiescent == Quiet(T, x);
    }
    assert Hangs(p, T, n, id);
  }

  lemma TakeStep(p: Prepared, w: World, open: set<nat>, id: nat)
    requires Calm(p, w, open) && id in w.state.tickets
    requires w.state.tickets[id].result.Some? && w.state.tickets[id].parent.None?
    ensures Calm(p, Taken(w, id), open) && Step(p, w, Taken(w, id), id)
    ensures w.handed[id] == 0
  {
    hide InBounds, StackOk, Providers, TreeOk, Lifecycle, Closed, Exact, Lawful, Evolves, Touches;
    var r := w.state.tickets[id].(result := None, delivered := true);
    TakeKeepsLife(p, w.state.tickets, w.state.nextTicket, w.handed, id, r);
    LifeFacts(p, w, open, id);
    PutKeepsShape(p, w, open, id, r);
    TakeKeepsClosed(w.state.tickets, open, id, r);
  }

  /** Taking the result of a ticket that is released at once leaves no trace but the delivery. */
  lemma TakeAndRelease(p: Prepared, w: World, open: set<nat>, id: nat)
    requires Calm(p, w, open) && id in w.state.tickets && w.state.tickets[id].quiescent
    requires w.state.tickets[id].result.Some?
    requires forall i | 0 <= i < |w.state.stack| && w.state.stack[i].ticket.Some? :: w.state.stack[i].ticket.value < id
    ensures var r := w.state.tickets[id].(result := None);
      && TreeOk(p, w.state.tickets[id := r], w.state.nextTicket)
      && Without(w.state.tickets[id := r], id) == Without(w.state.tickets, id)
    ensures Calm(p, Released(w, id).(handed := w.handed + multiset{id}), open)
    ensures Step(p, w, Released(w, id).(handed := w.handed + multiset{id}), id)
    ensures w.handed[id] == 0
  {
    hide Lifecycle, Providers, Closed, StackOk, Evolves, Touches, Exact, TreeOk, Lawful, Sane, Ran;
    var r := w.state.tickets[id].(result := None);
    SettledLife(p, w, open, id);
    PutKeepsShape(p, w, open, id, r);
    ReleaseStep(p, w, open, id);
    HandOver(p, w, open, id);
  }

  lemma SettledLife(p: Prepared, w: World, open: set<nat>, id: nat)
    requires Sane(p, w, open) && id in w.state.tickets && w.state.tickets[id].result.Some?
    ensures w.state.tickets[id].logical in {Ready, Failed} && w.handed[id] == 0
  {
    assert LifeOk(w.state.tickets, w.handed, id);
  }

  lemma HandOver(p: Prepared, w: World, open: set<nat>, id: nat)
    requires Calm(p, w, open) && id in w.state.tickets && w.handed[id] == 0
    requires Calm(p, Released(w, id), open) && Step(p, w, Released(w, id), id)
    ensures Calm(p, Released(w, id).(handed := w.handed + multiset{id}), open)
    ensures Step(p, w, Released(w, id).(handed := w.handed + multiset{id}), id)
  {
    hide Providers, Closed, StackOk, Evolves, Touches, Exact, Lawful;
    var u := Released(w, id);
    assert Hangs(p, w.state.tickets, w.state.nextTicket, id);
    forall x | x in u.state.tickets ensures LifeOk(u.state.tickets, u.handed + multiset{id}, x) {
      assert LifeOk(u.state.tickets, u.handed, x);
    }
  }

  lemma TakeKeepsClosed(T: Forest, open: set<nat>, id: nat, r: Record)
    requires Closed(T, open) && id in T && r == T[id].(result := r.result, delivered := r.delivered)
    ensures Closed(T[id := r], open)
  {
  }

  lemma LifeFacts(p: Prepared, w: World, open: set<nat>, id: nat)
    requires Sane(p, w, open) && id in w.state.tickets
    ensures w.state.tickets[id].result.Some? ==> w.state.tickets[id].logical in {Ready, Failed}
    ensures LifeOk(w.state.tickets, w.handed, id)
  {
    assert LifeOk(w.state.tickets, w.handed, id);
  }

  // ----- birth

  /** A protected effect by the calls now on the stack. */
  function Effected(w: World, kind: EffectKind, caller: string, key: string): World {
    w.(effects := w.effects + [Effect(kind, caller, key, w.state.stack, w.state.tickets, w.bound)])
  }

  /** While the top frame keeps its authority an effect is lawful, given the operation's grant. */
  lemma EffectStep(p: Prepared, w: World, open: set<nat>, kind: EffectKind, caller: string, key: string)
    requires Calm(p, w, open) && TopOk(w.state.tickets, w.state.stack, open)
    requires w.state.stack != [] ==> !w.state.stack[|w.state.stack| - 1].revoked
    requires kind != Publish ==> key in Inherited(p, w.state.stack).authority.operations
    requires w.state.stack == [] ==> kind != Publish && key in w.bound.authority.operations
    requires kind == Publish ==> key in Inherited(p, w.state.stack).authority.resources
    ensures Calm(p, Effected(w, kind, caller, key), open)
    ensures Ran(p, w, Effected(w, kind, caller, key))
  {
    TopClean(p, w.state.tickets, w.state.nextTicket, w.state.stack, w.state.activeRoot, open);
    if w.state.stack != [] {
      var top := w.state.stack[|w.state.stack| - 1];
      assert Confined(w.bound, top.authority, top.resource);
      if kind != Publish { TopFrameDecides(p, w.state.stack, key); }
    }
    RanStays(p, w);
  }

  /** The frame of a dispatched call, before a ticket is attached. */
  lemma CallFrame(p: Prepared, w: World, open: set<nat>, caller: string, provider: string, key: string,
                  restriction: Option<ScopedRequest>, f: Frame)
    requires Calm(p, w, open)
    requires EffectScope(p, w.state.stack, caller, provider, key, restriction).Ok?
    requires var scope := EffectScope(p, w.state.stack, caller, provider, key, restriction).value;
      f.authority == scope.authority && f.resource == scope.resource
    requires f.provider == provider && f.ticket.None? && !f.revoked && Some(f.root) == w.state.activeRoot
    requires w.state.stack == [] ==> restriction == Some(w.bound)
    requires w.state.stack != [] ==> !w.state.stack[|w.state.stack| - 1].revoked
    requires forall id | id in w.state.tickets && !w.state.tickets[id].quiescent ::
      w.state.tickets[id].selection.provider != provider
    requires forall g | g in w.state.stack :: g.provider != provider
    ensures Calm(p, Pushed(w, f), open)
  {
    ScopeAttenuates(p, w.state.stack, caller, provider, key, restriction, f);
    GrantConfined(p, w.state.stack, caller, provider, key, restriction, w.bound);
    PushCallFrame(p, w.state.tickets, w.state.stack, w.state.activeRoot, f);
  }

  /** A ticket is recorded and attached to the top frame. */
  function Born(w: World, r: Record): World
    requires w.state.stack != []
  {
    var top := |w.state.stack| - 1;
    w.(state := w.state.(
      tickets := w.state.tickets[w.state.nextTicket := r],
      nextTicket := w.state.nextTicket + 1,
      stack := w.state.stack[top := w.state.stack[top].(ticket := Some(w.state.nextTicket))]))
  }

  ghost predicate BirthReady(p: Prepared, a: World, f: Frame, open: set<nat>, r: Record) {
    && Calm(p, a, open) && Calm(p, Pushed(a, f), open) && TopOk(a.state.tickets, a.state.stack, open)
    && f.ticket.None? && !f.revoked
    && (a.state.stack != [] ==> !a.state.stack[|a.state.stack| - 1].revoked)
    && Newborn(p, a.state.tickets, a.state.stack, a.state.activeRoot, r)
    && r.selection.provider == f.provider && r.authority == f.authority && r.resource == f.resource
  }

  lemma BirthCalm(p: Prepared, a: World, f: Frame, open: set<nat>, r: Record)
    requires BirthReady(p, a, f, open, r)
    ensures Calm(p, Born(Pushed(a, f), r), open)
    ensures var b := Born(Pushed(a, f), r);
      TopOk(b.state.tickets, b.state.stack, open) && open <= r.ancestors
  {
    hide Calm, TopOk, BirthReady, Born;
    BirthSane(p, a, f, open, r);
    BirthTop(p, a, f, open, r);
  }

  lemma BirthSane(p: Prepared, a: World, f: Frame, open: set<nat>, r: Record)
    requires BirthReady(p, a, f, open, r)
    ensures Calm(p, Born(Pushed(a, f), r), open)
  {
    hide Hangs, LifeOk, Typed, InBounds, TreeOk, Lifecycle, Providers, Closed, StackOk, Exact, Lawful;
    var T, n, S := a.state.tickets, a.state.nextTicket, a.state.stack;
    BirthFrame(p, a, f, open, r);
    BirthBounded(p, a, f, open, r);
    InsertTicket(p, T, n, S, a.state.activeRoot, open, a.handed, r, f);
    InsertTicketStack(p, T, n, S, a.state.activeRoot, open, r, f);
    assert (S + [f])[|S| := f.(ticket := Some(n))] == S + [f.(ticket := Some(n))];
  }

  lemma BirthBounded(p: Prepared, a: World, f: Frame, open: set<nat>, r: Record)
    requires BirthReady(p, a, f, open, r)
    ensures var b := Born(Pushed(a, f), r); InBounds(b.bound, b.state.tickets, b.state.stack)
  {
    var V := a.state.stack + [f];
    assert Confined(a.bound, V[|a.state.stack|].authority, V[|a.state.stack|].resource);
    assert forall i | 0 <= i < |a.state.stack| :: V[i] == a.state.stack[i];
  }

  lemma BirthTop(p: Prepared, a: World, f: Frame, open: set<nat>, r: Record)
    requires BirthReady(p, a, f, open, r)
    ensures var b := Born(Pushed(a, f), r);
      TopOk(b.state.tickets, b.state.stack, open) && open <= r.ancestors
  {
    hide Hangs, LifeOk, Typed;
    var T, n, S := a.state.tickets, a.state.nextTicket, a.state.stack;
    BirthFrame(p, a, f, open, r);
    InsertTicketStack(p, T, n, S, a.state.activeRoot, open, r, f);
    assert (S + [f])[|S| := f.(ticket := Some(n))] == S + [f.(ticket := Some(n))];
  }

  lemma BirthFrame(p: Prepared, a: World, f: Frame, open: set<nat>, r: Record)
    requires BirthReady(p, a, f, open, r)
    ensures FrameOk(p, f)
    ensures var S := a.state.stack; S != [] ==>
      Attenuates(p, S[|S| - 1], f) && Carries(a.state.tickets, S[|S| - 1]) && r.parent.value == S[|S| - 1].ticket.value
  {
    var S := a.state.stack;
    var V := S + [f];
    assert FrameOk(p, V[|S|]);
    if S != [] {
      assert V[|S| - 1] == S[|S| - 1] && V[|S|] == f;
      assert Attenuates(p, V[|S| - 1], V[|S|]);
    }
  }

  lemma BirthEvolves(p: Prepared, T: Forest, n: nat, r: Record)
    requires TreeOk(p, T, n) && !r.abandoned
    requires forall x | x in r.ancestors :: x in T && !T[x].Revoked() && !T[x].native
    ensures Evolves(T, n, T[n := r], n + 1) && Touches(T, T[n := r], n)
  {
    AllYounger(p, T, n);
  }

  /** With its frame gone again, all that happened to the forest is the new ticket. */
  lemma BirthStep(p: Prepared, a: World, f: Frame, open: set<nat>, r: Record)
    requires BirthReady(p, a, f, open, r)
    ensures var b := Born(Pushed(a, f), r);
      Step(p, a, b.(state := b.state.(stack := a.state.stack)), a.state.nextTicket)
  {
    hide StackOk, Providers, Lifecycle, Closed, Evolves, Touches, TopOk, Exact, Lawful, Marks;
    BirthCalm(p, a, f, open, r);
    if a.state.stack != [] { BirthBelowLive(p, a, open, r); }
    BirthEvolves(p, a.state.tickets, a.state.nextTicket, r);
    var b := Born(Pushed(a, f), r);
    BirthMarks(p, a, open, r, b.(state := b.state.(stack := a.state.stack)));
  }

  lemma BirthMarks(p: Prepared, a: World, open: set<nat>, r: Record, b: World)
    requires Sane(p, a, open) && !r.abandoned && b.handed == a.handed
    requires b.state.tickets == a.state.tickets[a.state.nextTicket := r]
    ensures Marks(a, b)
  {
    AllYounger(p, a.state.tickets, a.state.nextTicket);
    assert a.handed[a.state.nextTicket] == 0;
  }

  /** A new ticket's ancestors all keep their authority and still work natively. */
  lemma BirthBelowLive(p: Prepared, a: World, open: set<nat>, r: Record)
    requires Calm(p, a, open) && TopOk(a.state.tickets, a.state.stack, open)
    requires a.state.stack != [] && !a.state.stack[|a.state.stack| - 1].revoked
    requires Newborn(p, a.state.tickets, a.state.stack, a.state.activeRoot, r)
    ensures forall x | x in r.ancestors ::
      x in a.state.tickets && !a.state.tickets[x].Revoked() && !a.state.tickets[x].native
  {
    var T, n := a.state.tickets, a.state.nextTicket;
    var t := r.parent.value;
    assert Hangs(p, T, n, t);
    forall x | x in r.ancestors ensures x in T && !T[x].Revoked() && !T[x].native {
      if x != t {
        assert !T[x].Revoked();
        if T[x].native {
          assert LifeOk(T, a.handed, x);
          assert T[x].logical == Ready;
          assert T[x].quiescent == Quiet(T, x);
          QuiescentDown(p, T, n, x, t);
        }
      }
    }
  }

  // ----- what the calls made by the top frame may change

  /** Native code of the top frame changes only tickets below its own, and none if it runs
      synchronously; under a revoked frame no ticket begins and no cell is committed. A call by the host, at rest,
      leaves
      the existing tickets alone. */
  ghost predicate TopEffect(p: Prepared, a: World, b: World) {
    && Ran(p, a, b)
    && (if a.state.stack == [] then
          forall id | id in a.state.tickets ::
            id in b.state.tickets && SameButQuiet(a.state.tickets[id], b.state.tickets[id])
        else
          var top := a.state.stack[|a.state.stack| - 1];
          && (top.ticket.None? ==> b.state.tickets == a.state.tickets)
          && (top.ticket.Some? ==> StepBelow(p, a, b, top.ticket.value))
          && (top.ticket.None? ==> b.state.nextTicket == a.state.nextTicket)
          && (top.revoked ==> Frozen(a, b) && (top.ticket.Some? ==> Winds(a, b, top.ticket.value))))
  }

  lemma TopEffectStays(p: Prepared, a: World, open: set<nat>)
    requires Sane(p, a, open)
    ensures TopEffect(p, a, a)
  {
    RanStays(p, a);
    if a.state.stack != [] && a.state.stack[|a.state.stack| - 1].ticket.Some? {
      StepStays(p, a, open, a.state.stack[|a.state.stack| - 1].ticket.value);
    }
  }

  lemma TopEffectTrans(p: Prepared, a: World, b: World, c: World)
    requires TopEffect(p, a, b) && TopEffect(p, b, c)
    ensures TopEffect(p, a, c)
  {
    RanTrans(p, a, b, c);
    if a.state.stack != [] && a.state.stack[|a.state.stack| - 1].ticket.Some? {
      BelowThenBelow(p, a, b, c, a.state.stack[|a.state.stack| - 1].ticket.value);
      if a.state.stack[|a.state.stack| - 1].revoked {
        WindsTrans(p, a, b, c, a.state.stack[|a.state.stack| - 1].ticket.value);
      }
    }
  }

  lemma TopEffectKeepsTop(p: Prepared, a: World, b: World, open: set<nat>)
    requires TopOk(a.state.tickets, a.state.stack, open) && TopEffect(p, a, b)
    ensures TopOk(b.state.tickets, b.state.stack, open) && b.state.stack == a.state.stack
    ensures b.state.activeRoot == a.state.activeRoot
  {
    var S := a.state.stack;
    if S != [] && S[|S| - 1].ticket.Some? {
      TopStays(p, a.state.tickets, a.state.nextTicket, b.state.tickets, b.state.nextTicket, S, open,
               S[|S| - 1].ticket.value);
    }
  }

  /** Nothing but cells, effects or scope numbers changed. */
  lemma QuietEffect(p: Prepared, a: World, b: World)
    requires Ran(p, a, b) && b.state.tickets == a.state.tickets && b.state.nextTicket == a.state.nextTicket
    requires a.state.stack != [] && a.state.stack[|a.state.stack| - 1].revoked ==> Frozen(a, b)
    ensures TopEffect(p, a, b)
  {
  }

  /** Work on a child of the top frame's ticket. */
  lemma ChildEffect(p: Prepared, a: World, b: World, open: set<nat>, c: nat)
    requires Sane(p, a, open) && Step(p, a, b, c)
    requires a.state.stack != [] && a.state.stack[|a.state.stack| - 1].ticket.Some?
    requires c in a.state.tickets && a.state.tickets[c].parent == a.state.stack[|a.state.stack| - 1].ticket
    requires a.state.stack[|a.state.stack| - 1].revoked ==> Frozen(a, b)
    requires TopOk(a.state.tickets, a.state.stack, open)
    ensures TopEffect(p, a, b)
  {
    assert Hangs(p, a.state.tickets, a.state.nextTicket, c);
    var t := a.state.stack[|a.state.stack| - 1].ticket.value;
    StepStays(p, a, open, t);
    StepBelowTrans(p, a, a, b, t, c);
    assert Consumable(a.state.tickets, t, c);
  }

  /** A child of the executing ticket may be cancelled, and polled while it is live. */
  lemma ImportedChild(p: Prepared, w: World, open: set<nat>, c: nat)
    requires Calm(p, w, open) && TopOk(w.state.tickets, w.state.stack, open)
    requires w.state.stack != [] && w.state.stack[|w.state.stack| - 1].ticket.Some?
    requires c in w.state.tickets && w.state.tickets[c].parent == w.state.stack[|w.state.stack| - 1].ticket
    ensures Reachable(w.state, open, c)
    ensures !w.state.tickets[c].quiescent ==> MayEnter(w.state, open, c)
    ensures w.state.stack[|w.state.stack| - 1].revoked && !w.state.tickets[c].quiescent ==> w.state.tickets[c].Revoked()
    ensures forall i | 0 <= i < |w.state.stack| && w.state.stack[i].ticket.Some? :: w.state.stack[i].ticket.value < c
  {
    var S := w.state.stack;
    var t := S[|S| - 1].ticket.value;
    assert Hangs(p, w.state.tickets, w.state.nextTicket, c);
    assert Hangs(p, w.state.tickets, w.state.nextTicket, t);
    if !w.state.tickets[c].quiescent {
      LiveFacts(p, w, open, c);
      ChildMayBeEntered(p, w.state.tickets, w.state.nextTicket, open, t, c);
    }
    forall i | 0 <= i < |S| && S[i].ticket.Some? ensures S[i].ticket.value < c {
      if i < |S| - 1 { assert S[i].ticket.value in w.state.tickets[t].ancestors; }
    }
  }

  lemma LaggingTree(p: Prepared, w: World, open: set<nat>, id: nat)
    requires Lagging(p, w, open, id)
    ensures TreeOk(p, w.state.tickets, w.state.nextTicket) && Sane(p, w, open)
  {
  }

  /** A ticket below which everything has finished has no live descendant. */
  lemma LiveOrNot(p: Prepared, w: World, open: set<nat>, id: nat)
    requires Calm(p, w, open) && id in w.state.tickets && w.state.tickets[id].quiescent
    ensures forall d | d in w.state.tickets && id in w.state.tickets[d].ancestors :: w.state.tickets[d].quiescent
  {
    forall d | d in w.state.tickets && id in w.state.tickets[d].ancestors ensures w.state.tickets[d].quiescent {
      QuiescentDown(p, w.state.tickets, w.state.nextTicket, id, d);
    }
  }

  lemma TopRecord(p: Prepared, w: World, open: set<nat>, id: nat)
    requires TopOk(w.state.tickets, w.state.stack, open) && w.state.stack != []
    requires w.state.stack[|w.state.stack| - 1].ticket == Some(id)
    ensures id in w.state.tickets && !w.state.tickets[id].native
    ensures w.state.stack[|w.state.stack| - 1].revoked == w.state.tickets[id].Revoked()
  {
  }

  lemma TopEffectOnTicket(p: Prepared, a: World, b: World, id: nat)
    requires TopEffect(p, a, b) && a.state.stack != [] && id in a.state.tickets
    requires a.state.stack[|a.state.stack| - 1].ticket == Some(id)
    ensures Step(p, a, b, id) && b.state.stack == a.state.stack
    ensures id in b.state.tickets && SameButQuiet(a.state.tickets[id], b.state.tickets[id])
    ensures a.state.stack[|a.state.stack| - 1].revoked ==> Winds(a, b, id)
  {
  }

  // ----- a dispatched call and its frame

  /** World `b` with the stack of `a`. */
  function Unwound(a: World, b: World): World { b.(state := b.state.(stack := a.state.stack)) }

  /** A synchronous call runs: its frame is gone again and no ticket has changed. */
  lemma SyncEffect(p: Prepared, a: World, f: Frame, b: World, open: set<nat>)
    requires Calm(p, a, open) && Calm(p, b, open) && TopEffect(p, Pushed(a, f), b) && f.ticket.None?
    requires a.state.stack != [] ==> !a.state.stack[|a.state.stack| - 1].revoked
    ensures b.state.stack == a.state.stack + [f]
    ensures Calm(p, Unwound(a, b), open) && TopEffect(p, a, Unwound(a, b))
    ensures b.state.tickets == a.state.tickets
  {
    assert (a.state.stack + [f])[..|a.state.stack|] == a.state.stack;
    StackBelow(p, b.state.tickets, b.state.stack, b.state.activeRoot);
    var u := Unwound(a, b);
    assert Ran(p, a, u);
    QuietEffect(p, a, u);
  }

  lemma SyncTopOk(p: Prepared, a: World, f: Frame, open: set<nat>)
    requires Calm(p, a, open) && TopOk(a.state.tickets, a.state.stack, open)
    requires a.state.stack != [] ==> !a.state.stack[|a.state.stack| - 1].revoked
    requires f.ticket.None?
    ensures TopOk(a.state.tickets, a.state.stack + [f], open)
  {
    TopClean(p, a.state.tickets, a.state.nextTicket, a.state.stack, a.state.activeRoot, open);
  }

  /** What ran with the ticket's frame on the stack also ran without it. */
  lemma UnwoundStep(p: Prepared, a: World, b: World, c: World, id: nat)
    requires Step(p, b, c, id)
    ensures Step(p, Unwound(a, b), Unwound(a, c), id)
    ensures c.state.stack == b.state.stack
  {
  }

  lemma UnwoundCalm(p: Prepared, a: World, b: World, open: set<nat>, f: Frame)
    requires Calm(p, b, open) && b.state.stack == a.state.stack + [f]
    ensures Calm(p, Unwound(a, b), open)
  {
    assert (a.state.stack + [f])[..|a.state.stack|] == a.state.stack;
    StackBelow(p, b.state.tickets, b.state.stack, b.state.activeRoot);
  }

  /** All that became of a new ticket since its birth is below the caller's ticket, if it has one. */
  lemma BirthEffect(p: Prepared, a: World, b: World, c: World, open: set<nat>, r: Record)
    requires Calm(p, a, open) && Step(p, a, b, a.state.nextTicket) && Step(p, b, c, a.state.nextTicket)
    requires b.state.tickets == a.state.tickets[a.state.nextTicket := r] && b.state.nextTicket == a.state.nextTicket + 1
    requires Newborn(p, a.state.tickets, a.state.stack, a.state.activeRoot, r)
    requires a.state.stack != [] ==> !a.state.stack[|a.state.stack| - 1].revoked
    ensures TopEffect(p, a, c)
  {
    var n, T, V := a.state.nextTicket, a.state.tickets, c.state.tickets;
    StepTrans(p, a, b, c, n);
    AllYounger(p, T, n);
    forall id | id in T ensures !Under(T, n, id) { assert Hangs(p, T, n, id); }
    if a.state.stack != [] {
      var t := r.parent.value;
      forall id | id in V && id !in T ensures Under(V, t, id) {
        assert Hangs(p, V, c.state.nextTicket, id);
        assert Under(V, n, id);
        assert n in V;
        assert Later(b.state.tickets[n], V[n]);
      }
    }
  }

  /** ... and the new ticket, if it is still there, is the one that was born. */
  lemma BornTicket(p: Prepared, b: World, c: World, n: nat)
    requires Step(p, b, c, n) && n in b.state.tickets && n < b.state.nextTicket && n in c.state.tickets
    ensures Later(b.state.tickets[n], c.state.tickets[n]) && b.state.nextTicket <= c.state.nextTicket
  {
  }

  lemma UnwoundPush(p: Prepared, a: World, f: Frame, open: set<nat>)
    requires Calm(p, a, open)
    ensures Calm(p, Unwound(a, Pushed(a, f)), open) && TopEffect(p, a, Unwound(a, Pushed(a, f)))
  {
    RanStays(p, a);
    QuietEffect(p, a, Unwound(a, Pushed(a, f)));
  }

  lemma TopTicket(p: Prepared, a: World, open: set<nat>)
    requires Calm(p, a, open) && TopOk(a.state.tickets, a.state.stack, open)
    requires a.state.stack != [] && a.state.stack[|a.state.stack| - 1].ticket.Some?
    ensures a.state.stack[|a.state.stack| - 1].ticket.value in a.state.tickets
  {
  }

  /** The chain of parents, as collected by a walk from `t` upwards, is the set of its ancestors. */
  lemma ParentChain(p: Prepared, T: Forest, n: nat, t: nat)
    requires TreeOk(p, T, n) && t in T
    ensures T[t].parent.None? ==> T[t].ancestors == {}
    ensures T[t].parent.Some? ==>
      && T[t].parent.value in T && T[t].parent.value < t
      && T[t].ancestors == T[T[t].parent.value].ancestors + {T[t].parent.value}
  {
    assert Hangs(p, T, n, t);
  }

  lemma StackOlder(p: Prepared, a: World, open: set<nat>)
    requires Calm(p, a, open)
    ensures forall i | 0 <= i < |a.state.stack| && a.state.stack[i].ticket.Some? ::
      a.state.stack[i].ticket.value < a.state.nextTicket
  {
    AllYounger(p, a.state.tickets, a.state.nextTicket);
    forall i | 0 <= i < |a.state.stack| && a.state.stack[i].ticket.Some?
      ensures a.state.stack[i].ticket.value < a.state.nextTicket
    {
      assert Carries(a.state.tickets, a.state.stack[i]);
    }
  }

  lemma CalmRanStays(p: Prepared, a: World, open: set<nat>)
    requires Calm(p, a, open)
    ensures Ran(p, a, a)
  {
    RanStays(p, a);
  }

  /** Cursors went; the laws do not speak of them. */
  lemma CursorsGo(p: Prepared, a: World, b: World, c: World, open: set<nat>, id: nat)
    requires c == b.(cursors := c.cursors)
    ensures Calm(p, b, open) ==> Calm(p, c, open)
    ensures Lagging(p, b, open, id) ==> Lagging(p, c, open, id)
    ensures Step(p, a, b, id) ==> Step(p, a, c, id)
  {
  }

  /** Committed state advanced by at most one commit, for which an effect had been recorded. */
  lemma CellsOnly(p: Prepared, a: World, b: World, c: World, open: set<nat>)
    requires Calm(p, b, open) && Ran(p, a, b)
    requires c == b.(cells := c.cells, history := c.history, cursors := c.cursors)
    requires StateRequests.Advances(b.cells, b.history, c.cells, c.history) && |c.history| <= |b.history| + 1
    requires b.cells == a.cells && b.history == a.history && |a.effects| < |b.effects|
    ensures Calm(p, c, open) && Ran(p, a, c)
  {
    assert CellsAdvance(a, c);
  }
}
