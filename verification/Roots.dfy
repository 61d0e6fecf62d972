/** Roots: admission, control of a root's tickets, its drop, and the shutdown of a kernel. */
module RootModel {
  import opened Wrappers
  import opened Contract
  import opened Bytes
  import V = Values
  import ValueCodec
  import C = CellStore
  import opened Prepared
  import opened Tickets
  import opened Worlds
  import opened KernelModel

  /** The answer to a poll by the host. */
  datatype Poll =
    | Unfinished
    | Delivered(result: Result<Outcome, Failure>)
    | PollCancelled(quiescent: bool)
    | Draining

  // ----- the laws between host calls

  /** A ticket between host calls. While its root is held it is not abandoned; once the root has been
      dropped it is, and it has been cancelled or has finished. */
  ghost predicate RestTicket(s: State, handed: multiset<nat>, id: nat)
    requires id in s.tickets
  {
    var r := s.tickets[id];
    && (s.rootLive ==> !r.abandoned)
    && (!s.rootLive ==> r.abandoned && (r.cancelled || r.quiescent))
    && (handed[id] > 0 ==> r.delivered)
  }

  ghost predicate RestTickets(s: State, handed: multiset<nat>) {
    forall id {:trigger RestTicket(s, handed, id)} | id in s.tickets :: RestTicket(s, handed, id)
  }

  /** Roots are conserved: all admitted roots but the active one have completed. */
  ghost predicate RootCounts(s: State) {
    && s.stack == []
    && (s.rootLive ==> s.activeRoot.Some?)
    && (s.activeRoot.Some? ==> s.activeRoot.value == s.nextRoot)
    && s.completedRoots + (if s.activeRoot.Some? then 1 else 0) == s.nextRoot
    && (s.stopped ==> s.activeRoot.None?)
  }

  /** ... and a dropped root keeps the slot only as long as it has tickets. */
  ghost predicate RootLaws(s: State) {
    RootCounts(s) && s.orphans == map[] && (s.activeRoot.Some? && !s.rootLive ==> s.tickets != map[])
  }

  ghost predicate RestLaws(s: State, handed: multiset<nat>) { RootLaws(s) && RestTickets(s, handed) }

  ghost predicate AtRest(k: Kernel)
    reads k, k.cells
  {
    k.Inv({}) && RestLaws(k.state, k.handed)
  }

  // ----- the laws after a drop

  /** A ticket after the drop of its root: if the drop has reached it, it has been cancelled or has finished. */
  ghost predicate DropTicket(s: State, handed: multiset<nat>, id: nat)
    requires id in s.tickets
  {
    var r := s.tickets[id];
    (r.abandoned ==> r.cancelled || r.quiescent) && (handed[id] > 0 ==> r.delivered)
  }

  /** A finished ticket that the drop has not reached, and whose parent is gone. */
  ghost predicate Orphan(s: State, id: nat)
    requires id in s.orphans
  {
    var r := s.orphans[id];
    id !in s.tickets && r.quiescent && !r.abandoned && r.parent.Some? && r.parent.value !in s.tickets
  }

  /** What a drop leaves behind, whether it came to its end or panicked. */
  ghost predicate LeftBehind(s: State, handed: multiset<nat>) {
    && RootCounts(s) && !s.rootLive
    && (forall id {:trigger DropTicket(s, handed, id)} | id in s.tickets :: DropTicket(s, handed, id))
    && (forall id {:trigger Orphan(s, id)} | id in s.orphans :: Orphan(s, id))
  }

  /** ... and the slot is taken as long as there is anything left. */
  ghost predicate DropLaws(s: State, handed: multiset<nat>) {
    LeftBehind(s, handed) && (s.activeRoot.Some? <==> s.tickets != map[] || s.orphans != map[])
  }

  /** The drop reached every ticket. */
  predicate AllReached(s: State) { s.orphans == map[] && forall id | id in s.tickets :: s.tickets[id].abandoned }

  /** The state between two calls of the host: at rest, or after a drop that panicked. */
  ghost predicate Between(k: Kernel)
    reads k, k.cells
  {
    k.Inv({}) && (RestLaws(k.state, k.handed) || DropLaws(k.state, k.handed))
  }

  /** A drop that reached every ticket leads back to rest. */
  lemma RestsIfReached(p: Prepared, w: World)
    requires Calm(p, w, {}) && !w.state.rootLive
    ensures RestLaws(w.state, w.handed) <==> DropLaws(w.state, w.handed) && AllReached(w.state)
  {
    hide RootCounts;
    NoRootNoTickets(p, w);
    forall id | id in w.state.tickets
      ensures RestTicket(w.state, w.handed, id)
              <==> DropTicket(w.state, w.handed, id) && w.state.tickets[id].abandoned
    {
    }
  }

  /** Under a held root any run of calls leads back to rest. */
  lemma LiveRan(p: Prepared, a: World, b: World)
    requires RestLaws(a.state, a.handed) && a.state.rootLive && Ran(p, a, b) && b.state.stack == []
    ensures RestLaws(b.state, b.handed) && b.state.rootLive && b.state.activeRoot == a.state.activeRoot
  {
    forall id | id in b.state.tickets ensures RestTicket(b.state, b.handed, id) {
      if id in a.state.tickets { assert RestTicket(a.state, a.handed, id); }
    }
  }

  lemma NoRootNoTickets(p: Prepared, w: World)
    requires Calm(p, w, {})
    ensures w.state.activeRoot.None? ==> w.state.tickets == map[]
  {
    if w.state.tickets != map[] {
      var id :| id in w.state.tickets;
      assert Some(w.state.tickets[id].root) == w.state.activeRoot;
    }
  }

  /** What holds of every ticket whenever the kernel rests. */
  lemma RestTheorem(p: Prepared, w: World)
    requires Calm(p, w, {}) && RestLaws(w.state, w.handed)
    ensures forall id | id in w.state.tickets ::
      w.state.tickets[id].quiescent <==>
        forall d | d in w.state.tickets && Under(w.state.tickets, id, d) :: w.state.tickets[d].native
    ensures forall id | id in w.state.tickets && w.state.tickets[id].Revoked() ::
      forall d | d in w.state.tickets && id in w.state.tickets[d].ancestors && !w.state.tickets[d].quiescent ::
        w.state.tickets[d].cancelled
    ensures forall id | id in w.state.tickets && w.state.tickets[id].logical == Ready :: w.state.tickets[id].quiescent
    ensures forall id | id in w.state.tickets :: w.handed[id] <= 1
    ensures forall a, b | a in w.state.tickets && b in w.state.tickets && a != b
                          && !w.state.tickets[a].quiescent && !w.state.tickets[b].quiescent ::
      w.state.tickets[a].selection.provider != w.state.tickets[b].selection.provider
    ensures forall i | 0 <= i < |w.effects| :: Lawful(p, w.effects[i])
    ensures forall id | id in w.state.tickets ::
      && w.state.tickets[id].authority.operations <= w.bound.authority.operations
      && w.state.tickets[id].authority.resources <= w.bound.authority.resources
      && (w.bound.resource.Some? ==> w.state.tickets[id].resource == w.bound.resource)
    ensures w.state.activeRoot.None? ==> w.state.tickets == map[]
  {
    var T, n := w.state.tickets, w.state.nextTicket;
    forall id | id in T
      ensures T[id].quiescent <==> forall d | d in T && Under(T, id, d) :: T[d].native
      ensures T[id].logical == Ready ==> T[id].quiescent
      ensures w.handed[id] <= 1
      ensures Confined(w.bound, T[id].authority, T[id].resource)
    {
      QuiescentIffSubtreeFinished(p, T, n, id);
      assert LifeOk(T, w.handed, id);
      assert T[id].quiescent == Quiet(T, id);
    }
    forall id | id in T && T[id].Revoked()
      ensures forall d | d in T && id in T[d].ancestors && !T[d].quiescent :: T[d].cancelled
    {
      CancellationReaches(p, T, n, {}, id);
    }
    if w.state.activeRoot.None? { NoRootNoTickets(p, w); }
  }

  // ----- dropping a root

  predicate Ascends(ids: seq<nat>) { forall i, j | 0 <= i < j < |ids| :: ids[i] < ids[j] }

  /** The tickets of a root, oldest first. */
  function TicketsOf(T: Forest, root: nat, next: nat): (ids: seq<nat>)
    ensures forall id :: id in ids <==> id < next && id in T && T[id].root == root
    ensures Ascends(ids)
  {
    if next == 0 then []
    else if next - 1 in T && T[next - 1].root == root then
      var older := TicketsOf(T, root, next - 1);
      assert forall i | 0 <= i < |older| :: older[i] in older;
      older + [next - 1]
    else TicketsOf(T, root, next - 1)
  }

  /** A ticket at or below one that has not been cancelled still works natively and has a child: while
      the cancellation goes on, its code may consume that child. */
  ghost predicate Exposed(T: Forest) {
    exists t, c {:trigger Consumable(T, t, c)} :: t in T && !T[t].cancelled && Consumable(T, t, c)
  }

  /** The tickets collected so far have been abandoned, and cancelled unless they had finished. */
  ghost predicate GivenUp(T: Forest, ids: seq<nat>, k: nat) {
    forall j | 0 <= j < k && j < |ids| && ids[j] in T ::
      T[ids[j]].abandoned && (T[ids[j]].cancelled || T[ids[j]].quiescent)
  }

  /** The drop has not come to the tickets from the one numbered `i` on. */
  ghost predicate Unreached(T: Forest, ids: seq<nat>, i: nat) {
    forall j | i <= j < |ids| && ids[j] in T :: !T[ids[j]].abandoned
  }

  /** Only tickets of `T` are left, each later. */
  ghost predicate Left(T: Forest, U: Forest) { forall id | id in U :: id in T && Later(T[id], U[id]) }

  function Abandoned(w: World, id: nat): World
    requires id in w.state.tickets
  {
    PutTicket(w, id, w.state.tickets[id].(abandoned := true))
  }

  lemma AbandonKeeps(T: Forest, n: nat, handed: multiset<nat>, id: nat)
    requires Lifecycle(T, handed, n) && Closed(T, {}) && Exact(T) && id in T
    ensures var U := T[id := T[id].(abandoned := true)]; Lifecycle(U, handed, n) && Closed(U, {}) && Exact(U)
  {
    var U := T[id := T[id].(abandoned := true)];
    assert forall c | c in T :: U[c].parent == T[c].parent && U[c].quiescent == T[c].quiescent;
    forall x | x in U ensures LifeOk(U, handed, x) && U[x].quiescent == Quiet(U, x) {
      assert LifeOk(T, handed, x);
      assert Quiet(T, x) == Quiet(U, x);
      assert T[x].quiescent == Quiet(T, x);
    }
  }

  lemma AbandonOne(p: Prepared, w: World, id: nat)
    requires Calm(p, w, {}) && id in w.state.tickets
    ensures Calm(p, Abandoned(w, id), {})
  {
    hide StackOk, Lifecycle, Closed, Exact, TreeOk, Lawful;
    var T, U := w.state.tickets, Abandoned(w, id).state.tickets;
    assert Forward(T, U);
    TreeTyped(p, T, U, w.state.nextTicket);
    ForwardTree(p, T, w.state.nextTicket, U);
    ForwardStack(p, T, w.state.stack, w.state.activeRoot, U);
    AbandonKeeps(T, w.state.nextTicket, w.handed, id);
  }

  lemma LeftRan(p: Prepared, T: Forest, a: World, b: World)
    requires Left(T, a.state.tickets) && Ran(p, a, b) && b.state.nextTicket == a.state.nextTicket
    ensures Left(T, b.state.tickets)
  {
    AllYounger(p, b.state.tickets, b.state.nextTicket);
  }

  lemma GivenUpRan(p: Prepared, a: World, b: World, ids: seq<nat>, k: nat)
    requires GivenUp(a.state.tickets, ids, k) && Ran(p, a, b) && b.state.nextTicket == a.state.nextTicket
    ensures GivenUp(b.state.tickets, ids, k)
  {
    AllYounger(p, b.state.tickets, b.state.nextTicket);
  }

  /** The abandoned and finished tickets go. */
  function Remaining(T: Forest): Forest { map id | id in T && !(T[id].abandoned && T[id].quiescent) :: T[id] }

  /** The remaining tickets whose ancestors remain as well. */
  function Rooted(R: Forest): Forest { map id | id in R && R[id].ancestors <= R.Keys :: R[id] }

  /** The others. */
  function Orphaned(R: Forest): Forest { map id | id in R && !(R[id].ancestors <= R.Keys) :: R[id] }

  lemma RemainingIsCalm(p: Prepared, w: World)
    requires Calm(p, w, {}) && w.state.stack == []
    ensures var R := Remaining(w.state.tickets);
      Calm(p, w.(state := w.state.(tickets := Rooted(R), orphans := w.state.orphans + Orphaned(R))), {})
  {
    var T, n := w.state.tickets, w.state.nextTicket;
    var U := Rooted(Remaining(T));
    forall x | x in U ensures Hangs(p, U, n, x) {
      assert Hangs(p, T, n, x);
      forall a | a in U[x].ancestors ensures a in U && Above(U, a, U[x]) { RootedAbove(p, T, n, x, a); }
    }
    forall x | x in U ensures LifeOk(U, w.handed, x) && U[x].quiescent == Quiet(U, x) {
      assert LifeOk(T, w.handed, x);
      assert T[x].quiescent == Quiet(T, x);
      if T[x].native && !T[x].quiescent {
        var c :| c in T && T[c].parent == Some(x) && !T[c].quiescent;
        RootedChild(p, T, n, x, c);
      }
    }
  }

  lemma RootedAbove(p: Prepared, T: Forest, n: nat, x: nat, a: nat)
    requires TreeOk(p, T, n) && x in Rooted(Remaining(T)) && a in T[x].ancestors
    ensures a in Rooted(Remaining(T)) && Above(T, a, T[x]) && T[a].ancestors <= T[x].ancestors
  {
    assert Hangs(p, T, n, x);
    assert a in T && Above(T, a, T[x]);
  }

  lemma RootedChild(p: Prepared, T: Forest, n: nat, x: nat, c: nat)
    requires TreeOk(p, T, n) && x in Rooted(Remaining(T)) && c in T && T[c].parent == Some(x) && !T[c].quiescent
    ensures c in Rooted(Remaining(T))
  {
    assert Hangs(p, T, n, c);
  }

  /** What `release_abandoned` orphans has finished, and was not reached by the drop. */
  lemma OrphansAreLeft(p: Prepared, w: World, id: nat)
    requires Calm(p, w, {}) && id in Orphaned(Remaining(w.state.tickets))
    ensures var r := w.state.tickets[id];
      r.quiescent && !r.abandoned && r.parent.Some? && r.parent.value !in Rooted(Remaining(w.state.tickets))
  {
    var T, n := w.state.tickets, w.state.nextTicket;
    var R := Remaining(T);
    assert Hangs(p, T, n, id);
    var a :| a in T[id].ancestors && a !in R;
    QuiescentDown(p, T, n, a, id);
    ParentChain(p, T, n, id);
    var parent := T[id].parent.value;
  }

  lemma NoOrphans(p: Prepared, w: World)
    requires Calm(p, w, {}) && AllReached(w.state)
    ensures Orphaned(Remaining(w.state.tickets)) == map[]
      && Rooted(Remaining(w.state.tickets)) == Remaining(w.state.tickets)
  {
    var R := Remaining(w.state.tickets);
    forall id | id in R ensures R[id].ancestors <= R.Keys {
      if id in Orphaned(R) { OrphansAreLeft(p, w, id); }
    }
    assert Orphaned(R).Keys == {};
  }

  /** The laws of what is left, after `release_abandoned`. */
  lemma ReleasedLaws(p: Prepared, w: World, s: State)
    requires Calm(p, w, {}) && LeftBehind(w.state, w.handed)
    requires s == w.state.(tickets := Rooted(Remaining(w.state.tickets)),
                           orphans := w.state.orphans + Orphaned(Remaining(w.state.tickets)))
    ensures LeftBehind(s, w.handed)
    ensures forall id | id in s.tickets && s.tickets[id].abandoned ::
      s.tickets[id].cancelled && !s.tickets[id].quiescent
    ensures AllReached(w.state) ==> AllReached(s) && s.tickets == Remaining(w.state.tickets)
  {
    forall id | id in s.tickets ensures DropTicket(s, w.handed, id) { assert DropTicket(w.state, w.handed, id); }
    forall id | id in s.orphans ensures Orphan(s, id) {
      if id in Orphaned(Remaining(w.state.tickets)) {
        OrphansAreLeft(p, w, id);
      } else {
        assert Orphan(w.state, id);
      }
    }
    if AllReached(w.state) { NoOrphans(p, w); }
  }

  /** `release_abandoned`. The root slot is given up once nothing of a dropped root is left. */
  method ReleaseAbandoned(k: Kernel)
    requires k.Inv({}) && RootCounts(k.state)
    requires if k.state.rootLive then RestLaws(k.state, k.handed) else LeftBehind(k.state, k.handed)
    requires !k.state.rootLive && k.state.activeRoot.None? ==> k.state.orphans == map[]
    modifies k`state
    ensures k.Inv({}) && k.state.nextTicket == old(k.state).nextTicket && k.state.rootLive == old(k.state).rootLive
    ensures old(k.state).rootLive ==> k.state == old(k.state)
    ensures !old(k.state).rootLive ==>
      && DropLaws(k.state, k.handed)
      && k.state.tickets == Rooted(Remaining(old(k.state).tickets))
      && k.state.orphans == old(k.state).orphans + Orphaned(Remaining(old(k.state).tickets))
      && (forall id | id in k.state.tickets && k.state.tickets[id].abandoned ::
            k.state.tickets[id].cancelled && !k.state.tickets[id].quiescent)
      && k.state.activeRoot ==
         (if k.state.tickets == map[] && k.state.orphans == map[] then None else old(k.state).activeRoot)
    ensures !old(k.state).rootLive && old(AllReached(k.state)) ==>
      AllReached(k.state) && k.state.tickets == Remaining(old(k.state).tickets)
  {
    hide Calm;
    ghost var w := k.Now();
    if k.state.rootLive {
      NothingAbandoned(k.prepared, w);
    } else {
      RemainingIsCalm(k.prepared, w);
      NoRootNoTickets(k.prepared, w);
    }
    var remaining := Remaining(k.state.tickets);
    k.state := k.state.(tickets := Rooted(remaining), orphans := k.state.orphans + Orphaned(remaining));
    if !k.state.rootLive { ReleasedLaws(k.prepared, w, k.state); }
    if !k.state.rootLive && k.state.tickets == map[] && k.state.orphans == map[] && k.state.activeRoot.Some? {
      ghost var v := k.Now();
      k.state := k.state.(activeRoot := None, completedRoots := k.state.completedRoots + 1);
      SlotFreed(k.prepared, v, k.Now());
    }
  }

  lemma SlotFreed(p: Prepared, a: World, b: World)
    requires LeftBehind(a.state, a.handed) && a.state.tickets == map[] && a.state.orphans == map[]
    requires a.state.activeRoot.Some? && Calm(p, a, {})
    requires b == a.(state := a.state.(activeRoot := None, completedRoots := a.state.completedRoots + 1))
    ensures Calm(p, b, {}) && DropLaws(b.state, b.handed)
  {
    NoTickets(p, a, b);
  }

  lemma NothingAbandoned(p: Prepared, w: World)
    requires Calm(p, w, {}) && w.state.rootLive && RestTickets(w.state, w.handed) && w.state.orphans == map[]
    ensures Rooted(Remaining(w.state.tickets)) == w.state.tickets
    ensures w.state.orphans + Orphaned(Remaining(w.state.tickets)) == w.state.orphans
  {
    var T := w.state.tickets;
    assert forall id | id in T :: RestTicket(w.state, w.handed, id);
    assert Remaining(T) == T;
    forall id | id in T ensures T[id].ancestors <= T.Keys { assert Hangs(p, T, w.state.nextTicket, id); }
    assert Orphaned(T) == map[];
  }

  lemma NoTickets(p: Prepared, a: World, b: World)
    requires Calm(p, a, {}) && b.state.tickets == map[] && b.state.stack == []
    requires b.handed == a.handed && b.effects == a.effects && b.state.nextTicket == a.state.nextTicket
    ensures Calm(p, b, {})
  {
  }

  /** `abandon_root`, from the drop of a root: every ticket is abandoned and, if live, cancelled. It
      stops at a ticket that has vanished since the tickets were collected. That can happen exactly to a
      root with an exposed child: not otherwise, whatever the native code does, and always with code that
      consumes its children when it is cancelled. */
  method AbandonRoot(k: Kernel, root: nat, fuel: nat) returns (panicked: bool)
    requires k.Inv({}) && RootCounts(k.state) && !k.state.rootLive && k.state.activeRoot == Some(root)
    requires forall id | id in k.state.tickets && k.handed[id] > 0 :: k.state.tickets[id].delivered
    requires k.state.orphans == map[] && forall id | id in k.state.tickets :: !k.state.tickets[id].abandoned
    modifies k`state, k`handed, k`effects, k.cells
    ensures k.Inv({}) && Frozen(old(k.Now()), k.Now()) && !k.state.rootLive && DropLaws(k.state, k.handed)
    ensures forall c | c in k.cells.subscriptions :: k.cells.subscriptions[c].root != root
    ensures panicked ==> old(Exposed(k.state.tickets))
    ensures k.code.Devouring? && old(Ample(k.state, fuel, 0)) ==> (panicked <==> old(Exposed(k.state.tickets)))
    ensures panicked ==> k.state.activeRoot == Some(root) && k.state.tickets != map[] && k.state.orphans == map[]
    ensures !panicked ==> AtRest(k)
    ensures !panicked ==> forall id | id in k.state.tickets ::
      id in old(k.state).tickets && k.state.tickets[id].cancelled && !k.state.tickets[id].quiescent
    ensures !panicked ==> (k.state.activeRoot.None? <==> k.state.tickets == map[])
  {
    hide Calm, Ran, Step, Exact, Progress, NoneTaken, Collected, Left, RestTickets, Exposed;
    hide Spared, Devours, Ample, LeftBehind;
    ghost var a := k.Now();
    k.cells.ReleaseRoot(root);
    ghost var w0 := k.Now();
    CursorsGo(k.prepared, a, a, w0, {}, 0);
    var ids := TicketsOf(k.state.tickets, root, k.state.nextTicket);
    ghost var devours := k.code.Devouring? && Ample(k.state, fuel, 0);
    AllCollected(k.prepared, w0, root, ids, devours, fuel);
    assert |ids| > 0 ==> ids[0] in ids;
    ghost var i;
    panicked, i := AbandonEach(k, ids, w0, devours, fuel);
    DropStopped(w0, k.Now(), ids, i, devours, fuel);
    if panicked { return; }
    if devours { NoneExposed(k.prepared, w0, ids); }
    ReleaseAbandoned(k);
    RestsIfReached(k.prepared, k.Now());
    return false;
  }

  /** The loop over the collected tickets; `i` of them have been dealt with. */
  method AbandonEach(k: Kernel, ids: seq<nat>, ghost w0: World, ghost devours: bool, fuel: nat)
    returns (vanished: bool, ghost i: nat)
    requires k.Inv({}) && k.Now() == w0 && k.state.stack == [] && (devours ==> k.code.Devouring?)
    requires TreeOk(k.prepared, w0.state.tickets, w0.state.nextTicket)
    requires Collected(k.prepared, w0, ids) && Progress(w0, w0, ids, 0, 0, devours, fuel)
    requires |ids| > 0 ==> ids[0] in w0.state.tickets
    modifies k`state, k`handed, k`effects, k.cells
    ensures i <= |ids| && k.Inv({}) && Progress(w0, k.Now(), ids, i, i, devours, fuel) && Frozen(w0, k.Now())
    ensures k.state == w0.state.(tickets := k.state.tickets, nextScope := k.state.nextScope)
    ensures devours ==> NoneTaken(w0.state.tickets, ids, i)
    ensures if vanished then i < |ids| && ids[i] !in k.state.tickets && k.state.tickets != map[] else i == |ids|
  {
    hide Calm, Ran, Step, Exact, Progress, NoneTaken, Collected, Left, Exposed, Spared, Devours, Ample;
    NoneYet(w0.state.tickets, ids);
    i := 0;
    var n := 0;
    while n < |ids|
      invariant 0 <= n <= |ids| && n == i && k.Inv({})
      invariant k.state == w0.state.(tickets := k.state.tickets, nextScope := k.state.nextScope)
      invariant Progress(w0, k.Now(), ids, i, i, devours, fuel) && Frozen(w0, k.Now())
      invariant devours ==> NoneTaken(w0.state.tickets, ids, i)
      invariant if n == 0 then k.state == w0.state else k.state.tickets != map[]
    {
      var id := ids[n];
      if id !in k.state.tickets { return true, i; }
      if devours { NotConsumable(k.prepared, w0, k.Now(), ids, i, fuel); }
      AbandonTicket(k, id, w0, ids, i, devours, fuel);
      n := n + 1;
      i := n;
    }
    return false, i;
  }

  lemma NoneYet(T: Forest, ids: seq<nat>)
    ensures NoneTaken(T, ids, 0)
  {
  }

  /** One of the collected tickets is abandoned and, if live, cancelled. */
  method AbandonTicket(k: Kernel, id: nat, ghost w0: World, ghost ids: seq<nat>, ghost i: nat, ghost devours: bool,
                       fuel: nat)
    requires k.Inv({}) && i < |ids| && ids[i] == id && id in k.state.tickets && k.state.stack == []
    requires Progress(w0, k.Now(), ids, i, i, devours, fuel) && Frozen(w0, k.Now()) && (devours ==> k.code.Devouring?)
    requires TreeOk(k.prepared, w0.state.tickets, w0.state.nextTicket)
    modifies k`state, k`handed, k`effects, k.cells
    ensures k.Inv({}) && Progress(w0, k.Now(), ids, i + 1, i + 1, devours, fuel) && Frozen(w0, k.Now())
    ensures k.state == old(k.state).(tickets := k.state.tickets, nextScope := k.state.nextScope)
    ensures k.state.tickets != map[]
  {
    hide Calm, Ran, Step, Exact, Progress, Exposed, Spared, Devours, Ample;
    ghost var w1 := k.Now();
    AbandonOne(k.prepared, w1, id);
    k.state := k.state.(tickets := k.state.tickets[id := k.state.tickets[id].(abandoned := true)]);
    AbandonMarked(w0, w1, ids, i, devours, fuel);
    if !k.state.tickets[id].quiescent && !k.state.tickets[id].cancelled {
      CancelOne(k, id, w0, ids, i, devours, fuel);
    }
  }

  /** The cancellation of one of the tickets. */
  method CancelOne(k: Kernel, id: nat, ghost w0: World, ghost ids: seq<nat>, ghost i: nat, ghost devours: bool,
                   fuel: nat)
    requires k.Inv({}) && i < |ids| && ids[i] == id && k.state.stack == []
    requires id in k.state.tickets && k.state.tickets[id].abandoned
    requires !k.state.tickets[id].quiescent && !k.state.tickets[id].cancelled
    requires Progress(w0, k.Now(), ids, i, i + 1, devours, fuel) && Frozen(w0, k.Now())
    requires devours ==> k.code.Devouring?
    requires TreeOk(k.prepared, w0.state.tickets, w0.state.nextTicket)
    modifies k`state, k`handed, k`effects, k.cells
    ensures k.Inv({}) && Progress(w0, k.Now(), ids, i + 1, i + 1, devours, fuel) && Frozen(w0, k.Now())
    ensures k.state == old(k.state).(tickets := k.state.tickets, nextScope := k.state.nextScope)
    ensures k.state.tickets != map[]
  {
    hide Calm, Ran, Step, Exact, Progress, Exposed, Spared, Devours, Ample, Left;
    ghost var w2 := k.Now();
    if devours { StillAmple(w0, w2, ids, i, fuel, id); }
    var cancelled := k.CancelTicket(id, fuel, {});
    AbandonStep(k.prepared, w0, w2, k.Now(), ids, i, devours, fuel);
  }

  predicate NoRepeats(ids: seq<nat>) { forall i, j | 0 <= i < j < |ids| :: ids[i] != ids[j] }

  /** The tickets of a dropped root are being abandoned, and `i` of them have been dealt with. */
  ghost predicate Abandoning(w0: World, w: World, ids: seq<nat>, i: nat) {
    && Left(w0.state.tickets, w.state.tickets) && GivenUp(w.state.tickets, ids, i)
    && (forall id | id in w.state.tickets && w.handed[id] > 0 :: w.state.tickets[id].delivered)
    && (Exposed(w0.state.tickets) || w0.state.tickets.Keys <= w.state.tickets.Keys)
  }

  /** What code that devours has left: whatever was cancelled since has finished, and so has every ticket
      dealt with that was not cancelled before. */
  ghost predicate Cleared(w0: World, w: World, ids: seq<nat>, i: nat) {
    var T, U := w0.state.tickets, w.state.tickets;
    && Consumed(T, U)
    && (forall id | id in U && id in T && U[id].cancelled && !T[id].cancelled :: U[id].quiescent)
    && (forall j | 0 <= j < i && j < |ids| && ids[j] in U && ids[j] in T && !T[ids[j]].cancelled :: U[ids[j]].quiescent)
  }

  /** The drop has dealt with `i` tickets and marked `n` of them; `devours` tells that the code devours and
      nothing keeps it from doing so. */
  ghost predicate Progress(w0: World, w: World, ids: seq<nat>, i: nat, n: nat, devours: bool, fuel: nat) {
    && NoRepeats(ids) && Abandoning(w0, w, ids, i) && Unreached(w.state.tickets, ids, n)
    && (devours ==> Cleared(w0, w, ids, i) && Ample(w.state, fuel, 0))
  }

  lemma StillAmple(w0: World, w: World, ids: seq<nat>, i: nat, fuel: nat, id: nat)
    requires Progress(w0, w, ids, i, i + 1, true, fuel)
    ensures Ample(w.state, fuel, id)
  {
    AmpleBelow(w.state, fuel, 0, id);
  }

  /** None of the first `i` tickets was exposed. */
  ghost predicate NoneTaken(T: Forest, ids: seq<nat>, i: nat) {
    forall j, t {:trigger Consumable(T, t, ids[j])} | 0 <= j < i && j < |ids| && t in T && !T[t].cancelled ::
      !Consumable(T, t, ids[j])
  }

  /** The collected tickets are all there are, oldest first. */
  ghost predicate Collected(p: Prepared, w: World, ids: seq<nat>) {
    && TreeOk(p, w.state.tickets, w.state.nextTicket) && Ascends(ids)
    && forall id :: id in ids <==> id in w.state.tickets
  }

  /** The drop has come to the ticket number `i`: it has vanished, or is still there, or there are no more. */
  lemma DropStopped(w0: World, w: World, ids: seq<nat>, i: nat, devours: bool, fuel: nat)
    requires Progress(w0, w, ids, i, i, devours, fuel) && i <= |ids|
    requires forall id :: id in ids <==> id in w0.state.tickets
    requires RootCounts(w.state) && !w.state.rootLive && w.state.orphans == map[]
    ensures LeftBehind(w.state, w.handed) && Left(w0.state.tickets, w.state.tickets)
    ensures i < |ids| && ids[i] !in w.state.tickets ==> Exposed(w0.state.tickets)
    ensures i == |ids| ==> AllReached(w.state)
    ensures forall id | id in w.state.tickets :: id in w0.state.tickets
  {
    hide Exposed, Cleared, Ample;
    if i < |ids| { assert ids[i] in ids; }
    forall id | id in w.state.tickets
      ensures DropTicket(w.state, w.handed, id)
      ensures i == |ids| ==> w.state.tickets[id].abandoned
    {
      assert id in ids;
      var j :| 0 <= j < |ids| && ids[j] == id;
    }
  }

  lemma UnreachedRan(p: Prepared, a: World, b: World, ids: seq<nat>, i: nat)
    requires Unreached(a.state.tickets, ids, i) && Ran(p, a, b)
    requires b.state.nextTicket == a.state.nextTicket
    ensures Unreached(b.state.tickets, ids, i)
  {
    AllYounger(p, b.state.tickets, b.state.nextTicket);
  }

  /** The mark is set; unless the ticket is still to be cancelled, it has been dealt with. */
  lemma AbandonMarked(w0: World, w: World, ids: seq<nat>, i: nat, devours: bool, fuel: nat)
    requires Progress(w0, w, ids, i, i, devours, fuel) && i < |ids| && ids[i] in w.state.tickets
    ensures Progress(w0, Abandoned(w, ids[i]), ids, i, i + 1, devours, fuel)
    ensures w.state.tickets[ids[i]].quiescent || w.state.tickets[ids[i]].cancelled ==>
      Progress(w0, Abandoned(w, ids[i]), ids, i + 1, i + 1, devours, fuel)
  {
    hide Exposed, Cleared, Ample;
    if devours { MarkedCleared(w0, w, ids, i, fuel); }
  }

  lemma AllCollected(p: Prepared, w: World, root: nat, ids: seq<nat>, devours: bool, fuel: nat)
    requires Calm(p, w, {}) && w.state.activeRoot == Some(root)
    requires forall id :: id in ids <==>
      id < w.state.nextTicket && id in w.state.tickets && w.state.tickets[id].root == root
    requires forall id | id in w.state.tickets && w.handed[id] > 0 :: w.state.tickets[id].delivered
    requires forall id | id in w.state.tickets :: !w.state.tickets[id].abandoned
    requires Ascends(ids) && (devours ==> Ample(w.state, fuel, 0))
    ensures Collected(p, w, ids) && Progress(w, w, ids, 0, 0, devours, fuel)
    ensures TreeOk(p, w.state.tickets, w.state.nextTicket) && forall id :: id in ids <==> id in w.state.tickets
    ensures NoneTaken(w.state.tickets, ids, 0)
  {
    hide Ample;
    AllYounger(p, w.state.tickets, w.state.nextTicket);
  }

  lemma LeftEvolves(p: Prepared, a: World, b: World)
    requires Left(a.state.tickets, b.state.tickets) && b.state.nextTicket == a.state.nextTicket
    requires TreeOk(p, b.state.tickets, b.state.nextTicket)
    ensures Evolves(a.state.tickets, a.state.nextTicket, b.state.tickets, b.state.nextTicket)
  {
    AllYounger(p, b.state.tickets, b.state.nextTicket);
  }

  /** One cancellation among the tickets of a dropped root. */
  lemma AbandonStep(p: Prepared, w0: World, a: World, b: World, ids: seq<nat>, i: nat, devours: bool, fuel: nat)
    requires TreeOk(p, w0.state.tickets, w0.state.nextTicket) && Frozen(w0, a) && Calm(p, a, {}) && Calm(p, b, {})
    requires i < |ids| && Step(p, a, b, ids[i]) && ids[i] in a.state.tickets && ids[i] in b.state.tickets
    requires Winds(a, b, ids[i]) && Progress(w0, a, ids, i, i + 1, devours, fuel)
    requires a.state.tickets[ids[i]].abandoned && b.state.tickets[ids[i]].cancelled
    requires !a.state.tickets[ids[i]].quiescent && !a.state.tickets[ids[i]].cancelled
    requires devours ==> Devours(a, b) && b.state.tickets[ids[i]].quiescent
    ensures Progress(w0, b, ids, i + 1, i + 1, devours, fuel)
    ensures b.state == a.state.(tickets := b.state.tickets, nextScope := b.state.nextScope)
  {
    hide Calm, Cleared, Unreached, Ample, Devours, Abandoning, Left, Exposed, Spared;
    CancelledOne(p, w0, a, b, ids, i);
    UnreachedRan(p, a, b, ids, i + 1);
    if devours {
      AmpleKept(a, b, fuel, 0);
      CancelCleared(p, w0, a, b, ids, i);
    }
  }

  lemma CancelledOne(p: Prepared, w0: World, a: World, b: World, ids: seq<nat>, i: nat)
    requires i < |ids| && Step(p, a, b, ids[i]) && ids[i] in a.state.tickets && ids[i] in b.state.tickets
    requires Winds(a, b, ids[i]) && Abandoning(w0, a, ids, i) && NoRepeats(ids)
    requires a.state.tickets[ids[i]].abandoned && b.state.tickets[ids[i]].cancelled
    requires !a.state.tickets[ids[i]].quiescent && !a.state.tickets[ids[i]].cancelled
    ensures Abandoning(w0, b, ids, i + 1) && Left(w0.state.tickets, a.state.tickets)
  {
    hide Spared, Exposed;
    AllYounger(p, b.state.tickets, b.state.nextTicket);
    LeftRan(p, w0.state.tickets, a, b);
    GivenUpRan(p, a, b, ids, i);
    SparedUnlessExposed(p, w0, a, b, ids[i]);
  }

  /** A child that is consumable in what is left was so from the beginning. */
  lemma LeftConsumable(p: Prepared, T: Forest, U: Forest, n: nat, t: nat, c: nat)
    requires Left(T, U) && TreeOk(p, U, n) && Consumable(U, t, c)
    ensures Consumable(T, t, c)
  {
    var x := U[c].parent.value;
    assert Later(T[c], U[c]) && Later(T[x], U[x]);
  }

  /** What the cancellation of a ticket can make vanish was exposed from the beginning. */
  lemma SparedUnlessExposed(p: Prepared, w0: World, a: World, b: World, id: nat)
    requires Left(w0.state.tickets, a.state.tickets) && TreeOk(p, a.state.tickets, a.state.nextTicket)
    requires Spared(a.state.tickets, b.state.tickets, id)
    requires id in a.state.tickets && !a.state.tickets[id].cancelled
    ensures Exposed(w0.state.tickets) || a.state.tickets.Keys <= b.state.tickets.Keys
  {
    hide Consumable, TreeOk;
    var T, U := w0.state.tickets, a.state.tickets;
    if x :| x in U && x !in b.state.tickets {
      assert Exposes(U, id, x);
      var c: nat :| Consumable(U, id, c);
      LeftConsumable(p, T, U, a.state.nextTicket, id, c);
      assert Later(T[id], U[id]);
    }
  }

  // ----- with code that consumes its children

  /** A ticket that is still there when its turn comes was not exposed. */
  lemma NotConsumable(p: Prepared, w0: World, w: World, ids: seq<nat>, i: nat, fuel: nat)
    requires Calm(p, w, {}) && Collected(p, w0, ids) && Frozen(w0, w) && Progress(w0, w, ids, i, i, true, fuel)
    requires NoneTaken(w0.state.tickets, ids, i)
    requires i < |ids| && ids[i] in w.state.tickets
    ensures NoneTaken(w0.state.tickets, ids, i + 1)
  {
    hide LifeOk, RestTickets, Lawful, StackOk;
    var T, U, n, c := w0.state.tickets, w.state.tickets, w0.state.nextTicket, ids[i];
    forall t | t in T && !T[t].cancelled ensures !Consumable(T, t, c) {
      if Consumable(T, t, c) {
        var x := T[c].parent.value;
        assert Hangs(p, T, n, c) && Hangs(p, T, n, x) && Hangs(p, U, n, c);
        assert t < c && t in ids;
        var j :| 0 <= j < |ids| && ids[j] == t;
        assert j < i;
        assert Later(T[x], U[x]) && Later(T[c], U[c]);
        assert Hangs(p, U, n, x);
        QuiescentDown(p, U, n, t, x);
      }
    }
  }

  lemma NoneExposed(p: Prepared, w0: World, ids: seq<nat>)
    requires Collected(p, w0, ids) && NoneTaken(w0.state.tickets, ids, |ids|)
    ensures !Exposed(w0.state.tickets)
  {
    var T := w0.state.tickets;
    forall t, c | t in T && !T[t].cancelled && c in T ensures !Consumable(T, t, c) {
      assert c in ids;
      var j :| 0 <= j < |ids| && ids[j] == c;
    }
  }

  lemma MarkedCleared(w0: World, w: World, ids: seq<nat>, i: nat, fuel: nat)
    requires Cleared(w0, w, ids, i) && i < |ids| && ids[i] in w.state.tickets && Ample(w.state, fuel, 0)
    ensures Cleared(w0, Abandoned(w, ids[i]), ids, i) && Ample(Abandoned(w, ids[i]).state, fuel, 0)
    ensures w.state.tickets[ids[i]].quiescent || w.state.tickets[ids[i]].cancelled ==>
      Cleared(w0, Abandoned(w, ids[i]), ids, i + 1)
  {
    assert Working(Abandoned(w, ids[i]).state.tickets) == Working(w.state.tickets);
  }

  lemma CancelCleared(p: Prepared, w0: World, a: World, b: World, ids: seq<nat>, i: nat)
    requires TreeOk(p, w0.state.tickets, w0.state.nextTicket) && Frozen(w0, a)
      && Left(w0.state.tickets, a.state.tickets)
    requires i < |ids| && Calm(p, a, {}) && Calm(p, b, {})
    requires Step(p, a, b, ids[i]) && Devours(a, b) && Winds(a, b, ids[i])
    requires Cleared(w0, a, ids, i) && ids[i] in b.state.tickets && b.state.tickets[ids[i]].quiescent
    ensures Cleared(w0, b, ids, i + 1)
  {
    var T, U, V, n := w0.state.tickets, a.state.tickets, b.state.tickets, b.state.nextTicket;
    LeftEvolves(p, w0, a);
    ConsumedTrans(p, T, n, U, n, V);
    AllYounger(p, V, n);
    forall id | id in V && id in T && V[id].cancelled && !T[id].cancelled ensures V[id].quiescent {
      assert Later(U[id], V[id]);
      if Under(V, ids[i], id) { QuiescentDown(p, V, n, ids[i], id); }
    }
    forall j | 0 <= j < i + 1 && j < |ids| && ids[j] in V && ids[j] in T && !T[ids[j]].cancelled
      ensures V[ids[j]].quiescent
    {
      if j < i { assert Later(U[ids[j]], V[ids[j]]); }
    }
  }

  // ----- the control plane

  /** `shutdown`: never over live native work or an admitted root. */
  method Shutdown(k: Kernel) returns (r: Result<(), Failure>)
    requires Between(k)
    modifies k`state, k.cells
    ensures Between(k) && (old(AtRest(k)) ==> AtRest(k))
    ensures old(Occupied(k.state)) ==> k.state == old(k.state) && k.cells.cells == old(k.cells.cells)
    ensures old(Occupied(k.state)) ==>
      r == Err(Failure(if old(SomeTicketLives(k.state)) then ScopeRejected else ReentrancyRejected))
    ensures !old(Occupied(k.state)) ==>
      && k.state == old(k.state).(stopped := true) && k.state.tickets == map[] && AtRest(k)
      && if old(k.state).stopped then r == Ok(()) && k.cells.cells == old(k.cells.cells)
         else k.cells.cells == map[] && k.cells.subscriptions == map[]
  {
    hide Calm;
    if exists id | id in k.state.tickets :: !k.state.tickets[id].quiescent { return Err(Failure(ScopeRejected)); }
    if k.state.activeRoot.Some? { return Err(Failure(ReentrancyRejected)); }
    ghost var w := k.Now();
    NoRootRests(k.prepared, w);
    if k.state.stopped { return Ok(()); }
    k.state := k.state.(stopped := true);
    k.cells.Clear();
    NoTickets(k.prepared, w, k.Now());
    var first: Option<Failure> := *;
    return if first.Some? then Err(first.value) else Ok(());
  }

  /** Native work is live, or a root is admitted. */
  predicate Occupied(s: State) { s.activeRoot.Some? || SomeTicketLives(s) }

  predicate SomeTicketLives(s: State) { exists id | id in s.tickets :: !s.tickets[id].quiescent }

  /** A kernel without a root is at rest. */
  lemma NoRootRests(p: Prepared, w: World)
    requires Calm(p, w, {}) && (RestLaws(w.state, w.handed) || DropLaws(w.state, w.handed)) && w.state.activeRoot.None?
    ensures RestLaws(w.state, w.handed) && w.state.tickets == map[]
  {
    NoRootNoTickets(p, w);
  }

  /** The abandoned live tickets without a parent, oldest first. */
  function TopTickets(T: Forest, next: nat): (ids: seq<nat>)
    ensures forall id :: id in ids <==>
      id < next && id in T && T[id].abandoned && !T[id].quiescent && T[id].parent.None?
    ensures NoRepeats(ids)
  {
    if next == 0 then []
    else if next - 1 in T && T[next - 1].abandoned && !T[next - 1].quiescent && T[next - 1].parent.None?
    then TopTickets(T, next - 1) + [next - 1]
    else TopTickets(T, next - 1)
  }

  /** A ticket that the drop has reached, and that is not below any other: draining enters it while it is live. */
  predicate Top(T: Forest, t: nat) { t in T && T[t].abandoned && T[t].parent.None? }

  /** The drop has not reached this ticket, and no code that draining enters can consume it. */
  ghost predicate Stranded(T: Forest, d: nat) {
    d in T && !T[d].abandoned && forall t {:trigger Exposes(T, t, d)} | Top(T, t) :: !Exposes(T, t, d)
  }

  /** Whether what a drop left behind can ever be gone: the drop has reached every ticket, apart from
      those that may be consumed. */
  ghost predicate Retrievable(s: State) { s.orphans == map[] && forall d: nat :: !Stranded(s.tickets, d) }

  /** The tickets from the one numbered `i` on are cancelled and have no parent. */
  ghost predicate ToDrain(s: State, ids: seq<nat>, i: nat) {
    && NoRepeats(ids)
    && forall j | i <= j < |ids| :: Top(s.tickets, ids[j]) && s.tickets[ids[j]].cancelled
  }

  /** The tickets numbered before `i` have finished. */
  ghost predicate DrainedUpTo(T: Forest, ids: seq<nat>, i: nat) {
    forall j | 0 <= j < i && j < |ids| :: Top(T, ids[j]) && T[ids[j]].quiescent
  }

  /** After `i` of the tickets have been entered. `devours` tells that the code devours and nothing keeps it from
      doing so. */
  ghost predicate Emptying(w0: World, w: World, ids: seq<nat>, i: nat, devours: bool, fuel: nat) {
    && DropLaws(w.state, w.handed) && Frozen(w0, w) && Left(w0.state.tickets, w.state.tickets)
    && w.state == w0.state.(tickets := w.state.tickets, nextScope := w.state.nextScope)
    && ToDrain(w.state, ids, i)
    && (forall d | Stranded(w0.state.tickets, d) :: Stranded(w.state.tickets, d))
    && (devours ==>
          && Consumed(w0.state.tickets, w.state.tickets) && Ample(w.state, fuel, 0)
          && DrainedUpTo(w.state.tickets, ids, i))
  }

  lemma ToBeDrained(p: Prepared, w: World, ids: seq<nat>, devours: bool, fuel: nat)
    requires Calm(p, w, {}) && DropLaws(w.state, w.handed) && NoRepeats(ids)
    requires forall id :: id in ids <==>
      id < w.state.nextTicket && id in w.state.tickets && w.state.tickets[id].abandoned
      && !w.state.tickets[id].quiescent && w.state.tickets[id].parent.None?
    requires devours ==> Ample(w.state, fuel, 0)
    ensures Emptying(w, w, ids, 0, devours, fuel)
    ensures forall id | Top(w.state.tickets, id) && !w.state.tickets[id].quiescent :: id in ids
  {
    hide Ample, RootCounts, Stranded;
    AllYounger(p, w.state.tickets, w.state.nextTicket);
    forall j | 0 <= j < |ids| ensures Top(w.state.tickets, ids[j]) && w.state.tickets[ids[j]].cancelled {
      assert ids[j] in ids;
      assert DropTicket(w.state, w.handed, ids[j]);
    }
  }

  lemma NothingToDrain(w: World, ids: seq<nat>)
    requires RestLaws(w.state, w.handed) && w.state.rootLive
    requires forall id | id in ids :: id in w.state.tickets && w.state.tickets[id].abandoned
    ensures ids == []
  {
    assert |ids| > 0 ==> ids[0] in ids;
    assert forall id | id in w.state.tickets :: RestTicket(w.state, w.handed, id);
  }

  lemma DrainOne(p: Prepared, w0: World, w: World, ids: seq<nat>, i: nat, devours: bool, fuel: nat)
    requires Calm(p, w, {}) && Emptying(w0, w, ids, i, devours, fuel) && i < |ids|
    ensures MayEnter(w.state, {}, ids[i]) && w.state.tickets[ids[i]].Revoked() && w.state.tickets[ids[i]].cancelled
    ensures w.state.stack == []
    ensures devours ==> Ample(w.state, fuel, ids[i])
  {
    hide Stranded, Ample;
    assert Hangs(p, w.state.tickets, w.state.nextTicket, ids[i]);
    if devours { AmpleBelow(w.state, fuel, 0, ids[i]); }
  }

  /** What cannot be consumed below the entered ticket stays, and stays stranded. */
  lemma StaysStranded(p: Prepared, a: World, b: World, t: nat, d: nat)
    requires Ran(p, a, b) && Winds(a, b, t) && Top(a.state.tickets, t) && Stranded(a.state.tickets, d)
    ensures Stranded(b.state.tickets, d)
  {
    hide Exposes;
    var T, U := a.state.tickets, b.state.tickets;
    AllYounger(p, U, b.state.nextTicket);
    forall x | Top(U, x) ensures !Exposes(U, x, d) {
      assert Later(T[x], U[x]);
      if Exposes(U, x, d) { ExposedBefore(p, T, a.state.nextTicket, U, x, d); }
    }
  }

  /** One entry keeps the laws of what a drop left behind. */
  lemma DropRan(p: Prepared, a: World, b: World)
    requires DropLaws(a.state, a.handed) && Ran(p, a, b) && b.state.stack == []
    requires b.state.nextTicket == a.state.nextTicket && b.state.tickets != map[]
    ensures DropLaws(b.state, b.handed)
  {
    AllYounger(p, b.state.tickets, b.state.nextTicket);
    forall id | id in b.state.tickets ensures DropTicket(b.state, b.handed, id) {
      assert Later(a.state.tickets[id], b.state.tickets[id]);
      assert DropTicket(a.state, a.handed, id);
    }
    forall id | id in b.state.orphans ensures Orphan(b.state, id) { assert Orphan(a.state, id); }
  }

  lemma DrainedOne(p: Prepared, w0: World, a: World, b: World, ids: seq<nat>, i: nat, devours: bool, fuel: nat)
    requires Calm(p, a, {}) && Emptying(w0, a, ids, i, devours, fuel) && i < |ids|
    requires TreeOk(p, w0.state.tickets, w0.state.nextTicket)
    requires Step(p, a, b, ids[i]) && Winds(a, b, ids[i]) && ids[i] in b.state.tickets && b.state.stack == []
    requires devours ==> Devours(a, b) && b.state.tickets[ids[i]].quiescent
    ensures Emptying(w0, b, ids, i + 1, devours, fuel)
  {
    hide Stranded, Ample, Spared, Devours, RootCounts, Orphan, DropTicket, Consumed;
    DropRan(p, a, b);
    LeftRan(p, w0.state.tickets, a, b);
    forall d | Stranded(w0.state.tickets, d) ensures Stranded(b.state.tickets, d) { StaysStranded(p, a, b, ids[i], d); }
    DrainOn(p, a, b, ids, i);
    if devours {
      AmpleKept(a, b, fuel, 0);
      ConsumedMore(p, w0, a, b);
    }
  }

  lemma ConsumedMore(p: Prepared, w0: World, a: World, b: World)
    requires Consumed(w0.state.tickets, a.state.tickets) && Devours(a, b) && Frozen(w0, a) && Frozen(a, b)
    requires TreeOk(p, w0.state.tickets, w0.state.nextTicket) && Left(w0.state.tickets, a.state.tickets) && Ran(p, a, b)
    ensures Consumed(w0.state.tickets, b.state.tickets)
  {
    hide Consumed;
    LeftEvolves(p, w0, a);
    ConsumedTrans(p, w0.state.tickets, w0.state.nextTicket, a.state.tickets, a.state.nextTicket, b.state.tickets);
  }

  lemma DrainOn(p: Prepared, a: World, b: World, ids: seq<nat>, i: nat)
    requires TreeOk(p, a.state.tickets, a.state.nextTicket) && ToDrain(a.state, ids, i) && i < |ids|
    requires Step(p, a, b, ids[i]) && b.state.nextTicket == a.state.nextTicket
    requires ids[i] in b.state.tickets
    ensures ToDrain(b.state, ids, i + 1)
    ensures DrainedUpTo(a.state.tickets, ids, i) && b.state.tickets[ids[i]].quiescent ==>
      DrainedUpTo(b.state.tickets, ids, i + 1)
  {
    AllYounger(p, b.state.tickets, b.state.nextTicket);
    assert Top(b.state.tickets, ids[i]) by { assert Later(a.state.tickets[ids[i]], b.state.tickets[ids[i]]); }
    forall j | 0 <= j < |ids| && j != i && Top(a.state.tickets, ids[j])
      ensures Top(b.state.tickets, ids[j]) && Later(a.state.tickets[ids[j]], b.state.tickets[ids[j]])
    {
      assert Hangs(p, a.state.tickets, a.state.nextTicket, ids[j]);
      assert !Under(a.state.tickets, ids[i], ids[j]);
    }
  }

  /** Above every ticket is one without a parent. */
  lemma {:induction false} TopOf(p: Prepared, T: Forest, n: nat, d: nat) returns (t: nat)
    requires TreeOk(p, T, n) && d in T
    ensures t in T && T[t].parent.None? && Under(T, t, d)
    decreases d
  {
    ParentChain(p, T, n, d);
    t := d;
    if T[d].parent.Some? { t := TopOf(p, T, n, T[d].parent.value); }
  }

  /** What may be consumed below a ticket that has finished by now is gone. */
  lemma ExposedIsGone(p: Prepared, w0: World, w: World, t: nat, d: nat)
    requires TreeOk(p, w0.state.tickets, w0.state.nextTicket) && Calm(p, w, {}) && Frozen(w0, w)
    requires Left(w0.state.tickets, w.state.tickets) && Consumed(w0.state.tickets, w.state.tickets)
    requires t in w.state.tickets && w.state.tickets[t].quiescent && Exposes(w0.state.tickets, t, d)
    ensures d !in w.state.tickets
  {
    var T, U, n := w0.state.tickets, w.state.tickets, w.state.nextTicket;
    var c: nat :| Consumable(T, t, c) && Under(T, c, d);
    LeftEvolves(p, w0, w);
    if d in U {
      assert Later(T[d], U[d]);
      assert Hangs(p, U, n, d);
      assert c in U;
      NoneLeft(p, T, n, U, t, c);
    }
  }

  lemma ExposedIsLive(p: Prepared, w: World, t: nat, d: nat)
    requires Calm(p, w, {}) && t in w.state.tickets && Exposes(w.state.tickets, t, d)
    ensures !w.state.tickets[t].quiescent
  {
    var T, n := w.state.tickets, w.state.nextTicket;
    var c: nat :| Consumable(T, t, c) && Under(T, c, d);
    var x := T[c].parent.value;
    assert T[x].quiescent == Quiet(T, x);
    if T[t].quiescent { QuiescentDown(p, T, n, t, x); }
  }

  /** With code that consumes its children, everything retrievable is gone or has finished. */
  lemma AllFinish(p: Prepared, w0: World, w: World, ids: seq<nat>, fuel: nat, d: nat)
    requires Calm(p, w0, {}) && Calm(p, w, {}) && Retrievable(w0.state) && d in w.state.tickets
    requires forall id | Top(w0.state.tickets, id) && !w0.state.tickets[id].quiescent :: id in ids
    requires Emptying(w0, w, ids, |ids|, true, fuel)
    ensures w.state.tickets[d].abandoned && w.state.tickets[d].quiescent
  {
    hide Calm, Ample, Stranded, Exposes, RootCounts, Consumed, ToDrain;
    var T, U := w0.state.tickets, w.state.tickets;
    CalmTree(p, w0);
    CalmTree(p, w);
    Reached(p, w0, w, ids, fuel, d);
    var t := TopOf(p, U, w.state.nextTicket, d);
    Reached(p, w0, w, ids, fuel, t);
    assert Later(T[t], U[t]) && Later(T[d], U[d]);
    if !T[t].quiescent {
      assert Top(T, t) && t in ids;
      var j :| 0 <= j < |ids| && ids[j] == t;
    }
    QuietDown(p, w, t, d);
  }

  lemma QuietDown(p: Prepared, w: World, t: nat, d: nat)
    requires Calm(p, w, {}) && t in w.state.tickets && d in w.state.tickets && Under(w.state.tickets, t, d)
    ensures w.state.tickets[t].quiescent ==> w.state.tickets[d].quiescent
  {
    if w.state.tickets[t].quiescent { QuiescentDown(p, w.state.tickets, w.state.nextTicket, t, d); }
  }

  lemma Reached(p: Prepared, w0: World, w: World, ids: seq<nat>, fuel: nat, d: nat)
    requires Calm(p, w0, {}) && Calm(p, w, {}) && Retrievable(w0.state) && d in w.state.tickets
    requires forall id | Top(w0.state.tickets, id) && !w0.state.tickets[id].quiescent :: id in ids
    requires Emptying(w0, w, ids, |ids|, true, fuel)
    ensures d in w0.state.tickets && w0.state.tickets[d].abandoned
  {
    hide Calm, Ample, Exposes, RootCounts, Consumed, ToDrain;
    var T := w0.state.tickets;
    CalmTree(p, w0);
    assert d in T;
    if !T[d].abandoned {
      assert !Stranded(T, d);
      var t :| Top(T, t) && Exposes(T, t, d);
      ExposedIsLive(p, w0, t, d);
      var j :| 0 <= j < |ids| && ids[j] == t;
      ExposedIsGone(p, w0, w, t, d);
    }
  }

  /** `release_abandoned` leaves what was stranded, in its place or as an orphan. */
  lemma ReleasedStranded(p: Prepared, w: World, s: State, d: nat)
    requires TreeOk(p, w.state.tickets, w.state.nextTicket) && Stranded(w.state.tickets, d)
    requires s.tickets == Rooted(Remaining(w.state.tickets))
    requires s.orphans == w.state.orphans + Orphaned(Remaining(w.state.tickets))
    ensures d in s.orphans || Stranded(s.tickets, d)
  {
    var T, U := w.state.tickets, s.tickets;
    if d in U {
      forall t | Top(U, t) ensures !Exposes(U, t, d) {
        if Exposes(U, t, d) {
          var c: nat :| Consumable(U, t, c) && Under(U, c, d);
          assert Consumable(T, t, c) && Exposes(T, t, d);
        }
      }
    }
  }

  lemma StillLost(p: Prepared, w: World, s: State)
    requires TreeOk(p, w.state.tickets, w.state.nextTicket) && !Retrievable(w.state)
    requires s.tickets == Rooted(Remaining(w.state.tickets))
    requires s.orphans == w.state.orphans + Orphaned(Remaining(w.state.tickets))
    ensures !Retrievable(s) && (s.tickets != map[] || s.orphans != map[])
  {
    hide Stranded;
    if w.state.orphans == map[] {
      var d: nat :| Stranded(w.state.tickets, d);
      ReleasedStranded(p, w, s, d);
      if d !in s.orphans { InTree(s.tickets, d); }
    }
  }

  lemma InTree(T: Forest, d: nat)
    requires Stranded(T, d)
    ensures d in T
  {
  }

  /** What has come of a run of entries, for `release_abandoned`. */
  lemma Emptied(p: Prepared, w0: World, w: World, ids: seq<nat>, i: nat, devours: bool, fuel: nat)
    requires Calm(p, w0, {}) && Calm(p, w, {}) && Emptying(w0, w, ids, i, devours, fuel)
    requires forall id | Top(w0.state.tickets, id) && !w0.state.tickets[id].quiescent :: id in ids
    ensures DropLaws(w.state, w.handed) && Frozen(w0, w) && Left(w0.state.tickets, w.state.tickets)
    ensures AllReached(w0.state) ==> AllReached(w.state)
    ensures !Retrievable(w0.state) ==> !Retrievable(w.state) && w.state.activeRoot.Some?
    ensures w.state.rootLive == w0.state.rootLive && w.state.activeRoot == w0.state.activeRoot
    ensures devours && i == |ids| && Retrievable(w0.state) ==>
      w.state.orphans == map[] && forall d | d in w.state.tickets ::
        w.state.tickets[d].abandoned && w.state.tickets[d].quiescent
  {
    hide Calm, Ample, Stranded, RootCounts, Consumed, ToDrain;
    if !Retrievable(w0.state) && w0.state.orphans == map[] {
      var d: nat :| Stranded(w0.state.tickets, d);
      InTree(w.state.tickets, d);
    }
    if devours && i == |ids| && Retrievable(w0.state) {
      forall d | d in w.state.tickets ensures w.state.tickets[d].abandoned && w.state.tickets[d].quiescent {
        AllFinish(p, w0, w, ids, fuel, d);
      }
    }
  }

  /** The last part of `drain_cancelled`: what has finished goes, and the live tickets are counted. */
  method FinishDrain(k: Kernel) returns (r: Result<nat, Failure>)
    requires k.Inv({}) && if k.state.rootLive then RestLaws(k.state, k.handed) else DropLaws(k.state, k.handed)
    modifies k`state
    ensures k.Inv({}) && k.state.nextTicket == old(k.state).nextTicket && k.state.rootLive == old(k.state).rootLive
    ensures r == Ok(|set id | id in k.state.tickets && !k.state.tickets[id].quiescent|)
    ensures old(k.state).rootLive ==> k.state == old(k.state)
    ensures !old(k.state).rootLive ==> DropLaws(k.state, k.handed)
    ensures !old(k.state).rootLive && old(AllReached(k.state)) ==>
      AllReached(k.state) && r.value == |k.state.tickets| && (r.value == 0 <==> k.state.activeRoot.None?)
    ensures forall id | id in k.state.tickets ::
      id in old(k.state).tickets && k.state.tickets[id] == old(k.state).tickets[id]
    ensures !old(k.state).rootLive && !old(Retrievable(k.state)) ==>
      !Retrievable(k.state) && k.state.activeRoot == old(k.state).activeRoot
    ensures !old(k.state).rootLive && old(k.state).orphans == map[]
            && (forall d | d in old(k.state).tickets ::
                  old(k.state).tickets[d].abandoned && old(k.state).tickets[d].quiescent) ==>
      k.state.tickets == map[] && k.state.orphans == map[] && k.state.activeRoot.None?
  {
    hide Calm, Retrievable;
    ghost var w := k.Now();
    CalmTree(k.prepared, w);
    ReleaseAbandoned(k);
    if !w.state.rootLive {
      if !Retrievable(w.state) { StillLost(k.prepared, w, k.state); }
      if AllReached(w.state) {
        assert (set id | id in k.state.tickets && !k.state.tickets[id].quiescent) == k.state.tickets.Keys;
      }
    }
    return Ok(|set id | id in k.state.tickets && !k.state.tickets[id].quiescent|);
  }

  lemma RestingLive(p: Prepared, w: World)
    requires Calm(p, w, {}) && w.state.rootLive && (RestLaws(w.state, w.handed) || DropLaws(w.state, w.handed))
    ensures RestLaws(w.state, w.handed)
  {
  }

  lemma CalmTree(p: Prepared, w: World)
    requires Calm(p, w, {})
    ensures TreeOk(p, w.state.tickets, w.state.nextTicket) && Exact(w.state.tickets)
  {
  }

  /** `drain_cancelled`: polls what a dropped root left behind; nothing new can begin. If the drop has left
      something stranded, the root slot is never free again. Otherwise it may become free, and with code that
      consumes its children it does so at once. */
  method DrainCancelled(k: Kernel, fuel: nat) returns (r: Result<nat, Failure>)
    requires Between(k)
    modifies k`state, k`handed, k`effects, k.cells
    ensures Between(k) && (old(AtRest(k)) ==> AtRest(k))
    ensures Frozen(old(k.Now()), k.Now()) && k.state.rootLive == old(k.state).rootLive
    ensures old(k.state).rootLive ==> k.state == old(k.state)
    ensures forall id | id in k.state.tickets ::
      id in old(k.state).tickets && Later(old(k.state).tickets[id], k.state.tickets[id])
    ensures r.Ok? ==> r.value == |set id | id in k.state.tickets && !k.state.tickets[id].quiescent|
    ensures r.Ok? && !k.state.rootLive && old(AtRest(k)) ==>
      r.value == |k.state.tickets| && (r.value == 0 <==> k.state.activeRoot.None?)
    ensures !old(k.state).rootLive && !old(Retrievable(k.state)) ==>
      !Retrievable(k.state) && k.state.activeRoot == old(k.state).activeRoot && k.state.activeRoot.Some?
    ensures !old(k.state).rootLive && old(Retrievable(k.state)) && k.code.Devouring? && old(Ample(k.state, fuel, 0)) ==>
      r.Ok? && k.state.activeRoot.None? && k.state.tickets == map[] && k.state.orphans == map[]
  {
    hide Calm, Ran, Step, Exact, RestLaws, DropLaws, Emptying, Retrievable, AllReached, Ample, Spared, Devours;
    ghost var w0 := k.Now();
    var ids := TopTickets(k.state.tickets, k.state.nextTicket);
    if k.state.rootLive {
      RestingLive(k.prepared, w0);
      NothingToDrain(w0, ids);
      r := FinishDrain(k);
      return;
    }
    RestsIfReached(k.prepared, w0);
    ghost var devours := k.code.Devouring? && Ample(k.state, fuel, 0);
    ToBeDrained(k.prepared, w0, ids, devours, fuel);
    CalmTree(k.prepared, w0);
    var i := 0;
    while i < |ids|
      invariant 0 <= i <= |ids| && k.Inv({}) && Emptying(w0, k.Now(), ids, i, devours, fuel)
    {
      ghost var w1 := k.Now();
      DrainOne(k.prepared, w0, w1, ids, i, devours, fuel);
      var entered := k.EnterTicket(ids[i], false, fuel, {});
      DrainedOne(k.prepared, w0, w1, k.Now(), ids, i, devours, fuel);
      i := i + 1;
      if entered.Err? {
        Emptied(k.prepared, w0, k.Now(), ids, i, devours, fuel);
        RestsIfReached(k.prepared, k.Now());
        return Err(entered.error);
      }
    }
    Emptied(k.prepared, w0, k.Now(), ids, i, devours, fuel);
    r := FinishDrain(k);
    RestsIfReached(k.prepared, k.Now());
  }

  // ----- roots

  /** A ticket that was issued and has been released. */
  predicate Gone(s: State, id: nat) { id < s.nextTicket && id !in s.tickets }

  /** The identity of a released ticket is not used again, nor is a scope number. */
  ghost predicate NothingReturns(a: State, b: State) {
    a.nextTicket <= b.nextTicket && a.nextScope <= b.nextScope && forall id: nat | Gone(a, id) :: Gone(b, id)
  }

  /** A call by the host leaves the existing tickets alone and leads back to rest. */
  lemma HostEffect(p: Prepared, a: World, b: World)
    requires RestLaws(a.state, a.handed) && a.state.rootLive && TopEffect(p, a, b) && b.state.stack == a.state.stack
    ensures RestLaws(b.state, b.handed) && b.state.rootLive && b.state.activeRoot == a.state.activeRoot
    ensures forall t | t in a.state.tickets ::
      t in b.state.tickets && SameButQuiet(a.state.tickets[t], b.state.tickets[t])
    ensures CellsAdvance(a, b) && NothingReturns(a.state, b.state) && Logged(a, b)
  {
    LiveRan(p, a, b);
  }

  lemma NothingAdvances(p: Prepared, a: World)
    ensures CellsAdvance(a, a) && Logged(a, a)
  {
  }

  /** An admitted root, held by the host until it is dropped. */
  class Root {
    const kernel: Kernel
    const id: nat
    const entry: Selection
    const scope: ScopedRequest
    var dropped: bool

    constructor (kernel: Kernel, id: nat, entry: Selection, scope: ScopedRequest)
      ensures this.kernel == kernel && this.id == id && this.entry == entry && this.scope == scope && !dropped
    {
      this.kernel := kernel;
      this.id := id;
      this.entry := entry;
      this.scope := scope;
      dropped := false;
    }

    /** The root is held, and its kernel rests. */
    ghost predicate Held()
      reads this, kernel, kernel.cells
    {
      && !dropped && AtRest(kernel) && kernel.state.rootLive && kernel.state.activeRoot == Some(id)
      && kernel.bound == scope
    }

    /** `authenticate_ticket`: the ticket is this root's own, was begun by the host, and is not released. */
    predicate Authentic(ticket: Ticket)
      reads kernel`state
    {
      && ticket.root == id && kernel.state.activeRoot == Some(id)
      && ticket.id in kernel.state.tickets
      && kernel.state.tickets[ticket.id].root == id && kernel.state.tickets[ticket.id].parent.None?
    }

    /** `begin`: the entry operation starts as a pending call; what else is pending stays as it was. */
    method Begin(request: V.Value, fuel: nat) returns (r: Result<Call, Failure>)
      requires Held()
      modifies kernel`state, kernel`handed, kernel`effects, kernel.cells
      ensures Held()
      ensures forall t | t in old(kernel.state).tickets ::
        t in kernel.state.tickets && SameButQuiet(old(kernel.state).tickets[t], kernel.state.tickets[t])
      ensures CellsAdvance(old(kernel.Now()), kernel.Now()) && Logged(old(kernel.Now()), kernel.Now())
      ensures r.Ok? && r.value.Waiting? ==>
        Begun(old(kernel.Now()), kernel.Now(), r.value.ticket, id, entry, "",
              EffectScope(kernel.prepared, [], "root", entry.provider, entry.Key(), Some(scope)))
      ensures r.Ok? && r.value.Waiting? ==> Authentic(r.value.ticket)
      ensures r.Ok? && r.value.Done? ==> Declared(kernel.prepared, entry, r.value.outcome)
      ensures ValueCodec.Encode(request).Err? ==> r.Err? && kernel.Now() == old(kernel.Now())
      ensures ValueCodec.Encode(request).Ok? ==>
        Kernel.Dispatched(old(kernel.Now()), kernel.Now(),
                          old(kernel.Admits(id, RootCaller, entry, ValueCodec.Encode(request).value, Some(scope))),
                          Kernel.Kind(kernel.prepared, entry, true), "root", entry, r.Ok?)
    {
      hide Calm, Ran, Kernel.Dispatched, Kernel.Admits, Kernel.Kind, ValueCodec.Encode, RestTickets, CellsAdvance;
      hide Declared;
      ghost var a := kernel.Now();
      NothingAdvances(kernel.prepared, a);
      var input := ValueCodec.EncodeValue(request);
      if input.Err? { return Err(input.error); }
      r := kernel.DispatchCall(id, RootCaller, entry, input.value, Some(scope), true, fuel, {});
      HostEffect(kernel.prepared, a, kernel.Now());
    }

    /** `invoke`: a synchronous call of the entry operation leaves no ticket behind. */
    method Invoke(selection: Selection, input: seq<byte>, fuel: nat) returns (r: Result<Outcome, Failure>)
      requires Held()
      modifies kernel`state, kernel`handed, kernel`effects, kernel.cells
      ensures Held() && kernel.state.tickets == old(kernel.state).tickets
      ensures CellsAdvance(old(kernel.Now()), kernel.Now()) && Logged(old(kernel.Now()), kernel.Now())
      ensures r.Ok? ==> Declared(kernel.prepared, selection, r.value)
      ensures Kernel.Dispatched(old(kernel.Now()), kernel.Now(),
                                old(kernel.Admits(id, RootCaller, selection, input, Some(scope))),
                                Kernel.Kind(kernel.prepared, selection, false), "root", selection, r.Ok?)
    {
      hide Calm, Ran, Kernel.Dispatched, Kernel.Admits, Kernel.Kind, RestTickets, CellsAdvance, Declared;
      ghost var a := kernel.Now();
      var call := kernel.DispatchCall(id, RootCaller, selection, input, Some(scope), false, fuel, {});
      HostEffect(kernel.prepared, a, kernel.Now());
      if call.Err? { return Err(call.error); }
      return Ok(call.value.outcome);
    }

    /** `call_graph`: a call on behalf of a graph's owner. */
    method CallGraph(owner: string, selection: Selection, request: V.Value, pendingAllowed: bool, fuel: nat)
      returns (r: Result<Call, Failure>)
      requires Held()
      modifies kernel`state, kernel`handed, kernel`effects, kernel.cells
      ensures Held()
      ensures forall t | t in old(kernel.state).tickets ::
        t in kernel.state.tickets && SameButQuiet(old(kernel.state).tickets[t], kernel.state.tickets[t])
      ensures CellsAdvance(old(kernel.Now()), kernel.Now()) && NothingReturns(old(kernel.state), kernel.state)
      ensures Logged(old(kernel.Now()), kernel.Now())
      ensures !pendingAllowed ==> kernel.state.tickets == old(kernel.state).tickets
      ensures r.Ok? && r.value.Waiting? ==>
        pendingAllowed
          && Begun(old(kernel.Now()), kernel.Now(), r.value.ticket, id, selection, "",
                   EffectScope(kernel.prepared, [], owner, selection.provider, selection.Key(), Some(scope)))
          && Authentic(r.value.ticket)
      ensures r.Ok? && r.value.Done? ==> Declared(kernel.prepared, selection, r.value.outcome)
      ensures !OperationKey(selection.Key()) ==> r == Err(Failure(MissingBinding))
      ensures !OperationKey(selection.Key()) || ValueCodec.Encode(request).Err? ==>
        r.Err? && kernel.Now() == old(kernel.Now())
      ensures OperationKey(selection.Key()) && ValueCodec.Encode(request).Ok? ==>
        Kernel.Dispatched(old(kernel.Now()), kernel.Now(),
                          old(kernel.Admits(id, Graph(owner), selection,
                                            ValueCodec.Encode(request).value, Some(scope))),
                          Kernel.Kind(kernel.prepared, selection, pendingAllowed), owner, selection, r.Ok?)
    {
      hide Calm, Ran, Kernel.Recorded, Kernel.Admits, Kernel.Kind, ValueCodec.Encode, RestTickets, CellsAdvance;
      hide Declared;
      ghost var a := kernel.Now();
      NothingAdvances(kernel.prepared, a);
      if !OperationKey(selection.Key()) { return Err(Failure(MissingBinding)); }
      var operation := kernel.prepared.Operation(selection);
      var input := ValueCodec.EncodeValue(request);
      if input.Ok? { kernel.AdmitsOperation(id, Graph(owner), selection, input.value, Some(scope)); }
      if operation.Err? { return Err(operation.error); }
      if input.Err? { return Err(input.error); }
      r := kernel.DispatchCall(id, Graph(owner), selection, input.value, Some(scope), pendingAllowed, fuel, {});
      HostEffect(kernel.prepared, a, kernel.Now());
    }

    /** `poll`: enters a live ticket once; a result is handed over the first time it is found. */
    method PollTicket(ticket: Ticket, fuel: nat) returns (r: Result<Poll, Failure>)
      requires Held()
      modifies kernel`state, kernel`handed, kernel`effects, kernel.cells
      ensures Held() && Logged(old(kernel.Now()), kernel.Now())
      ensures !old(Authentic(ticket)) ==> r == Err(Failure(ScopeRejected)) && kernel.Now() == old(kernel.Now())
      ensures old(Authentic(ticket)) ==>
        && Authentic(ticket) && Step(kernel.prepared, old(kernel.Now()), kernel.Now(), ticket.id)
        && (old(kernel.state).tickets[ticket.id].quiescent && old(kernel.state).tickets[ticket.id].delivered ==>
              r == Err(Failure(ScopeRejected)) && kernel.Now() == old(kernel.Now()))
        && (r.Ok? ==> Answers(r.value, old(kernel.Now()), kernel.Now(), ticket.id))
        && (r.Ok? && r.value.Delivered? && r.value.result.Ok? ==>
              Declared(kernel.prepared, kernel.state.tickets[ticket.id].selection, r.value.result.value))
        && (var r0 := old(kernel.state).tickets[ticket.id]; r0.quiescent && !r0.delivered && r0.result.Some? ==>
              r == Ok(Delivered(r0.result.value)))
        && (r.Err? && !(old(kernel.state).tickets[ticket.id].quiescent
              && old(kernel.state).tickets[ticket.id].delivered) ==>
              kernel.Exhausted())
        && (old(kernel.state).tickets[ticket.id].Revoked() ==> Frozen(old(kernel.Now()), kernel.Now()))
    {
      hide Calm, Ran, Step, RestTickets, Answers, Declared;
      ghost var a := kernel.Now();
      if !Authentic(ticket) { return Err(Failure(ScopeRejected)); }
      RestStays(kernel.prepared, a, ticket.id);
      var r0 := kernel.state.tickets[ticket.id];
      if r0.quiescent && r0.delivered { return Err(Failure(ScopeRejected)); }
      if !r0.quiescent {
        PollReady(kernel.prepared, a, ticket.id);
        var entered := kernel.EnterTicket(ticket.id, false, fuel, {});
        LiveStep(kernel.prepared, a, kernel.Now(), ticket.id);
        if entered.Err? { return Err(entered.error); }
      }
      ghost var b := kernel.Now();
      var record := kernel.state.tickets[ticket.id];
      AnswerFacts(kernel.prepared, a, b, ticket.id);
      if record.result.Some? {
        if record.result.value.Ok? { TypedOutcome(kernel.prepared, b, {}, ticket.id, record.result.value.value); }
        TakeStep(kernel.prepared, b, {}, ticket.id);
        kernel.state := kernel.state.(
          tickets := kernel.state.tickets[ticket.id := record.(result := None, delivered := true)]);
        kernel.handed := kernel.handed + multiset{ticket.id};
        StepTrans(kernel.prepared, a, b, kernel.Now(), ticket.id);
        LiveStep(kernel.prepared, a, kernel.Now(), ticket.id);
        return Ok(Delivered(record.result.value));
      }
      if record.logical == Logical.Cancelled { return Ok(PollCancelled(record.quiescent)); }
      return Ok(if record.delivered then Draining else Unfinished);
    }

    /** `cancel`: authority over the ticket's whole subtree is withdrawn, whatever native code does. */
    method Cancel(ticket: Ticket, fuel: nat) returns (r: Result<bool, Failure>)
      requires Held()
      modifies kernel`state, kernel`handed, kernel`effects, kernel.cells
      ensures Held() && Frozen(old(kernel.Now()), kernel.Now())
      ensures !old(Authentic(ticket)) ==> r == Err(Failure(ScopeRejected)) && kernel.Now() == old(kernel.Now())
      ensures old(Authentic(ticket)) ==>
        Authentic(ticket) && Step(kernel.prepared, old(kernel.Now()), kernel.Now(), ticket.id)
      ensures old(Authentic(ticket))
              && (old(kernel.state).tickets[ticket.id].cancelled || old(kernel.state).tickets[ticket.id].quiescent) ==>
        r == Err(Failure(ScopeRejected)) && kernel.Now() == old(kernel.Now())
      ensures old(Authentic(ticket)) && !old(kernel.state).tickets[ticket.id].quiescent ==>
        forall d | d in kernel.state.tickets && Under(kernel.state.tickets, ticket.id, d)
          && !kernel.state.tickets[d].quiescent ::
          kernel.state.tickets[d].cancelled
      ensures old(Authentic(ticket)) && !old(kernel.state).tickets[ticket.id].cancelled
              && !old(kernel.state).tickets[ticket.id].quiescent ==>
        (r.Err? ==> kernel.Exhausted()) && (old(kernel.Exhausted()) ==> r.Err?)
      ensures r.Ok? ==> r.value == kernel.state.tickets[ticket.id].quiescent
    {
      hide Calm, Ran, Step, RestTickets;
      ghost var a := kernel.Now();
      if !Authentic(ticket) { return Err(Failure(ScopeRejected)); }
      r := kernel.CancelTicket(ticket.id, fuel, {});
      LiveStep(kernel.prepared, a, kernel.Now(), ticket.id);
    }

    /** `release`: only a finished ticket can be forgotten, and with it everything below it. */
    method Release(ticket: Ticket) returns (r: Result<(), Failure>)
      requires Held()
      modifies kernel`state, kernel.cells`subscriptions
      ensures Held()
      ensures r.Ok? <==> old(Authentic(ticket)) && old(kernel.state).tickets[ticket.id].quiescent
      ensures r.Err? ==> r == Err(Failure(ScopeRejected)) && kernel.Now() == old(kernel.Now())
      ensures r.Ok? ==> kernel.state == old(kernel.state).(tickets := Without(old(kernel.state).tickets, ticket.id))
      ensures kernel.cells.subscriptions
        == C.Silenced(old(kernel.cells.subscriptions), old(kernel.state).tickets.Keys - kernel.state.tickets.Keys)
    {
      hide Calm, Ran, Step, RestTickets;
      ghost var a := kernel.Now();
      if !Authentic(ticket) { return Err(Failure(ScopeRejected)); }
      if !kernel.state.tickets[ticket.id].quiescent { return Err(Failure(ScopeRejected)); }
      ReleaseStep(kernel.prepared, a, {}, ticket.id);
      CalmIsLagging(kernel.prepared, a, {}, 0);
      LaggingTree(kernel.prepared, a, {}, 0);
      kernel.ReleaseTree(ticket.id);
      CursorsGo(kernel.prepared, a, Released(a, ticket.id), kernel.Now(), {}, ticket.id);
      LiveStep(kernel.prepared, a, kernel.Now(), ticket.id);
      return Ok(());
    }

    /** The drop of a root. */
    method Drop(fuel: nat) returns (panicked: bool)
      requires Held()
      modifies this`dropped, kernel`state, kernel`handed, kernel`effects, kernel.cells
      ensures dropped && !kernel.state.rootLive && Frozen(old(kernel.Now()), kernel.Now())
      ensures forall c | c in kernel.cells.subscriptions :: kernel.cells.subscriptions[c].root != id
      ensures panicked ==> old(Exposed(kernel.state.tickets))
      ensures kernel.code.Devouring? && old(Ample(kernel.state, fuel, 0)) ==>
        (panicked <==> old(Exposed(kernel.state.tickets)))
      ensures panicked ==>
        && kernel.Inv({}) && DropLaws(kernel.state, kernel.handed)
        && kernel.state.activeRoot == Some(id) && kernel.state.tickets != map[] && kernel.state.orphans == map[]
      ensures !panicked ==> AtRest(kernel)
      ensures !panicked ==> forall t | t in kernel.state.tickets ::
        t in old(kernel.state).tickets && kernel.state.tickets[t].cancelled && !kernel.state.tickets[t].quiescent
      ensures !panicked ==> (kernel.state.activeRoot.None? <==> kernel.state.tickets == map[])
    {
      hide Calm;
      ghost var a := kernel.Now();
      dropped := true;
      HeldHandles(a.state, a.handed);
      kernel.state := kernel.state.(rootLive := false);
      LiveOnly(kernel.prepared, a, kernel.Now());
      panicked := AbandonRoot(kernel, id, fuel);
    }
  }

  const NOTHING: ScopedRequest := ScopedRequest(Authority({}, {}), None)

  /** A host operation, and a tool that its provider imports. */
  function OneImport(): Prepared {
    var a, b, none := Selection("host", "run", "a"), Selection("tool", "run", "b"), Authority({}, {});
    var any := Schemas.ValueSchema.Bool;
    var operation := PreparedOperation(any, any, any, EffectTarget.Native);
    Prepared(a, map[("a", ImportIdentity("", b.Key())) := "b"], map[], none, None,
             map[("a", a.Key()) := operation, ("b", b.Key()) := operation], map[])
  }

  function HostCall(native: bool, logical: Logical, reached: bool): Record {
    Record(1, None, {}, "", Selection("host", "run", "a"), Authority({}, {}), None,
           native, logical, native, false, reached, reached, None)
  }

  /** A child of ticket 1, cancelled and finished without a result. */
  const FINISHED_CHILD: Record :=
    Record(1, Some(1), {1}, "", Selection("tool", "run", "b"), Authority({}, {}), None,
           true, Logical.Cancelled, true, false, true, false, None)

  /** A root whose drop may panic: a pending host call has one child, cancelled and finished without a
      result. Its cancel code may consume the child, which the drop has collected too. */
  lemma AnExposedRoot() returns (p: Prepared, w: World)
    ensures Calm(p, w, {}) && RestLaws(w.state, w.handed) && w.state.rootLive
    ensures Exposed(w.state.tickets) && Ample(w.state, w.state.nextTicket, 0)
    ensures w.state.tickets.Keys == {1, 2} && w.state.tickets[2].parent == Some(1)
    ensures w.state.tickets[2].quiescent && w.state.tickets[2].cancelled && w.state.tickets[2].result == None
  {
    p := OneImport();
    var T: Forest := map[1 := HostCall(false, Pending, false), 2 := FINISHED_CHILD];
    w := World(State(T, 3, [], 1, Some(1), true, 1, 0, false, map[]), multiset{}, [], map[], [], map[], NOTHING);
    assert Hangs(p, T, 3, 1) && Hangs(p, T, 3, 2);
    assert LifeOk(T, w.handed, 1) && LifeOk(T, w.handed, 2);
    assert Quiet(T, 2) && !Quiet(T, 1);
    assert RestTicket(w.state, w.handed, 1) && RestTicket(w.state, w.handed, 2);
    assert Consumable(T, 1, 2);
    assert Working(T) == {1};
  }

  /** What is left of that root, if its code consumed the child and the drop panicked there: the drop has reached
      all there is, so the slot can still be freed. */
  lemma ASlotToFree() returns (p: Prepared, w: World)
    ensures Calm(p, w, {}) && DropLaws(w.state, w.handed) && w.state.activeRoot == Some(1)
    ensures w.state.tickets.Keys == {1} && Retrievable(w.state)
  {
    p := OneImport();
    var T: Forest := map[1 := HostCall(true, Logical.Cancelled, true)];
    w := World(State(T, 3, [], 1, Some(1), false, 1, 0, false, map[]), multiset{}, [], map[], [], map[], NOTHING);
    assert Hangs(p, T, 3, 1) && LifeOk(T, w.handed, 1) && Quiet(T, 1);
    assert DropTicket(w.state, w.handed, 1);
  }

  /** The same with another finished child, which the drop did not reach: it keeps the slot for good, although
      no ticket is live. Draining takes its parent away and orphans it. */
  lemma ALostSlot() returns (p: Prepared, w: World)
    ensures Calm(p, w, {}) && DropLaws(w.state, w.handed) && w.state.activeRoot == Some(1)
    ensures w.state.tickets.Keys == {1, 3} && (forall id | id in w.state.tickets :: w.state.tickets[id].quiescent)
    ensures w.state.tickets[1].abandoned && !w.state.tickets[3].abandoned && !Retrievable(w.state)
    ensures Rooted(Remaining(w.state.tickets)) == map[] && Orphaned(Remaining(w.state.tickets)).Keys == {3}
  {
    p := OneImport();
    var T: Forest := map[1 := HostCall(true, Logical.Cancelled, true), 3 := FINISHED_CHILD];
    w := World(State(T, 4, [], 1, Some(1), false, 1, 0, false, map[]), multiset{}, [], map[], [], map[], NOTHING);
    assert Hangs(p, T, 4, 1) && Hangs(p, T, 4, 3);
    assert LifeOk(T, w.handed, 1) && LifeOk(T, w.handed, 3);
    assert Quiet(T, 1) && Quiet(T, 3);
    assert DropTicket(w.state, w.handed, 1) && DropTicket(w.state, w.handed, 3);
    assert Stranded(T, 3);
    assert Remaining(T).Keys == {3} && Remaining(T)[3] == FINISHED_CHILD;
  }

  lemma HeldHandles(s: State, handed: multiset<nat>)
    requires RestTickets(s, handed)
    ensures forall id | id in s.tickets && handed[id] > 0 :: s.tickets[id].delivered
    ensures s.rootLive ==> forall id | id in s.tickets :: !s.tickets[id].abandoned
  {
    assert forall id | id in s.tickets :: RestTicket(s, handed, id);
  }

  lemma LiveOnly(p: Prepared, a: World, b: World)
    requires Calm(p, a, {}) && b == a.(state := a.state.(rootLive := b.state.rootLive))
    ensures Calm(p, b, {})
  {
  }

  lemma LiveStep(p: Prepared, a: World, b: World, id: nat)
    requires RestLaws(a.state, a.handed) && a.state.rootLive && Step(p, a, b, id) && b.state.stack == []
    ensures RestLaws(b.state, b.handed) && b.state.rootLive && b.state.activeRoot == a.state.activeRoot
    ensures Logged(a, b)
  {
    LiveRan(p, a, b);
  }

  lemma RestStays(p: Prepared, a: World, id: nat)
    requires Calm(p, a, {})
    ensures Step(p, a, a, id)
  {
    StepStays(p, a, {}, id);
  }

  lemma PollReady(p: Prepared, w: World, id: nat)
    requires Calm(p, w, {}) && w.state.stack == [] && id in w.state.tickets && w.state.tickets[id].parent.None?
    requires !w.state.tickets[id].quiescent
    ensures MayEnter(w.state, {}, id)
  {
    assert Hangs(p, w.state.tickets, w.state.nextTicket, id);
    LiveFacts(p, w, {}, id);
  }

  /** What an answer to a poll means, for the state after it. */
  ghost predicate Answers(answer: Poll, a: World, b: World, id: nat)
    requires id in a.state.tickets && id in b.state.tickets
  {
    var r := b.state.tickets[id];
    match answer
    case Unfinished => r.logical == Pending && !r.delivered
    case PollCancelled(quiescent) => r.logical == Logical.Cancelled && r.quiescent == quiescent
    case Draining => r.delivered && a.handed[id] == 1 && b.handed[id] == 1
    case Delivered(result) =>
      && a.handed[id] == 0 && b.handed[id] == 1 && r.delivered && r.result == None
      && (result.Ok? <==> r.logical == Ready) && (result.Err? <==> r.logical == Failed)
      && (result.Ok? ==> r.quiescent)
  }

  lemma AnswerFacts(p: Prepared, a: World, b: World, id: nat)
    requires Calm(p, a, {}) && Calm(p, b, {}) && Step(p, a, b, id) && id in a.state.tickets && id in b.state.tickets
    requires RestTickets(a.state, a.handed) && RestTickets(b.state, b.handed) && a.state.rootLive && b.state.rootLive
    requires a.state.tickets[id].delivered == b.state.tickets[id].delivered
    ensures var r := b.state.tickets[id];
      && (r.result.Some? ==>
            Answers(Delivered(r.result.value), a, Taken(b, id), id))
      && (r.result.None? && r.logical == Logical.Cancelled ==> Answers(PollCancelled(r.quiescent), a, b, id))
      && (r.result.None? && r.logical != Logical.Cancelled && r.delivered ==> Answers(Draining, a, b, id))
      && (r.result.None? && r.logical != Logical.Cancelled && !r.delivered ==> Answers(Unfinished, a, b, id))
  {
    var T, U := a.state.tickets, b.state.tickets;
    assert Hangs(p, T, a.state.nextTicket, id);
    assert LifeOk(T, a.handed, id) && LifeOk(U, b.handed, id);
    assert RestTicket(a.state, a.handed, id) && RestTicket(b.state, b.handed, id);
    assert U[id].quiescent == Quiet(U, id);
  }

  /** What a root is admitted for: a valid scope, a granted entry operation, and a running kernel
      without a root. */
  predicate Admissible(k: Kernel, entry: Selection, scope: ScopedRequest)
    reads k`state
  {
    && ValidScope(scope) && OperationKey(entry.Key()) && k.prepared.Operation(entry).Ok?
    && !k.state.stopped && ("root", entry.Key()) in k.prepared.grants
    && k.state.activeRoot.None? && k.state.nextRoot < MAX_U64
  }

  /** `admit_root_inner`: one root at a time, on a kernel that has not stopped. */
  method AdmitRoot(k: Kernel, entry: Selection, scope: ScopedRequest) returns (r: Result<Root, Failure>)
    requires Between(k)
    modifies k`state, k`bound
    ensures Between(k) && (old(AtRest(k)) || r.Ok? ==> AtRest(k))
    ensures r.Ok? <==> old(Admissible(k, entry, scope))
    ensures r.Err? ==> k.state == old(k.state) && k.bound == old(k.bound)
    ensures !ValidScope(scope) ==> r == Err(Failure(SchemaRejected))
    ensures r.Ok? ==>
      && fresh(r.value) && r.value.kernel == k && r.value.Held()
      && r.value.entry == entry && r.value.scope == scope
      && r.value.id == k.state.nextRoot == old(k.state).nextRoot + 1 && k.state.tickets == map[]
      && k.state == old(k.state).(nextRoot := k.state.nextRoot, activeRoot := Some(k.state.nextRoot), rootLive := true)
  {
    hide Calm;
    if !ValidScope(scope) { return Err(Failure(SchemaRejected)); }
    if !OperationKey(entry.Key()) { return Err(Failure(MissingBinding)); }
    var operation := k.prepared.Operation(entry);
    if operation.Err? { return Err(operation.error); }
    if k.state.stopped { return Err(Failure(PluginFailed)); }
    if ("root", entry.Key()) !in k.prepared.grants { return Err(Failure(Denied)); }
    if k.state.activeRoot.Some? { return Err(Failure(ReentrancyRejected)); }
    if k.state.nextRoot >= MAX_U64 { return Err(Failure(InfrastructureFailure)); }
    ghost var w := k.Now();
    NoRootRests(k.prepared, w);
    k.state := k.state.(nextRoot := k.state.nextRoot + 1, activeRoot := Some(k.state.nextRoot + 1), rootLive := true);
    k.bound := scope;
    NoTickets(k.prepared, w, k.Now());
    var root := new Root(k, k.state.nextRoot, entry, scope);
    return Ok(root);
  }

  predicate ValidScope(scope: ScopedRequest) {
    && (forall key | key in scope.authority.operations :: OperationKey(key))
    && (forall id | id in scope.authority.resources :: Identifier(id))
    && (scope.resource.Some? ==> Identifier(scope.resource.value))
  }

  // ----- every run

  /** No drop has left anything stranded. */
  ghost predicate Recoverable(s: State) { s.rootLive || Retrievable(s) }

  /** At rest nothing is stranded; what is stranded keeps the slot. */
  lemma LostForGood(p: Prepared, w: World)
    requires Calm(p, w, {}) && (RestLaws(w.state, w.handed) || DropLaws(w.state, w.handed))
    ensures RestLaws(w.state, w.handed) ==> Recoverable(w.state)
    ensures !Recoverable(w.state) ==> w.state.activeRoot.Some? && DropLaws(w.state, w.handed)
  {
    hide Exposes;
    if !w.state.rootLive {
      RestsIfReached(p, w);
      if !Retrievable(w.state) && w.state.orphans == map[] { var d: nat :| Stranded(w.state.tickets, d); }
    }
  }

  /** A call of a host that holds no root: it may admit one, drain, or shut the kernel down. */
  method IdleCall(k: Kernel, fuel: nat) returns (root: Root?)
    requires Between(k) && !k.state.rootLive
    modifies k`state, k`handed, k`effects, k`bound, k.cells
    ensures Between(k) && (old(AtRest(k)) ==> AtRest(k))
    ensures root != null ==> fresh(root) && root.kernel == k && root.Held()
    ensures root == null ==> !k.state.rootLive
    ensures k.effects == old(k.effects)
    ensures !old(Recoverable(k.state)) ==> !Recoverable(k.state) && root == null
  {
    hide Calm, RestLaws, DropLaws, Retrievable;
    LostForGood(k.prepared, k.Now());
    root := null;
    if * {
      var entry: Selection, scope: ScopedRequest := *, *;
      var admitted := AdmitRoot(k, entry, scope);
      if admitted.Ok? { root := admitted.value; }
    } else if * {
      var drained := DrainCancelled(k, fuel);
    } else {
      var stopped := Shutdown(k);
    }
  }

  /** A call through a held root; only its drop can panic. */
  method RootCall(root: Root, fuel: nat) returns (panicked: bool)
    requires root.Held()
    modifies root`dropped, root.kernel`state, root.kernel`handed, root.kernel`effects, root.kernel.cells
    ensures Between(root.kernel) && (panicked || AtRest(root.kernel))
    ensures !root.dropped ==> root.Held()
    ensures root.dropped ==> !root.kernel.state.rootLive
    ensures old(root.kernel.effects) <= root.kernel.effects
    ensures forall i | |old(root.kernel.effects)| <= i < |root.kernel.effects| ::
      root.kernel.effects[i].bound == root.scope
  {
    hide Calm, RestLaws, DropLaws;
    panicked := false;
    var ticket: Ticket := *;
    if * {
      var request: V.Value := *;
      var begun := root.Begin(request, fuel);
    } else if * {
      var selection: Selection, input: seq<byte> := *, *;
      var invoked := root.Invoke(selection, input, fuel);
    } else if * {
      var owner: string, selection: Selection, request: V.Value, pending: bool := *, *, *, *;
      var called := root.CallGraph(owner, selection, request, pending, fuel);
    } else if * {
      var polled := root.PollTicket(ticket, fuel);
    } else if * {
      var cancelled := root.Cancel(ticket, fuel);
    } else if * {
      var released := root.Release(ticket);
    } else {
      panicked := root.Drop(fuel);
    }
  }

  /** Whatever the host does, and whatever native code does in between, the laws hold after every host call: the
      kernel is at rest unless a drop has panicked. Once such a drop has left something stranded (`lost`), the
      dropped root keeps its slot for good: it is never drained, and no root is ever admitted again. Until then
      the run goes on as ever. */
  method AnyRun(prepared: Prepared, cells: C.Cells, steps: nat, fuel: nat)
    returns (k: Kernel, ghost panicked: bool, ghost lost: bool)
    requires cells.Valid()
    modifies cells
    ensures fresh(k) && k.cells == cells && k.prepared == prepared
    ensures Between(k) && (!panicked ==> AtRest(k) && !lost)
    ensures lost <==> !Recoverable(k.state)
    ensures lost ==> forall entry, scope :: !Admissible(k, entry, scope)
  {
    hide Calm, RestLaws, DropLaws, Retrievable;
    k := new Kernel(prepared, Anything, cells);
    StartsAtRest(k.state, k.handed);
    panicked, lost := false, false;
    LostForGood(k.prepared, k.Now());
    var root: Root? := null;
    var i := 0;
    while i < steps
      invariant fresh(k) && k.cells == cells && k.prepared == prepared && Between(k)
      invariant root != null ==> fresh(root) && root.kernel == k && root.Held()
      invariant root == null ==> !k.state.rootLive
      invariant !panicked ==> AtRest(k)
      invariant lost <==> !Recoverable(k.state)
    {
      i := i + 1;
      if root == null {
        root := IdleCall(k, fuel);
      } else {
        var broken := RootCall(root, fuel);
        panicked := panicked || broken;
        if root.dropped { root := null; }
      }
      LostForGood(k.prepared, k.Now());
      lost := lost || !Recoverable(k.state);
    }
    LostForGood(k.prepared, k.Now());
  }

  lemma StartsAtRest(s: State, handed: multiset<nat>)
    requires s == State(map[], 1, [], 1, None, false, 0, 0, false, map[])
    ensures RestLaws(s, handed)
  {
  }
}
