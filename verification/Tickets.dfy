/** The ticket forest: one record per pending native call, and the laws its fields obey. */
module Tickets {
  import opened Wrappers
  import opened Contract
  import opened Values
  import opened Prepared
  import Schemas

  datatype Logical = Pending | Ready | Failed | Cancelled

  datatype Outcome = Success(value: Value) | Domain(value: Value)

  /** A pending call. `ancestors` are the tickets notified by its wake permit, the chain of parents
      collected when the call begins; `native` is `native_quiescent`. */
  datatype Record = Record(
    root: nat, parent: Option<nat>, ancestors: set<nat>, slot: string, selection: Selection,
    authority: Authority, resource: Option<string>,
    native: bool, logical: Logical, quiescent: bool, delivered: bool, cancelled: bool, abandoned: bool,
    result: Option<Result<Outcome, Failure>>)
  {
    /** Work of a cancelled or failed ticket has lost its host authority. */
    predicate Revoked() { cancelled || logical == Failed }
  }

  type Forest = map<nat, Record>

  /** `d` is `t` or one of its descendants. */
  predicate Under(T: Forest, t: nat, d: nat)
    requires d in T
  {
    d == t || t in T[d].ancestors
  }

  // ----- laws of a forest

  /** An outcome that the operation declares: a response or an error of its schemas. */
  predicate Declared(p: Prepared, selection: Selection, outcome: Outcome) {
    && p.Operation(selection).Ok?
    && match outcome
       case Success(value) => Schemas.Accepts(p.Operation(selection).value.response, value)
       case Domain(value) => Schemas.Accepts(p.Operation(selection).value.error, value)
  }

  /** A stored result is one that the operation declares. */
  predicate Typed(p: Prepared, r: Record) {
    r.result.Some? && r.result.value.Ok? ==> Declared(p, r.selection, r.result.value.value)
  }

  /** A child was begun through an import that is bound for its parent's plugin. */
  predicate Imported(p: Prepared, T: Forest, r: Record) {
    r.parent.Some? && r.parent.value in T ==>
      p.Bound(T[r.parent.value].selection.provider, ImportIdentity(r.slot, r.selection.Key()), r.selection.provider)
  }

  /** One record hangs correctly below its parent. */
  ghost predicate Hangs(p: Prepared, T: Forest, next: nat, id: nat)
    requires id in T
  {
    var r := T[id];
    && id < next
    && p.Operation(r.selection).Ok? && Typed(p, r) && Imported(p, T, r)
    && r.authority.Within(p.authority)
    && (p.resource.Some? ==> r.resource == p.resource)
    && r.authority.operations <= p.Ceiling(r.selection.provider)
    && (r.parent.None? ==> r.ancestors == {})
    && (r.parent.Some? ==>
          && r.parent.value in T
          && r.ancestors == T[r.parent.value].ancestors + {r.parent.value})
    && forall a {:trigger a in r.ancestors} {:trigger Above(T, a, r)} | a in r.ancestors :: a < id && Above(T, a, r)
  }

  /** Ticket `a` is an ancestor that bounds record `r`. */
  ghost predicate Above(T: Forest, a: nat, r: Record) {
    && a in T && T[a].ancestors <= r.ancestors && T[a].root == r.root
    && r.authority.Within(T[a].authority)
    && (T[a].resource.Some? ==> r.resource == T[a].resource)
  }

  /** Parents precede children and stay as long as a child does. */
  ghost predicate TreeOk(p: Prepared, T: Forest, next: nat) {
    forall id {:trigger Hangs(p, T, next, id)} | id in T :: Hangs(p, T, next, id)
  }

  predicate Quiet(T: Forest, id: nat)
    requires id in T
  {
    T[id].native && forall c | c in T && T[c].parent == Some(id) :: T[c].quiescent
  }

  /** The derived flag is up to date everywhere. */
  ghost predicate Exact(T: Forest) { forall id {:trigger Quiet(T, id)} | id in T :: T[id].quiescent == Quiet(T, id) }

  /** ... up to date, except that `s` may still be taken for live. */
  ghost predicate ExactBut(T: Forest, s: nat) {
    forall id {:trigger Quiet(T, id)} | id in T :: T[id].quiescent == Quiet(T, id) || (id == s && !T[id].quiescent)
  }

  ghost predicate LifeOk(T: Forest, handed: multiset<nat>, id: nat)
    requires id in T
  {
    var r := T[id];
    && (r.logical == Pending ==> !r.native && !r.cancelled)
    && (r.logical == Ready ==> Quiet(T, id))
    && (r.logical == Logical.Cancelled ==> r.cancelled)
    && (r.logical in {Logical.Pending, Logical.Cancelled} ==> r.result == None && handed[id] == 0)
    && (r.logical in {Ready, Failed} ==> handed[id] == (if r.result == None then 1 else 0))
    && (r.delivered ==> handed[id] == 1)
    && (r.parent.Some? && r.logical in {Ready, Failed} ==> r.result.Some?)
    && (r.logical == Ready && r.result.Some? ==> r.result.value.Ok?)
    && (r.logical == Failed && r.result.Some? ==> r.result.value.Err?)
  }

  /** Each result is stored once, when the status turns terminal, and handed out at most once; that of a
      child stays until the child is released. */
  ghost predicate Lifecycle(T: Forest, handed: multiset<nat>, next: nat) {
    && (forall id {:trigger LifeOk(T, handed, id)} | id in T :: LifeOk(T, handed, id))
    && (forall id | id in handed :: id < next && handed[id] == 1)
  }

  /** No plugin instance serves two live tickets. */
  ghost predicate Providers(T: Forest) {
    forall a, b | a in T && b in T && !T[a].quiescent && !T[b].quiescent && a != b ::
      T[a].selection.provider != T[b].selection.provider
  }

  /** Below a revoked ticket every live child is cancelled, unless the parent is in `open`:
      those are the tickets whose children are being cancelled right now. */
  ghost predicate Closed(T: Forest, open: set<nat>) {
    forall c | c in T && T[c].parent.Some? && T[c].parent.value in T && !T[c].quiescent
               && T[T[c].parent.value].Revoked() && T[c].parent.value !in open ::
      T[c].cancelled
  }

  /** If any ancestor of `t` is revoked then `t` itself is cancelled. */
  ghost predicate ChainOk(T: Forest, t: nat)
    requires t in T
  {
    forall a | a in T[t].ancestors && a in T && T[a].Revoked() :: T[t].cancelled
  }

  // ----- the stack against the forest

  /** No instance is re-entered. */
  ghost predicate NoReentry(S: Stack) {
    forall i, j | 0 <= i < j < |S| :: S[i].provider != S[j].provider
  }

  /** An instance with a live ticket is on the stack only through that ticket. */
  ghost predicate HeldByTicket(T: Forest, S: Stack) {
    forall id, i | id in T && 0 <= i < |S| && !T[id].quiescent && S[i].provider == T[id].selection.provider ::
      S[i].ticket == Some(id)
  }

  /** A ticket's frame carries the ticket's frozen scope. */
  ghost predicate Carries(T: Forest, f: Frame) {
    f.ticket.Some? ==>
      && f.ticket.value in T
      && T[f.ticket.value].selection.provider == f.provider
      && T[f.ticket.value].authority == f.authority
      && T[f.ticket.value].resource == f.resource
      && (f.revoked ==> T[f.ticket.value].Revoked())
  }

  /** Ticketed frames come first, each a strict descendant of those below. */
  ghost predicate Descending(T: Forest, S: Stack) {
    forall i, j | 0 <= i < j < |S| && S[j].ticket.Some? ::
      S[i].ticket.Some? && S[j].ticket.value in T && S[i].ticket.value in T[S[j].ticket.value].ancestors
  }

  /** All frames serve the active root; revocation extends upwards and starts at a ticket. */
  ghost predicate Marked(S: Stack, root: Option<nat>) {
    && (forall i | 0 <= i < |S| :: Some(S[i].root) == root && (S[i].ticket.None? ==> !S[i].revoked))
    && (forall i, j | 0 <= i < j < |S| && S[i].revoked :: S[j].revoked)
  }

  /** Stack and forest agree. */
  ghost predicate StackOk(p: Prepared, T: Forest, S: Stack, root: Option<nat>) {
    && Attenuated(p, S)
    && NoReentry(S)
    && HeldByTicket(T, S)
    && (forall i | 0 <= i < |S| :: Carries(T, S[i]))
    && Descending(T, S)
    && Marked(S, root)
  }

  /** Every ticket and every frame is within the scope `bound`. */
  ghost predicate InBounds(bound: ScopedRequest, T: Forest, S: Stack) {
    && (forall id | id in T :: Confined(bound, T[id].authority, T[id].resource))
    && (forall i | 0 <= i < |S| :: Confined(bound, S[i].authority, S[i].resource))
  }

  /** No ticket on the stack is revoked, nor any of its ancestors. */
  ghost predicate Clean(T: Forest, S: Stack) {
    forall i | 0 <= i < |S| && S[i].ticket.Some? ::
      && S[i].ticket.value in T && !T[S[i].ticket.value].Revoked()
      && forall a | a in T[S[i].ticket.value].ancestors && a in T :: !T[a].Revoked()
  }

  /** The top frame is executing: its ticket is natively live and its revocation is in force. */
  ghost predicate TopOk(T: Forest, S: Stack, open: set<nat>) {
    if S == [] then open == {}
    else
      var top := S[|S| - 1];
      if top.ticket.None? then Clean(T, S)
      else
        && top.ticket.value in T
        && !T[top.ticket.value].native
        && top.revoked == T[top.ticket.value].Revoked()
        && ChainOk(T, top.ticket.value)
        && open <= T[top.ticket.value].ancestors
  }

  /** Ticket `id` may be entered: the kernel rests, or an ancestor of `id` has the top frame. */
  ghost predicate Enterable(T: Forest, S: Stack, id: nat)
    requires id in T
  {
    S == [] || (S[|S| - 1].ticket.Some? && S[|S| - 1].ticket.value in T[id].ancestors)
  }

  // ----- effects

  datatype EffectKind = Begin | Invoke | Access | Publish

  /** One protected effect, with the stack and the forest at the moment it took place, and the scope of the root
      on whose behalf it did. */
  datatype Effect = Effect(
    kind: EffectKind, caller: string, key: string, stack: Stack, tickets: Forest, bound: ScopedRequest)

  /** The effect was caused by calls that all still had their authority, and every provider on the
      stack was permitted to cause it. The root's own scope allowed it. */
  ghost predicate Lawful(p: Prepared, e: Effect) {
    && Clean(e.tickets, e.stack)
    && InBounds(e.bound, e.tickets, e.stack)
    && (forall f | f in e.stack :: !f.revoked)
    && e.key in (if e.kind == Publish then e.bound.authority.resources else e.bound.authority.operations)
    && (e.kind != Publish ==>
          e.key in p.authority.operations
          && forall f | f in e.stack :: p.Permits(f.provider, e.key) && e.key in f.authority.operations)
  }

  // ----- how a forest may change

  /** One record later: identity kept, flags only rise, a terminal status and its result stand. */
  ghost predicate Later(r: Record, s: Record) {
    && s.root == r.root && s.parent == r.parent && s.ancestors == r.ancestors && s.slot == r.slot
    && s.selection == r.selection && s.authority == r.authority && s.resource == r.resource
    && (r.native ==> s.native) && (r.quiescent ==> s.quiescent) && (r.delivered ==> s.delivered)
    && (r.cancelled ==> s.cancelled) && (r.abandoned ==> s.abandoned)
    && (r.logical != Pending ==> s.logical == r.logical && (s.result == r.result || s.result == None))
  }

  /** Forest `T` with next ticket number `n` may become `U` with `m`: numbers are never reused,
      and no ticket is born below one that was revoked or natively finished. */
  ghost predicate Evolves(T: Forest, n: nat, U: Forest, m: nat) {
    && n <= m
    && (forall id | id in U && id < n :: id in T && Later(T[id], U[id]))
    && (forall id, a | id in U && n <= id && a in U[id].ancestors && a in T ::
          !T[a].Revoked() && !T[a].native)
  }

  // ----- which tickets may vanish

  /** A child of a ticket at or below `t` that still works natively: its parent's code may consume it. */
  ghost predicate Consumable(T: Forest, t: nat, c: nat) {
    && c in T && T[c].parent.Some? && T[c].parent.value in T
    && Under(T, t, T[c].parent.value) && !T[T[c].parent.value].native
  }

  /** Ticket `x` is, or is below, a consumable child at or below `t`. */
  ghost predicate Exposes(T: Forest, t: nat, x: nat) {
    x in T && exists c {:trigger Consumable(T, t, c)} :: Consumable(T, t, c) && Under(T, c, x)
  }

  /** Only what is exposed at or below `t` may vanish. */
  ghost predicate Spared(T: Forest, U: Forest, t: nat) {
    forall x | x in T && x !in U :: Exposes(T, t, x)
  }

  /** Whoever has stopped working natively has left no child behind. */
  ghost predicate Consumed(T: Forest, U: Forest) {
    forall c | c in T && c in U && T[c].parent.Some? && T[c].parent.value in T && !T[T[c].parent.value].native ::
      T[c].parent.value in U && !U[T[c].parent.value].native
  }

  /** The tickets whose native work goes on. */
  ghost function Working(T: Forest): set<nat> { set id | id in T && !T[id].native }

  lemma ExposedBefore(p: Prepared, T: Forest, n: nat, U: Forest, t: nat, x: nat)
    requires TreeOk(p, T, n) && Evolves(T, n, U, n) && TreeOk(p, U, n) && Exposes(U, t, x)
    ensures Exposes(T, t, x)
  {
    AllYounger(p, U, n);
    var c :| Consumable(U, t, c) && Under(U, c, x);
    assert Later(T[c], U[c]) && Later(T[T[c].parent.value], U[T[c].parent.value]) && Later(T[x], U[x]);
    assert Consumable(T, t, c);
  }

  lemma SparedTrans(p: Prepared, T: Forest, n: nat, U: Forest, V: Forest, t: nat)
    requires TreeOk(p, T, n) && Evolves(T, n, U, n) && TreeOk(p, U, n)
    requires Spared(T, U, t) && Spared(U, V, t)
    ensures Spared(T, V, t)
  {
    hide Exposes;
    forall x | x in T && x !in V ensures Exposes(T, t, x) {
      if x in U { ExposedBefore(p, T, n, U, t, x); }
    }
  }

  /** What happens at or below a child happens below its parent. */
  lemma SparedUp(p: Prepared, T: Forest, n: nat, U: Forest, t: nat, c: nat)
    requires TreeOk(p, T, n) && c in T && t in T[c].ancestors && Spared(T, U, c)
    ensures Spared(T, U, t)
  {
    forall x | x in T && x !in U ensures Exposes(T, t, x) {
      assert Exposes(T, c, x);
      var d :| Consumable(T, c, d) && Under(T, d, x);
      assert Hangs(p, T, n, T[d].parent.value);
      assert Hangs(p, T, n, c);
      assert Consumable(T, t, d);
    }
  }

  lemma ConsumedTrans(p: Prepared, T: Forest, n: nat, U: Forest, m: nat, V: Forest)
    requires TreeOk(p, T, n) && Evolves(T, n, U, m) && Evolves(U, m, V, m) && TreeOk(p, U, m)
    requires Consumed(T, U) && Consumed(U, V)
    ensures Consumed(T, V)
  {
    AllYounger(p, T, n);
    forall c | c in T && c in V && T[c].parent.Some? && T[c].parent.value in T && !T[T[c].parent.value].native
      ensures T[c].parent.value in V && !V[T[c].parent.value].native
    {
      assert c in U && Later(T[c], U[c]);
    }
  }

  /** Below a ticket that has finished, no consumable child is left. */
  lemma NoneLeft(p: Prepared, T: Forest, n: nat, U: Forest, t: nat, c: nat)
    requires TreeOk(p, T, n) && TreeOk(p, U, n) && Exact(U) && Evolves(T, n, U, n)
    requires Consumed(T, U) && t in U && U[t].quiescent && Consumable(T, t, c)
    ensures c !in U
  {
    if c in U {
      AllYounger(p, U, n);
      var x := T[c].parent.value;
      assert Later(T[x], U[x]) && Later(T[c], U[c]);
      QuiescentDown(p, U, n, t, x);
    }
  }

  ghost predicate SameButQuiet(r: Record, s: Record) { s == r.(quiescent := s.quiescent) }

  /** Among tickets that stay as they are, together with all their children, the live ones stay live. */
  lemma {:induction false} LiveStays(p: Prepared, T: Forest, n: nat, U: Forest, kept: set<nat>, x: nat)
    requires TreeOk(p, T, n) && Exact(T) && Exact(U) && x in kept
    requires forall y | y in kept :: y in T && y in U && SameButQuiet(T[y], U[y])
    requires forall c | c in T && T[c].parent.Some? && T[c].parent.value in kept :: c in kept
    requires !T[x].quiescent
    ensures !U[x].quiescent
    decreases n - x
  {
    assert T[x].quiescent == Quiet(T, x) && U[x].quiescent == Quiet(U, x);
    if T[x].native {
      var c :| c in T && T[c].parent == Some(x) && !T[c].quiescent;
      assert Hangs(p, T, n, c) && Hangs(p, T, n, x);
      LiveStays(p, T, n, U, kept, c);
    }
  }

  /** Only `t` and its descendants change, apart from derived flags. */
  ghost predicate Touches(T: Forest, U: Forest, t: nat) {
    && (forall id | id in T && !Under(T, t, id) :: id in U && SameButQuiet(T[id], U[id]))
    && (forall id | id in U && id !in T :: Under(U, t, id))
  }

  /** Only strict descendants of `t` change, apart from derived flags. */
  ghost predicate Below(T: Forest, U: Forest, t: nat) {
    && Touches(T, U, t)
    && (t in T ==> t in U && SameButQuiet(T[t], U[t]))
  }

  // ----- lemmas

  lemma EvolvesTrans(p: Prepared, T: Forest, n: nat, U: Forest, m: nat, V: Forest, k: nat)
    requires Evolves(T, n, U, m) && Evolves(U, m, V, k)
    requires TreeOk(p, T, n) && TreeOk(p, U, m) && TreeOk(p, V, k)
    ensures Evolves(T, n, V, k)
  {
    forall id, a | id in V && n <= id && a in V[id].ancestors && a in T
      ensures !T[a].Revoked() && !T[a].native
    {
      assert Hangs(p, T, n, a);
      assert Hangs(p, V, k, id);
      assert a in V && Later(U[a], V[a]);
      assert Later(T[a], U[a]);
      if id < m { assert Later(U[id], V[id]); }
    }
  }

  lemma TouchesTrans(p: Prepared, T: Forest, U: Forest, V: Forest, n: nat, m: nat, k: nat, t: nat, c: nat)
    requires TreeOk(p, T, n) && TreeOk(p, U, m) && TreeOk(p, V, k)
    requires Evolves(T, n, U, m) && Evolves(U, m, V, k)
    requires Touches(T, U, t) && Touches(U, V, c)
    requires c == t || (c in U && t in U[c].ancestors)
    ensures Touches(T, V, t)
  {
    forall id | id in T && !Under(T, t, id) ensures id in V && SameButQuiet(T[id], V[id]) {
      assert id in U && SameButQuiet(T[id], U[id]);
      assert Hangs(p, U, m, id);
      assert !Under(U, c, id);
    }
    forall id | id in V && id !in T ensures Under(V, t, id) {
      assert Hangs(p, V, k, id);
      if id in U {
        assert Hangs(p, U, m, id);
        assert Later(U[id], V[id]);
      } else {
        assert Under(V, c, id);
        if c != t {
          assert Hangs(p, U, m, c);
          if c != id {
            assert Hangs(p, V, k, c);
            assert Later(U[c], V[c]);
          }
        }
      }
    }
  }

  ghost predicate ParentsFirst(T: Forest) {
    forall c | c in T && T[c].parent.Some? :: T[c].parent.value < c
  }

  lemma TreeParentsFirst(p: Prepared, T: Forest, n: nat)
    requires TreeOk(p, T, n)
    ensures ParentsFirst(T)
  {
    forall c | c in T && T[c].parent.Some? ensures T[c].parent.value < c { assert Hangs(p, T, n, c); }
  }

  /** Setting the derived flag of `id` leaves the rule for `id` and for every younger ticket alone. */
  lemma FlagKeepsYounger(T: Forest, id: nat, quiet: bool, x: nat)
    requires ParentsFirst(T) && id in T && x in T && id <= x
    ensures Quiet(T[id := T[id].(quiescent := quiet)], x) == Quiet(T, x)
  {
    var U := T[id := T[id].(quiescent := quiet)];
    assert forall c | c in T && T[c].parent == Some(x) :: U[c] == T[c];
    assert forall c | c in T :: U[c].parent == T[c].parent;
  }

  ghost predicate SameTree(T: Forest, U: Forest) {
    U.Keys == T.Keys && forall id | id in T :: SameButQuiet(T[id], U[id])
  }

  lemma TypedFacts(p: Prepared, T: Forest, n: nat, id: nat)
    requires TreeOk(p, T, n) && id in T
    ensures Typed(p, T[id])
  {
    assert Hangs(p, T, n, id);
  }

  lemma PutTyped(p: Prepared, T: Forest, n: nat, id: nat, r: Record)
    requires TreeOk(p, T, n) && id in T && Typed(p, r)
    ensures var U := T[id := r]; forall x | x in U :: Typed(p, U[x])
  {
    var U := T[id := r];
    forall x | x in U ensures Typed(p, U[x]) { TypedFacts(p, T, n, x); }
  }

  /** Derived flags play no part in results. */
  lemma TreeTyped(p: Prepared, T: Forest, U: Forest, n: nat)
    requires TreeOk(p, T, n) && U.Keys <= T.Keys
    requires forall x | x in U ::
      U[x].selection == T[x].selection && (U[x].result == T[x].result || U[x].result == None)
    ensures forall x | x in U :: Typed(p, U[x])
  {
    forall x | x in U ensures Typed(p, U[x]) { assert Hangs(p, T, n, x); }
  }

  lemma SameTreeKeys(T: Forest, U: Forest)
    requires SameTree(T, U)
    ensures T.Keys == U.Keys
  {
  }

  /** Derived flags play no part in the shape of the forest. */
  lemma FlagsKeepTree(p: Prepared, T: Forest, U: Forest, n: nat)
    requires TreeOk(p, T, n) && SameTree(T, U)
    ensures TreeOk(p, U, n)
  {
    forall id | id in U ensures Hangs(p, U, n, id) {
      assert Hangs(p, T, n, id);
    }
  }

  /** A raised flag is justified: the ticket has finished and so have its children. */
  ghost predicate Sound(T: Forest) { forall id {:trigger Quiet(T, id)} | id in T && T[id].quiescent :: Quiet(T, id) }

  /** The pass over the derived flags has dealt with the tickets from `id` on. */
  ghost predicate RefreshedFrom(T: Forest, U: Forest, id: nat) {
    && SameTree(T, U)
    && (forall x | x in U && T[x].quiescent :: U[x].quiescent)
    && (forall x {:trigger Quiet(U, x)} | x in U && id <= x :: U[x].quiescent == Quiet(U, x))
  }

  lemma AllYounger(p: Prepared, T: Forest, n: nat)
    requires TreeOk(p, T, n)
    ensures forall x | x in T :: x < n
  {
    forall x | x in T ensures x < n { assert Hangs(p, T, n, x); }
  }

  lemma FlagKept(T: Forest, U: Forest, id: nat)
    requires Sound(T) && RefreshedFrom(T, U, id + 1) && id in U
    ensures T[id].quiescent ==> Quiet(U, id)
  {
    if T[id].quiescent {
      assert Quiet(T, id);
      forall c | c in U && U[c].parent == Some(id) ensures U[c].quiescent { assert T[c].parent == Some(id); }
    }
  }

  lemma RefreshStep(T: Forest, U: Forest, id: nat)
    requires ParentsFirst(T) && Sound(T) && RefreshedFrom(T, U, id + 1) && id in U
    ensures RefreshedFrom(T, U[id := U[id].(quiescent := Quiet(U, id))], id)
  {
    hide Sound, Quiet, ParentsFirst;
    var V := U[id := U[id].(quiescent := Quiet(U, id))];
    FlagKept(T, U, id);
    SameParents(T, U);
    RefreshedYounger(U, id);
  }

  lemma RefreshStart(p: Prepared, T: Forest, n: nat)
    requires TreeOk(p, T, n)
    ensures RefreshedFrom(T, T, n) && ParentsFirst(T)
  {
    AllYounger(p, T, n);
    TreeParentsFirst(p, T, n);
  }

  lemma RefreshSkip(T: Forest, U: Forest, id: nat)
    requires RefreshedFrom(T, U, id + 1) && id !in U
    ensures RefreshedFrom(T, U, id)
  {
  }

  lemma RefreshDone(T: Forest, U: Forest)
    requires RefreshedFrom(T, U, 0)
    ensures SameTree(T, U) && Exact(U) && forall x | x in U && T[x].quiescent :: U[x].quiescent
  {
  }

  lemma SameParents(T: Forest, U: Forest)
    requires ParentsFirst(T) && SameTree(T, U)
    ensures ParentsFirst(U)
  {
  }

  lemma RefreshedYounger(U: Forest, id: nat)
    requires ParentsFirst(U) && id in U
    requires forall x {:trigger Quiet(U, x)} | x in U && id + 1 <= x :: U[x].quiescent == Quiet(U, x)
    ensures var V := U[id := U[id].(quiescent := Quiet(U, id))];
      forall x {:trigger Quiet(V, x)} | x in V && id <= x :: V[x].quiescent == Quiet(V, x)
  {
    hide Quiet, ParentsFirst;
    var V := U[id := U[id].(quiescent := Quiet(U, id))];
    forall x | x in V && id <= x ensures V[x].quiescent == Quiet(V, x) {
      FlagKeepsYounger(U, id, Quiet(U, id), x);
      if x != id { assert U[x].quiescent == Quiet(U, x); }
    }
  }

  // ----- quiescence means that the whole subtree has finished

  lemma {:induction false} QuiescentDown(p: Prepared, T: Forest, n: nat, id: nat, d: nat)
    requires TreeOk(p, T, n) && Exact(T)
    requires id in T && d in T && Under(T, id, d) && T[id].quiescent
    ensures T[d].quiescent && T[d].native
    decreases d
  {
    if d != id {
      assert Hangs(p, T, n, d);
      var q := T[d].parent.value;
      QuiescentDown(p, T, n, id, q);
      assert Quiet(T, q);
    }
    assert Quiet(T, d);
  }

  lemma {:induction false} NativeUp(p: Prepared, T: Forest, n: nat, id: nat)
    requires TreeOk(p, T, n) && Exact(T)
    requires id in T && forall d | d in T && Under(T, id, d) :: T[d].native
    ensures T[id].quiescent
    decreases n - id
  {
    assert Hangs(p, T, n, id);
    forall c | c in T && T[c].parent == Some(id) ensures T[c].quiescent {
      assert Hangs(p, T, n, c);
      forall d | d in T && Under(T, c, d) ensures T[d].native {
        assert Hangs(p, T, n, d);
      }
      NativeUp(p, T, n, c);
    }
    assert Quiet(T, id);
  }

  /** The derived flag of a ticket says that native work has ended in its whole subtree. */
  lemma QuiescentIffSubtreeFinished(p: Prepared, T: Forest, n: nat, id: nat)
    requires TreeOk(p, T, n) && Exact(T) && id in T
    ensures T[id].quiescent <==> forall d | d in T && Under(T, id, d) :: T[d].native
  {
    if T[id].quiescent {
      forall d | d in T && Under(T, id, d) ensures T[d].native { QuiescentDown(p, T, n, id, d); }
    } else if forall d | d in T && Under(T, id, d) :: T[d].native {
      NativeUp(p, T, n, id);
    }
  }

  // ----- removing a subtree

  function Without(T: Forest, id: nat): Forest {
    map d | d in T && !Under(T, id, d) :: T[d]
  }

  lemma WithoutKeepsTree(p: Prepared, T: Forest, n: nat, id: nat)
    requires TreeOk(p, T, n)
    ensures TreeOk(p, Without(T, id), n)
  {
    var U := Without(T, id);
    forall d | d in U ensures Hangs(p, U, n, d) {
      assert Hangs(p, T, n, d);
      forall a | a in U[d].ancestors ensures a in U {
        assert !Under(T, id, a);
      }
    }
  }

  /** Removing a quiescent subtree changes nobody else's derived flag. */
  lemma WithoutKeepsExact(p: Prepared, T: Forest, n: nat, id: nat)
    requires TreeOk(p, T, n) && Exact(T) && id in T && T[id].quiescent
    ensures Exact(Without(T, id))
  {
    var U := Without(T, id);
    forall x | x in U ensures U[x].quiescent == Quiet(U, x) {
      assert T[x].quiescent == Quiet(T, x);
      forall c | c in T && c !in U ensures T[c].quiescent { QuiescentDown(p, T, n, id, c); }
      if Quiet(U, x) {
        forall c | c in T && T[c].parent == Some(x) ensures T[c].quiescent {
          if c in U { assert U[c].parent == Some(x); }
        }
      }
    }
  }

  lemma {:induction false} ChildOnPath(p: Prepared, T: Forest, n: nat, id: nat, d: nat) returns (c: nat)
    requires TreeOk(p, T, n) && id in T && d in T && id in T[d].ancestors
    ensures c in T && T[c].parent == Some(id) && Under(T, c, d)
    decreases d
  {
    assert Hangs(p, T, n, d);
    var q := T[d].parent.value;
    if q == id {
      c := d;
    } else {
      c := ChildOnPath(p, T, n, id, q);
    }
  }

  ghost function WithoutAll(T: Forest, cs: seq<nat>): Forest {
    map d | d in T && (forall c | c in cs :: !Under(T, c, d)) :: T[d]
  }

  /** A ticket with all its children's subtrees gone is the last of its own subtree. */
  lemma WithoutChildren(p: Prepared, T: Forest, n: nat, id: nat, cs: seq<nat>)
    requires TreeOk(p, T, n) && id in T
    requires forall c :: c in cs <==> c in T && T[c].parent == Some(id)
    ensures WithoutAll(T, cs) - {id} == Without(T, id)
  {
    forall d | d in T && id in T[d].ancestors ensures d !in WithoutAll(T, cs) {
      var c := ChildOnPath(p, T, n, id, d);
    }
    forall d | d in T && !Under(T, id, d) ensures d in WithoutAll(T, cs) {
      forall c | c in cs ensures !Under(T, c, d) {
        assert Hangs(p, T, n, c);
        assert Hangs(p, T, n, d);
      }
    }
  }

  lemma WithoutOneMore(p: Prepared, T: Forest, n: nat, id: nat, cs: seq<nat>, k: nat)
    requires TreeOk(p, T, n) && id in T && k < |cs|
    requires forall c :: c in cs <==> c in T && T[c].parent == Some(id)
    requires forall i | 0 <= i < k :: cs[i] != cs[k]
    ensures cs[k] in WithoutAll(T, cs[..k])
    ensures Without(WithoutAll(T, cs[..k]), cs[k]) == WithoutAll(T, cs[..k + 1])
  {
    assert cs[k] in cs;
    assert Hangs(p, T, n, cs[k]);
    forall c | c in cs[..k] ensures !Under(T, c, cs[k]) {
      assert c in cs;
      assert Hangs(p, T, n, c);
      assert Hangs(p, T, n, id);
    }
    assert cs[..k + 1] == cs[..k] + [cs[k]];
    var U, V := WithoutAll(T, cs[..k]), WithoutAll(T, cs[..k + 1]);
    forall d ensures d in Without(U, cs[k]) <==> d in V {
      if d in T {
        assert (forall c | c in cs[..k + 1] :: !Under(T, c, d))
          <==> (forall c | c in cs[..k] :: !Under(T, c, d)) && !Under(T, cs[k], d);
      }
    }
    assert Without(U, cs[k]).Keys == V.Keys;
  }

  // ----- frames come and go

  /** The ticket of the top frame is an ancestor of `id`: so are those of all frames. */
  lemma StackAbove(p: Prepared, T: Forest, n: nat, S: Stack, id: nat)
    requires TreeOk(p, T, n) && Descending(T, S) && (forall i | 0 <= i < |S| :: Carries(T, S[i]))
    requires id in T && Enterable(T, S, id)
    ensures forall i | 0 <= i < |S| :: S[i].ticket.Some? && S[i].ticket.value in T[id].ancestors
    ensures forall i | 0 <= i < |S| :: S[i].ticket.value in T && Above(T, S[i].ticket.value, T[id])
    ensures forall i | 0 <= i < |S| :: S[i].ticket.value < id
  {
    assert Hangs(p, T, n, id);
    if S != [] {
      var a := S[|S| - 1].ticket.value;
      forall i | 0 <= i < |S| ensures S[i].ticket.Some? && S[i].ticket.value in T[id].ancestors {
        if i < |S| - 1 { assert S[i].ticket.value in T[a].ancestors; }
      }
    }
  }

  lemma TicketFrameAttenuates(p: Prepared, T: Forest, n: nat, S: Stack, id: nat, f: Frame)
    requires TreeOk(p, T, n) && Attenuated(p, S) && (forall i | 0 <= i < |S| :: Carries(T, S[i]))
    requires id in T && f.provider == T[id].selection.provider && f.authority == T[id].authority
      && f.resource == T[id].resource
    requires forall i | 0 <= i < |S| ::
      S[i].ticket.Some? && S[i].ticket.value in T && Above(T, S[i].ticket.value, T[id])
    ensures Attenuated(p, S + [f])
  {
    assert Hangs(p, T, n, id);
    assert FrameOk(p, f);
    forall i | 0 <= i < |S| ensures Attenuates(p, S[i], f) {
      assert FrameOk(p, S[i]);
      assert Carries(T, S[i]);
    }
    forall i, j | 0 <= i < j < |S| ensures Attenuates(p, S[i], S[j]) {}
  }

  lemma PushTicketFrame(p: Prepared, T: Forest, n: nat, S: Stack, root: Option<nat>, id: nat, f: Frame)
    requires TreeOk(p, T, n) && Providers(T) && StackOk(p, T, S, root)
    requires id in T && !T[id].quiescent && Some(T[id].root) == root
    requires Enterable(T, S, id) && ChainOk(T, id)
    requires f == Frame(T[id].root, Some(id), T[id].Revoked(), T[id].selection.provider, T[id].authority,
      T[id].resource)
    ensures StackOk(p, T, S + [f], root)
  {
    hide Attenuated, Above;
    StackAbove(p, T, n, S, id);
    TicketFrameAttenuates(p, T, n, S, id, f);
    forall i | 0 <= i < |S| ensures S[i].provider != f.provider {
      assert S[i].ticket != Some(id);
    }
    forall i | 0 <= i < |S| && S[i].revoked ensures f.revoked { assert Carries(T, S[i]); }
  }

  lemma PushCallFrame(p: Prepared, T: Forest, S: Stack, root: Option<nat>, f: Frame)
    requires StackOk(p, T, S, root) && Attenuated(p, S + [f])
    requires f.ticket.None? && !f.revoked && Some(f.root) == root
    requires S != [] ==> !S[|S| - 1].revoked
    requires forall id | id in T && !T[id].quiescent :: T[id].selection.provider != f.provider
    requires forall i | 0 <= i < |S| :: S[i].provider != f.provider
    ensures StackOk(p, T, S + [f], root)
  {
  }

  lemma StackBelow(p: Prepared, T: Forest, S: Stack, root: Option<nat>)
    requires StackOk(p, T, S, root) && S != []
    ensures StackOk(p, T, S[..|S| - 1], root)
  {
    var U := S[..|S| - 1];
    assert forall i | 0 <= i < |U| :: U[i] == S[i];
  }

  /** While the top frame keeps its authority, so does everything it runs under. */
  lemma TopClean(p: Prepared, T: Forest, n: nat, S: Stack, root: Option<nat>, open: set<nat>)
    requires TreeOk(p, T, n) && StackOk(p, T, S, root) && TopOk(T, S, open)
    requires S != [] ==> !S[|S| - 1].revoked
    ensures Clean(T, S) && forall f | f in S :: !f.revoked
  {
    if S != [] && S[|S| - 1].ticket.Some? {
      var t := S[|S| - 1].ticket.value;
      assert Hangs(p, T, n, t);
      forall i | 0 <= i < |S| && S[i].ticket.Some?
        ensures !T[S[i].ticket.value].Revoked()
        ensures forall a | a in T[S[i].ticket.value].ancestors && a in T :: !T[a].Revoked()
      {
        assert S[i].ticket.value == t || S[i].ticket.value in T[t].ancestors;
      }
    }
  }

  // ----- single steps on the forest

  /** Record `r` may be added to the forest, below the ticket of the top frame if there is one. */
  ghost predicate Newborn(p: Prepared, T: Forest, S: Stack, root: Option<nat>, r: Record) {
    && (if S == [] then r.parent == None && r.ancestors == {}
        else
          && S[|S| - 1].ticket.Some? && r.parent == S[|S| - 1].ticket && r.parent.value in T
          && r.ancestors == T[r.parent.value].ancestors + {r.parent.value})
    && Some(r.root) == root
    && p.Operation(r.selection).Ok? && Imported(p, T, r)
    && !r.native && r.logical == Pending && !r.quiescent && !r.delivered && !r.cancelled && !r.abandoned
    && r.result == None
    && (forall id | id in T && !T[id].quiescent :: T[id].selection.provider != r.selection.provider)
  }

  /** A fresh ticket `n` is recorded: the laws of the forest go on to hold. */
  lemma InsertTicketTree(p: Prepared, T: Forest, n: nat, S: Stack, root: Option<nat>, r: Record, f: Frame)
    requires TreeOk(p, T, n) && Newborn(p, T, S, root, r)
    requires forall id | id in T :: Some(T[id].root) == root
    requires FrameOk(p, f) && (S != [] ==> Attenuates(p, S[|S| - 1], f) && Carries(T, S[|S| - 1]))
    requires r.selection.provider == f.provider && r.authority == f.authority && r.resource == f.resource
    ensures TreeOk(p, T[n := r], n + 1)
  {
    var U := T[n := r];
    AllYounger(p, T, n);
    if S != [] { assert Hangs(p, T, n, r.parent.value); }
    forall id | id in U ensures Hangs(p, U, n + 1, id) {
      if id != n {
        assert Hangs(p, T, n, id);
      } else {
        forall a | a in r.ancestors ensures a < n && Above(U, a, r) { assert Hangs(p, T, n, a); }
      }
    }
  }

  lemma InsertTicket(p: Prepared, T: Forest, n: nat, S: Stack, root: Option<nat>, open: set<nat>,
                     handed: multiset<nat>, r: Record, f: Frame)
    requires TreeOk(p, T, n) && Lifecycle(T, handed, n) && Providers(T) && Closed(T, open) && Exact(T)
    requires Newborn(p, T, S, root, r)
    requires forall id | id in T :: Some(T[id].root) == root
    requires FrameOk(p, f) && (S != [] ==> Attenuates(p, S[|S| - 1], f) && Carries(T, S[|S| - 1]))
    requires r.selection.provider == f.provider && r.authority == f.authority && r.resource == f.resource
    requires S != [] ==> !T[r.parent.value].native && !T[r.parent.value].Revoked()
    ensures TreeOk(p, T[n := r], n + 1) && Lifecycle(T[n := r], handed, n + 1) && Providers(T[n := r])
    ensures Closed(T[n := r], open) && Exact(T[n := r])
  {
    hide TreeOk, Attenuates, FrameOk, Carries;
    var U := T[n := r];
    AllYounger(p, T, n);
    InsertTicketTree(p, T, n, S, root, r, f);
    forall x | x in U ensures U[x].quiescent == Quiet(U, x) && LifeOk(U, handed, x) {
      if x != n {
        assert LifeOk(T, handed, x);
        assert T[x].quiescent == Quiet(T, x);
        if r.parent == Some(x) { assert !T[x].native; }
        else { assert forall c | c in U && U[c].parent == Some(x) :: c in T && T[c] == U[c]; }
      }
    }
  }

  /** Attaching a ticket to the top frame leaves the order of authority alone. */
  lemma AttachTicket(p: Prepared, S: Stack, f: Frame, n: nat, root: Option<nat>)
    requires Attenuated(p, S + [f]) && NoReentry(S + [f]) && Marked(S + [f], root)
    ensures Attenuated(p, S + [f.(ticket := Some(n))]) && NoReentry(S + [f.(ticket := Some(n))])
    ensures Marked(S + [f.(ticket := Some(n))], root)
  {
    var V, W := S + [f], S + [f.(ticket := Some(n))];
    forall i | 0 <= i < |W|
      ensures W[i].provider == V[i].provider && W[i].authority == V[i].authority && W[i].resource == V[i].resource
      ensures W[i].root == V[i].root && W[i].revoked == V[i].revoked && FrameOk(p, W[i])
    {
      assert FrameOk(p, V[i]);
    }
    forall i, j | 0 <= i < j < |W| ensures Attenuates(p, W[i], W[j]) && W[i].provider != W[j].provider {
      assert Attenuates(p, V[i], V[j]) && V[i].provider != V[j].provider;
    }
    forall i, j | 0 <= i < j < |W| && W[i].revoked ensures W[j].revoked { assert V[i].revoked; }
    assert forall i | 0 <= i < |S| :: V[i] == W[i];
  }

  lemma AttachHeld(T: Forest, n: nat, S: Stack, r: Record, f: Frame)
    requires n !in T && HeldByTicket(T, S + [f]) && NoReentry(S + [f]) && f.ticket.None?
    requires r.selection.provider == f.provider
    ensures HeldByTicket(T[n := r], S + [f.(ticket := Some(n))])
  {
    var U, V, W := T[n := r], S + [f], S + [f.(ticket := Some(n))];
    forall i | 0 <= i < |S| ensures W[i].provider != f.provider {
      assert V[i].provider != V[|S|].provider;
    }
    forall id, i | id in U && 0 <= i < |W| && !U[id].quiescent && W[i].provider == U[id].selection.provider
      ensures W[i].ticket == Some(id)
    {
      if id != n {
        assert V[i].provider == T[id].selection.provider && V[i].ticket == Some(id);
        assert i != |S|;
      }
    }
  }

  /** ... and so do those of the stack, whose top frame now holds the ticket. */
  lemma InsertTicketStack(p: Prepared, T: Forest, n: nat, S: Stack, root: Option<nat>, open: set<nat>, r: Record,
                          f: Frame)
    requires TreeOk(p, T, n) && StackOk(p, T, S + [f], root) && TopOk(T, S, open)
    requires Newborn(p, T, S, root, r) && f.ticket.None? && !f.revoked
    requires r.selection.provider == f.provider && r.authority == f.authority && r.resource == f.resource
    requires S != [] ==> !S[|S| - 1].revoked
    ensures StackOk(p, T[n := r], S + [f.(ticket := Some(n))], root)
    ensures TopOk(T[n := r], S + [f.(ticket := Some(n))], open)
  {
    var U, V, W := T[n := r], S + [f], S + [f.(ticket := Some(n))];
    AllYounger(p, T, n);
    AttachTicket(p, S, f, n, root);
    AttachHeld(T, n, S, r, f);
    forall i | 0 <= i < |W| ensures Carries(U, W[i]) {
      if i < |S| { assert W[i] == V[i] && Carries(T, V[i]); }
    }
    if S != [] {
      var t := S[|S| - 1].ticket.value;
      assert Hangs(p, T, n, t);
      forall i | 0 <= i < |S| ensures W[i].ticket.Some? && W[i].ticket.value in r.ancestors {
        if i < |S| - 1 {
          assert V[i] == S[i] && V[|S| - 1] == S[|S| - 1];
          assert V[i].ticket.Some?;
        }
      }
      forall i, j | 0 <= i < j < |W| && W[j].ticket.Some?
        ensures W[i].ticket.Some? && W[j].ticket.value in U && W[i].ticket.value in U[W[j].ticket.value].ancestors
      {
        if j < |S| { assert V[i] == W[i] && V[j] == W[j]; }
      }
    }
  }

  /** The same tickets, each later. */
  ghost predicate Forward(T: Forest, U: Forest) {
    U.Keys == T.Keys && forall id | id in T :: Later(T[id], U[id])
  }

  lemma ForwardTree(p: Prepared, T: Forest, n: nat, U: Forest)
    requires TreeOk(p, T, n) && Forward(T, U) && forall x | x in U :: Typed(p, U[x])
    ensures TreeOk(p, U, n) && Evolves(T, n, U, n)
  {
    AllYounger(p, T, n);
    forall x | x in U ensures Hangs(p, U, n, x) {
      assert Hangs(p, T, n, x);
      forall a | a in U[x].ancestors ensures Above(U, a, U[x]) { assert Above(T, a, T[x]); }
    }
  }

  lemma ForwardStack(p: Prepared, T: Forest, S: Stack, root: Option<nat>, U: Forest)
    requires Forward(T, U)
    requires Providers(T) && StackOk(p, T, S, root)
    ensures Providers(U) && StackOk(p, U, S, root)
  {
    forall a, b | a in U && b in U && !U[a].quiescent && !U[b].quiescent && a != b
      ensures U[a].selection.provider != U[b].selection.provider
    {
      assert Later(T[a], U[a]) && Later(T[b], U[b]);
    }
    forall i | 0 <= i < |S| ensures Carries(U, S[i]) { assert Carries(T, S[i]); }
    forall id, i | id in U && 0 <= i < |S| && !U[id].quiescent && S[i].provider == U[id].selection.provider
      ensures S[i].ticket == Some(id)
    {
      assert Later(T[id], U[id]);
    }
    assert Descending(U, S) by {
      forall i, j | 0 <= i < j < |S| && S[j].ticket.Some?
        ensures S[i].ticket.Some? && S[j].ticket.value in U && S[i].ticket.value in U[S[j].ticket.value].ancestors
      {
        assert S[j].ticket.value in T;
      }
    }
  }

  lemma FlagsKeepLife(T: Forest, n: nat, handed: multiset<nat>, open: set<nat>, U: Forest)
    requires Lifecycle(T, handed, n) && Closed(T, open)
    requires SameTree(T, U) && forall id | id in T && T[id].quiescent :: U[id].quiescent
    ensures Lifecycle(U, handed, n) && Closed(U, open)
  {
    forall id | id in U ensures LifeOk(U, handed, id) {
      assert LifeOk(T, handed, id);
      assert Quiet(T, id) ==> Quiet(U, id);
    }
  }

  // ----- single steps

  /** A live ticket is marked as cancelled; its children follow. */
  function CancelledRecord(r: Record): Record {
    r.(cancelled := true, logical := if r.logical == Pending then Logical.Cancelled else r.logical)
  }

  lemma MarkKeeps(p: Prepared, T: Forest, n: nat, handed: multiset<nat>, open: set<nat>, id: nat)
    requires Lifecycle(T, handed, n) && Closed(T, open) && Exact(T) && id in T && !T[id].quiescent
    ensures Later(T[id], CancelledRecord(T[id]))
    ensures Lifecycle(T[id := CancelledRecord(T[id])], handed, n)
    ensures Closed(T[id := CancelledRecord(T[id])], open + {id}) && Exact(T[id := CancelledRecord(T[id])])
  {
    var U := T[id := CancelledRecord(T[id])];
    forall x | x in U ensures LifeOk(U, handed, x) && U[x].quiescent == Quiet(U, x) {
      assert LifeOk(T, handed, x);
      assert Quiet(T, x) == Quiet(U, x) by {
        assert forall c | c in T :: U[c].parent == T[c].parent && U[c].quiescent == T[c].quiescent;
      }
      assert T[x].quiescent == Quiet(T, x);
    }
  }

  /** After a settlement the derived flag of `id` may lag behind. */
  lemma SettleKeeps(p: Prepared, T: Forest, n: nat, handed: multiset<nat>, open: set<nat>, id: nat, s: Record)
    requires Lifecycle(T, handed, n) && Closed(T, open) && Exact(T) && id in T
    requires Later(T[id], s) && s.cancelled == T[id].cancelled && s.delivered == T[id].delivered && !T[id].native
    requires s.quiescent == T[id].quiescent
    requires s.logical == Pending ==> !s.native
    requires T[id].logical != Pending ==> s.result == T[id].result
    requires T[id].logical == Pending ==>
      || (s.logical == Pending && s.result == None)
      || (s.logical == Ready && s.result.Some? && s.result.value.Ok? && s.native && Quiet(T[id := s], id))
      || (s.logical == Failed && s.result.Some? && s.result.value.Err?)
    ensures Lifecycle(T[id := s], handed, n)
    ensures Closed(T[id := s], open + {id})
    ensures T[id].Revoked() || !s.Revoked() ==> Closed(T[id := s], open)
    ensures ExactBut(T[id := s], id) && Sound(T[id := s])
  {
    var U := T[id := s];
    assert forall c | c in T :: U[c].parent == T[c].parent && U[c].quiescent == T[c].quiescent;
    forall x | x in U
      ensures LifeOk(U, handed, x) && (U[x].quiescent == Quiet(U, x) || (x == id && !U[x].quiescent))
    {
      assert LifeOk(T, handed, x);
      assert x != id ==> Quiet(T, x) == Quiet(U, x);
      assert T[x].quiescent == Quiet(T, x);
    }
  }

  /** With a live child, a lagging flag is right after all. */
  lemma LiveChildExact(T: Forest, id: nat, c: nat)
    requires ExactBut(T, id) && c in T && T[c].parent == Some(id) && !T[c].quiescent
    ensures Exact(T)
  {
    forall x | x in T ensures T[x].quiescent == Quiet(T, x) {
      if x == id { assert !Quiet(T, id); }
    }
  }

  lemma ExactIsSound(T: Forest, id: nat)
    requires Exact(T)
    ensures ExactBut(T, id) && Sound(T)
  {
    forall x | x in T ensures T[x].quiescent == Quiet(T, x) { assert Quiet(T, x) == Quiet(T, x); }
  }

  /** Below a cancelled ticket whose own subtree is settled, every live ticket is cancelled. */
  lemma {:induction false} CancellationReachesOne(p: Prepared, T: Forest, n: nat, open: set<nat>, id: nat, d: nat)
    requires TreeOk(p, T, n) && Exact(T) && Closed(T, open)
    requires id in T && T[id].Revoked() && open <= T[id].ancestors
    requires d in T && id in T[d].ancestors && !T[d].quiescent
    ensures T[d].cancelled
    decreases d
  {
    assert Hangs(p, T, n, d);
    assert Hangs(p, T, n, id);
    var q := T[d].parent.value;
    assert Hangs(p, T, n, q);
    assert T[q].quiescent == Quiet(T, q);
    if q != id { CancellationReachesOne(p, T, n, open, id, q); }
  }

  lemma CancellationReaches(p: Prepared, T: Forest, n: nat, open: set<nat>, id: nat)
    requires TreeOk(p, T, n) && Exact(T) && Closed(T, open)
    requires id in T && T[id].Revoked() && open <= T[id].ancestors
    ensures forall d | d in T && id in T[d].ancestors && !T[d].quiescent :: T[d].cancelled
  {
    forall d | d in T && id in T[d].ancestors && !T[d].quiescent ensures T[d].cancelled {
      CancellationReachesOne(p, T, n, open, id, d);
    }
  }

  /** A child of an executing ticket may be entered. */
  lemma ChildMayBeEntered(p: Prepared, T: Forest, n: nat, open: set<nat>, t: nat, c: nat)
    requires TreeOk(p, T, n) && Closed(T, open) && t in T && ChainOk(T, t) && open <= T[t].ancestors
    requires c in T && T[c].parent == Some(t) && !T[c].quiescent
    ensures ChainOk(T, c) && t in T[c].ancestors && open <= T[c].ancestors
  {
    assert Hangs(p, T, n, c);
    assert Hangs(p, T, n, t);
    assert t !in open;
  }

  lemma BelowTrans(p: Prepared, T: Forest, U: Forest, V: Forest, n: nat, m: nat, k: nat, t: nat, c: nat)
    requires TreeOk(p, T, n) && TreeOk(p, U, m) && TreeOk(p, V, k)
    requires Evolves(T, n, U, m) && Evolves(U, m, V, k)
    requires Below(T, U, t)
    requires (c == t && Below(U, V, c)) || (c in U && t in U[c].ancestors && Touches(U, V, c))
    ensures Below(T, V, t)
  {
    TouchesTrans(p, T, U, V, n, m, k, t, c);
    if t in T {
      assert Hangs(p, U, m, t);
      if c != t { assert Hangs(p, U, m, c); assert !Under(U, c, t); }
    }
  }

  /** Only tickets below `t` changed, so `t` may go on executing. */
  lemma TopStays(p: Prepared, T: Forest, n: nat, U: Forest, m: nat, S: Stack, open: set<nat>, t: nat)
    requires TreeOk(p, T, n) && TreeOk(p, U, m) && TopOk(T, S, open) && Below(T, U, t)
    requires S != [] && S[|S| - 1].ticket == Some(t)
    ensures TopOk(U, S, open)
  {
    assert Hangs(p, T, n, t);
    forall a | a in T[t].ancestors ensures a in U && SameButQuiet(T[a], U[a]) {
      assert Hangs(p, T, n, a);
      assert !Under(T, t, a);
    }
  }

  lemma SiblingsApart(p: Prepared, T: Forest, n: nat, id: nat, c: nat, d: nat)
    requires TreeOk(p, T, n) && c in T && d in T && c != d
    requires T[c].parent == Some(id) && T[d].parent == Some(id)
    ensures !Under(T, c, d)
  {
    assert Hangs(p, T, n, c);
    assert Hangs(p, T, n, d);
    assert Hangs(p, T, n, id);
  }
}
