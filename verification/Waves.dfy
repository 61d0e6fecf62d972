/** The bookkeeping of a graph execution: the nodes of one wave, the retained tickets, and the windows
    of commits that were turned into waves. */
module Waves {
  import opened Wrappers
  import opened Dag
  import opened Graphs
  import opened Tickets
  import opened Worlds
  import opened KernelModel
  import C = CellStore
  import P = Prepared
  import V = Values
  import opened Bytes

  // ----- the nodes of one wave

  /** Where the nodes of a wave have gone. `ended` nodes met a kernel failure or a cancellation; the
      poll of a `lost` node could not be made. */
  datatype Marks = Marks(
    succeeded: set<string>, failed: set<string>, skipped: set<string>, ended: set<string>, lost: set<string>)
  {
    ghost function Started(pending: set<string>): set<string> { pending + succeeded + failed + ended + lost }
  }

  const NO_MARKS: Marks := Marks({}, {}, {}, {}, {})

  ghost function One(b: bool): nat { if b then 1 else 0 }

  /** In how many places node `n` is. */
  ghost function Places(waiting: set<string>, pending: set<string>, m: Marks, n: string): nat {
    One(n in waiting) + One(n in pending) + One(n in m.succeeded) + One(n in m.failed)
    + One(n in m.skipped) + One(n in m.ended) + One(n in m.lost)
  }

  /** Every active node is in exactly one place, and no other node is in any. */
  ghost predicate Partition(active: seq<string>, waiting: set<string>, pending: set<string>, m: Marks) {
    forall n {:trigger Places(waiting, pending, m, n)} :: Places(waiting, pending, m, n) == One(n in active)
  }

  /** A started node came after the success of all its active direct predecessors. */
  ghost predicate InTurn(g: Graph, active: seq<string>, started: set<string>, m: Marks) {
    forall n, p | n in started && n in g && p in g[n] && p in active :: p in m.succeeded || p in m.lost
  }

  /** A skipped node has an unsuccessful direct predecessor. */
  ghost predicate SkippedFor(g: Graph, m: Marks) {
    forall n | n in m.skipped :: n in g && exists p :: p in g[n] && (p in m.failed || p in m.skipped)
  }

  ghost predicate WaveOk(g: Graph, active: seq<string>, waiting: set<string>, pending: set<string>,
                         unsuccessful: set<string>, m: Marks, stopped: bool) {
    && (forall n | n in active :: n in g)
    && Partition(active, waiting, pending, m)
    && unsuccessful == m.failed + m.skipped
    && InTurn(g, active, m.Started(pending), m)
    && SkippedFor(g, m)
    && (m.ended != {} ==> stopped)
  }

  /** A new wave: everything waits. */
  lemma FreshWave(g: Graph, active: seq<string>, waiting: set<string>)
    requires (forall n | n in active :: n in g) && waiting == (set n | n in active)
    ensures WaveOk(g, active, waiting, {}, {}, NO_MARKS, false) && NO_MARKS.Started({}) == {}
  {
  }

  lemma WaitingIsActive(g: Graph, active: seq<string>, waiting: set<string>, pending: set<string>,
                        unsuccessful: set<string>, m: Marks, stopped: bool, n: string)
    requires WaveOk(g, active, waiting, pending, unsuccessful, m, stopped)
    ensures n in waiting ==> n in active && n in g && n !in pending && n !in m.Started(pending)
    ensures n in pending ==> n in active && n in g && n !in waiting
    ensures n in unsuccessful ==> n in active
  {
    assert Places(waiting, pending, m, n) == One(n in active);
  }

  /** A waiting node is skipped because a direct predecessor was unsuccessful. */
  lemma SkipNode(g: Graph, active: seq<string>, waiting: set<string>, pending: set<string>,
                 unsuccessful: set<string>, m: Marks, stopped: bool, n: string)
    requires WaveOk(g, active, waiting, pending, unsuccessful, m, stopped) && n in waiting
    requires n in g && exists p :: p in g[n] && p in unsuccessful
    ensures WaveOk(g, active, waiting - {n}, pending, unsuccessful + {n}, m.(skipped := m.skipped + {n}), stopped)
  {
    assert Places(waiting, pending, m, n) == One(n in active);
    var k := m.(skipped := m.skipped + {n});
    forall x ensures Places(waiting - {n}, pending, k, x) == One(x in active) {
      assert Places(waiting, pending, m, x) == One(x in active);
    }
  }

  /** A waiting node starts: none of its active direct predecessors is waiting, pending or unsuccessful. */
  lemma StartNode(g: Graph, active: seq<string>, waiting: set<string>, pending: set<string>,
                  unsuccessful: set<string>, m: Marks, n: string)
    requires WaveOk(g, active, waiting, pending, unsuccessful, m, false) && n in waiting && n in g
    requires forall p | p in g[n] :: p !in unsuccessful && p !in waiting && p !in pending
    ensures WaveOk(g, active, waiting - {n}, pending + {n}, unsuccessful, m, false)
    ensures n !in m.Started(pending) && m.Started(pending + {n}) == m.Started(pending) + {n}
  {
    assert Places(waiting, pending, m, n) == One(n in active);
    forall x ensures Places(waiting - {n}, pending + {n}, m, x) == One(x in active) {
      assert Places(waiting, pending, m, x) == One(x in active);
    }
    forall p | p in g[n] && p in active ensures p in m.succeeded || p in m.lost {
      assert Places(waiting, pending, m, p) == 1;
    }
  }

  // ----- the starts of a run

  /** The active nodes with their active direct predecessors. */
  ghost function Plan(g: Graph, active: seq<string>): Graph
    requires forall n | n in active :: n in g
  {
    Restricted(g, set n | n in active)
  }

  /** The start of a node: the number and the plan of its wave, which nodes had succeeded or been lost, and the
      request that its call carried. */
  datatype Start = Start(
    wave: nat, plan: Graph, node: string, succeeded: set<string>, lost: set<string>, request: V.Value)
  {
    /** Every active direct predecessor had succeeded. */
    ghost predicate Timely() { node in plan && plan[node] <= succeeded }
  }

  /** A start waits for all active direct predecessors, and passes only those that succeeded or were lost; so had
      these waited before. */
  ghost predicate StartOk(s: Start) {
    && s.node in s.plan && s.succeeded !! s.lost
    && forall n | n in s.plan && (n == s.node || n in s.succeeded + s.lost) :: s.plan[n] <= s.succeeded + s.lost
  }

  /** Exactly a start with a lost active direct predecessor is not timely. */
  lemma TimelyUnlessLost(s: Start)
    requires StartOk(s)
    ensures s.Timely() <==> s.plan[s.node] !! s.lost
  {
    if !(s.plan[s.node] !! s.lost) {
      var p :| p in s.plan[s.node] && p in s.lost;
      assert p !in s.succeeded;
    }
  }

  /** A node that another one comes after, along any path inside the active nodes, has succeeded before the other
      starts, unless it was lost itself. */
  lemma PathStartsLater(s: Start, x: string)
    requires StartOk(s) && Depends(s.plan, s.node, x)
    ensures x in s.succeeded + s.lost && (x in s.succeeded <==> x !in s.lost)
  {
    var p :| Walk(s.plan, p) && |p| >= 2 && p[0] == s.node && p[|p| - 1] == x;
    assert p[1] in s.plan[p[0]];
    assert forall k | 0 < k < |p[1..]| :: p[1..][k] == p[k + 1];
    ClosedHoldsWalk(s.plan, s.succeeded + s.lost, p[1..]);
    if x in s.lost { assert x !in s.succeeded; }
  }

  /** Node `x` started earlier in the same wave, and had succeeded, unless it was lost. */
  ghost predicate Follows(starts: seq<Start>, i: nat, x: string)
    requires i < |starts|
  {
    && x in StartedIn(starts[..i], starts[i].wave)
    && (x in starts[i].succeeded <==> x !in starts[i].lost)
  }

  /** Over all waves, a node starts after every node that it depends on inside its wave. */
  lemma RunKeepsPaths(starts: seq<Start>, wave: nat, plan: Graph)
    requires LogOk(starts, wave, plan)
    ensures forall i, x | 0 <= i < |starts| && Depends(starts[i].plan, starts[i].node, x) :: Follows(starts, i, x)
    ensures forall i | 0 <= i < |starts| ::
      && starts[i].node in starts[i].plan && starts[i].node !in StartedIn(starts[..i], starts[i].wave)
      && (starts[i].Timely() <==> starts[i].plan[starts[i].node] !! starts[i].lost)
  {
    hide Depends, StartOk, StartedIn;
    forall i | 0 <= i < |starts| ensures InLog(starts, i) && StartOk(starts[i]) {}
    forall i, x | 0 <= i < |starts| && Depends(starts[i].plan, starts[i].node, x) ensures Follows(starts, i, x) {
      assert InLog(starts, i);
      PathStartsLater(starts[i], x);
    }
    forall i | 0 <= i < |starts|
      ensures starts[i].node in starts[i].plan
      ensures starts[i].Timely() <==> starts[i].plan[starts[i].node] !! starts[i].lost
    {
      StartInPlan(starts[i]);
      TimelyUnlessLost(starts[i]);
    }
  }

  lemma StartInPlan(s: Start)
    requires StartOk(s)
    ensures s.node in s.plan
  {
  }

  /** The nodes that a wave has started. */
  ghost function StartedIn(starts: seq<Start>, wave: nat): set<string> {
    set i | 0 <= i < |starts| && starts[i].wave == wave :: starts[i].node
  }

  /** Waves follow one another, each has one plan, no node starts twice in a wave, and what a start has waited for
      has started before it in its wave. */
  ghost predicate InLog(starts: seq<Start>, i: nat)
    requires i < |starts|
  {
    var s := starts[i];
    && StartOk(s) && s.node !in StartedIn(starts[..i], s.wave)
    && s.succeeded + s.lost <= StartedIn(starts[..i], s.wave)
    && (0 < i ==> starts[i - 1].wave <= s.wave)
    && forall j | 0 <= j < i && starts[j].wave == s.wave :: starts[j].plan == s.plan
  }

  /** The starts of all waves so far; the last wave has number `wave` and plan `plan`. */
  ghost predicate LogOk(starts: seq<Start>, wave: nat, plan: Graph) {
    && (forall i {:trigger InLog(starts, i)} | 0 <= i < |starts| :: InLog(starts, i))
    && forall i | 0 <= i < |starts| :: starts[i].wave <= wave && (starts[i].wave == wave ==> starts[i].plan == plan)
  }

  lemma EarlierInLog(starts: seq<Start>, more: seq<Start>, i: nat)
    requires starts <= more && i < |starts| && InLog(starts, i)
    ensures InLog(more, i)
  {
    assert more[..i] == starts[..i];
  }

  lemma OneMoreInLog(starts: seq<Start>, wave: nat, plan: Graph, s: Start)
    requires LogOk(starts, wave, plan) && StartOk(s) && s.wave == wave && s.plan == plan
    requires s.node !in StartedIn(starts, wave) && s.succeeded + s.lost <= StartedIn(starts, wave)
    ensures LogOk(starts + [s], wave, plan) && StartedIn(starts + [s], wave) == StartedIn(starts, wave) + {s.node}
  {
    hide StartOk;
    var more := starts + [s];
    assert more[..|starts|] == starts;
    forall i | 0 <= i < |more| ensures InLog(more, i) {
      if i < |starts| { EarlierInLog(starts, more, i); }
    }
    forall n ensures n in StartedIn(more, wave) <==> n in StartedIn(starts, wave) + {s.node} {
      if n == s.node { assert more[|starts|].node == n; }
      if n in StartedIn(starts, wave) {
        var i :| 0 <= i < |starts| && starts[i].wave == wave && starts[i].node == n;
        assert more[i].node == n;
      }
    }
  }

  /** The starts of each wave follow the order by names of its plan. */
  ghost predicate InNameOrder(starts: seq<Start>) {
    forall i, j | 0 <= i < j < |starts| && starts[i].wave == starts[j].wave ::
      ListedBefore(starts[i].plan, starts[i].node, starts[j].node)
  }

  ghost predicate ListedBefore(plan: Graph, a: string, b: string) {
    Complete(plan) && NameOrder(plan).Ok? && Before(NameOrder(plan).value, a, b)
  }

  /** A pass that starts nodes of a fresh wave in the order of the active nodes starts them in order by names. */
  lemma PassInOrder(starts: seq<Start>, more: seq<Start>, active: seq<string>, wave: nat, plan: Graph)
    requires starts <= more && InNameOrder(starts) && LogOk(more, wave, plan)
    requires Complete(plan) && NameOrder(plan) == Ok(active)
    requires forall i | |starts| <= i < |more| :: more[i].wave == wave
    requires forall i, j | |starts| <= i < j < |more| :: Before(active, more[i].node, more[j].node)
    requires more == starts || StartedIn(starts, wave) == {}
    ensures InNameOrder(more)
  {
    hide InLog, Before;
    if StartedIn(starts, wave) == {} { NotBegun(starts, wave); }
    forall i, j | 0 <= i < j < |more| && more[i].wave == more[j].wave
      ensures ListedBefore(more[i].plan, more[i].node, more[j].node)
    {
      if j >= |starts| { assert more[i].plan == plan; }
    }
  }

  lemma NotBegun(starts: seq<Start>, wave: nat)
    requires StartedIn(starts, wave) == {}
    ensures forall i | 0 <= i < |starts| :: starts[i].wave != wave
  {
    assert forall i | 0 <= i < |starts| && starts[i].wave == wave :: starts[i].node in StartedIn(starts, wave);
  }

  /** A new wave has started nothing. */
  lemma NextWave(starts: seq<Start>, wave: nat, plan: Graph, next: Graph)
    requires LogOk(starts, wave, plan)
    ensures LogOk(starts, wave + 1, next) && StartedIn(starts, wave + 1) == {}
  {
  }

  /** The starts of a run so far. Nodes are lost, and starts are not timely, only where `excused`. */
  ghost predicate StartsOk(starts: seq<Start>, lost: set<string>, excused: bool) {
    excused || (lost == {} && forall i | 0 <= i < |starts| :: starts[i].lost == {})
  }

  ghost function StartOf(g: Graph, active: seq<string>, m: Marks, n: string, wave: nat, request: V.Value): Start
    requires forall x | x in active :: x in g
  {
    Start(wave, Plan(g, active), n, m.succeeded, m.lost, request)
  }

  /** The start of a node whose turn it is is one more good start. */
  lemma OneMoreStart(g: Graph, active: seq<string>, waiting: set<string>, pending: set<string>,
                     unsuccessful: set<string>, m: Marks, n: string, wave: nat, request: V.Value)
    requires WaveOk(g, active, waiting, pending, unsuccessful, m, false) && n in waiting && n in g
    requires forall p | p in g[n] :: p !in unsuccessful && p !in waiting && p !in pending
    ensures StartOk(StartOf(g, active, m, n, wave, request))
    ensures n !in m.Started(pending) && m.succeeded + m.lost <= m.Started(pending)
  {
    var s := StartOf(g, active, m, n, wave, request);
    assert Places(waiting, pending, m, n) == One(n in active);
    forall p | p in g[n] && p in active ensures p in m.succeeded || p in m.lost {
      assert Places(waiting, pending, m, p) == 1;
    }
    forall p ensures !(p in m.succeeded && p in m.lost) {
      assert Places(waiting, pending, m, p) == One(p in active);
    }
    forall x | x in s.plan && (x == n || x in m.succeeded + m.lost) ensures s.plan[x] <= m.succeeded + m.lost {
      forall p | p in s.plan[x] ensures p in m.succeeded + m.lost { assert p in g[x] && p in active; }
    }
  }

  lemma StartsStay(starts: seq<Start>, lost: set<string>, excused: bool, now: set<string>, later: bool)
    requires StartsOk(starts, lost, excused) && (excused ==> later) && (now <= lost || later)
    ensures StartsOk(starts, now, later)
  {
  }

  /** A lost node does not hold back the nodes that depend on it: `b`, which depends on `a`, starts although
      `a` has not succeeded. The steps are those of a wave: `a` starts, is lost, and it is `b`'s turn. */
  lemma LostDoesNotBlock(request: V.Value)
    ensures var g: Graph := map["a" := {}, "b" := {"a"}];
      var active, lost := ["a", "b"], NO_MARKS.(lost := {"a"});
      && WaveOk(g, active, {"a", "b"}, {}, {}, NO_MARKS, false)
      && WaveOk(g, active, {"b"}, {"a"}, {}, NO_MARKS, false)
      && WaveOk(g, active, {"b"}, {}, {}, lost, false)
      && WaveOk(g, active, {}, {"b"}, {}, lost, false)
      && StartOk(StartOf(g, active, lost, "b", 0, request)) && !StartOf(g, active, lost, "b", 0, request).Timely()
  {
    var g: Graph := map["a" := {}, "b" := {"a"}];
    var active, lost := ["a", "b"], NO_MARKS.(lost := {"a"});
    assert (set n | n in active) == {"a", "b"};
    FreshWave(g, active, {"a", "b"});
    StartNode(g, active, {"a", "b"}, {}, {}, NO_MARKS, "a");
    assert {"a", "b"} - {"a"} == {"b"} && {} + {"a"} == {"a"};
    SettleNode(g, active, {"b"}, {"a"}, {}, NO_MARKS, false, "a");
    assert {"a"} - {"a"} == {} && {} + {"a"} == {"a"};
    StartNode(g, active, {"b"}, {}, {}, lost, "b");
    assert {"b"} - {"b"} == {} && {} + {"b"} == {"b"};
    OneMoreStart(g, active, {"b"}, {}, {}, lost, "b", 0, request);
    assert "a" in StartOf(g, active, lost, "b", 0, request).plan["b"];
  }

  /** A pending node goes to one of the final places. */
  lemma SettleNode(g: Graph, active: seq<string>, waiting: set<string>, pending: set<string>,
                   unsuccessful: set<string>, m: Marks, stopped: bool, n: string)
    requires WaveOk(g, active, waiting, pending, unsuccessful, m, stopped) && n in pending
    ensures WaveOk(g, active, waiting, pending - {n}, unsuccessful, m.(succeeded := m.succeeded + {n}), stopped)
    ensures WaveOk(g, active, waiting, pending - {n}, unsuccessful + {n}, m.(failed := m.failed + {n}), stopped)
    ensures WaveOk(g, active, waiting, pending - {n}, unsuccessful, m.(ended := m.ended + {n}), true)
    ensures WaveOk(g, active, waiting, pending - {n}, unsuccessful, m.(lost := m.lost + {n}), stopped)
    ensures m.(succeeded := m.succeeded + {n}).Started(pending - {n}) == m.Started(pending)
    ensures m.(failed := m.failed + {n}).Started(pending - {n}) == m.Started(pending)
    ensures m.(ended := m.ended + {n}).Started(pending - {n}) == m.Started(pending)
    ensures m.(lost := m.lost + {n}).Started(pending - {n}) == m.Started(pending)
  {
    assert Places(waiting, pending, m, n) == One(n in active);
    var a, b := m.(succeeded := m.succeeded + {n}), m.(failed := m.failed + {n});
    var c, d := m.(ended := m.ended + {n}), m.(lost := m.lost + {n});
    forall x
      ensures Places(waiting, pending - {n}, a, x) == One(x in active)
        && Places(waiting, pending - {n}, b, x) == One(x in active)
      ensures Places(waiting, pending - {n}, c, x) == One(x in active)
        && Places(waiting, pending - {n}, d, x) == One(x in active)
    {
      assert Places(waiting, pending, m, x) == One(x in active);
    }
    assert a.Started(pending - {n}) == m.Started(pending) == b.Started(pending - {n});
    assert c.Started(pending - {n}) == m.Started(pending) == d.Started(pending - {n});
  }

  lemma Stopping(g: Graph, active: seq<string>, waiting: set<string>, pending: set<string>,
                 unsuccessful: set<string>, m: Marks, stopped: bool)
    requires WaveOk(g, active, waiting, pending, unsuccessful, m, stopped)
    ensures WaveOk(g, active, waiting, pending, unsuccessful, m, true)
  {
  }

  /** All pending nodes end together. */
  lemma EndAll(g: Graph, active: seq<string>, waiting: set<string>, pending: set<string>,
               unsuccessful: set<string>, m: Marks)
    requires WaveOk(g, active, waiting, pending, unsuccessful, m, true)
    ensures WaveOk(g, active, waiting, {}, unsuccessful, m.(ended := m.ended + pending), true)
    ensures m.(ended := m.ended + pending).Started({}) == m.Started(pending)
  {
    var k := m.(ended := m.ended + pending);
    forall x ensures Places(waiting, {}, k, x) == One(x in active) {
      assert Places(waiting, pending, m, x) == One(x in active);
    }
    assert k.Started({}) == m.Started(pending);
  }

  /** A node with an unsuccessful direct predecessor is never started. */
  lemma UnsuccessfulBlocks(g: Graph, active: seq<string>, waiting: set<string>, pending: set<string>,
                           unsuccessful: set<string>, m: Marks, stopped: bool, n: string, p: string)
    requires WaveOk(g, active, waiting, pending, unsuccessful, m, stopped)
    requires n in active && p in g[n] && p in unsuccessful
    ensures n !in m.Started(pending)
  {
    assert Places(waiting, pending, m, p) == One(p in active);
    assert Places(waiting, pending, m, n) == One(n in active);
  }

  /** A wave that has run out of nodes without being stopped: every active node has succeeded, failed
      or been skipped, and exactly those nodes were skipped that follow an unsuccessful one. */
  lemma FinishedWave(g: Graph, active: seq<string>, unsuccessful: set<string>, m: Marks)
    requires WaveOk(g, active, {}, {}, unsuccessful, m, false) && m.lost == {}
    ensures forall n | n in active :: n in m.succeeded || n in m.failed || n in m.skipped
    ensures forall n | n in active :: n in m.skipped <==> exists p :: p in g[n] && p in unsuccessful
    ensures forall n, p | n in active && p in g[n] && p in active && n !in m.skipped :: p in m.succeeded
  {
    forall n | n in active
      ensures n in m.succeeded || n in m.failed || n in m.skipped
      ensures n in m.skipped <==> exists p :: p in g[n] && p in unsuccessful
    {
      assert Places({}, {}, m, n) == 1;
      if p :| p in g[n] && p in unsuccessful { UnsuccessfulBlocks(g, active, {}, {}, unsuccessful, m, false, n, p); }
    }
  }

  // ----- retained tickets

  /** A ticket that the host holds: begun by the host, and not released. */
  predicate Kept(T: Forest, root: nat, t: Ticket) {
    t.root == root && t.id in T && T[t.id].root == root && T[t.id].parent.None?
  }

  ghost predicate TicketsOk(T: Forest, root: nat, pending: map<string, Ticket>, draining: seq<Ticket>) {
    && (forall n | n in pending ::
          Kept(T, root, pending[n]) && !T[pending[n].id].delivered && !T[pending[n].id].cancelled)
    && (forall i | 0 <= i < |draining| :: Kept(T, root, draining[i]))
    && (forall n, k | n in pending && k in pending && n != k :: pending[n].id != pending[k].id)
    && (forall i, j | 0 <= i < j < |draining| :: draining[i].id != draining[j].id)
    && (forall n, i | n in pending && 0 <= i < |draining| :: pending[n].id != draining[i].id)
  }

  /** Work on one host ticket leaves the others as they are. */
  lemma OthersKept(p: P.Prepared, a: World, b: World, root: nat, id: nat, t: Ticket)
    requires Step(p, a, b, id) && Kept(a.state.tickets, root, t) && t.id != id
    ensures Kept(b.state.tickets, root, t)
    ensures SameButQuiet(a.state.tickets[t.id], b.state.tickets[t.id])
  {
    assert Hangs(p, a.state.tickets, a.state.nextTicket, t.id);
    assert !Under(a.state.tickets, id, t.id);
  }

  lemma TicketsStay(p: P.Prepared, a: World, b: World, root: nat, id: nat, pending: map<string, Ticket>,
                    draining: seq<Ticket>)
    requires Step(p, a, b, id) && TicketsOk(a.state.tickets, root, pending, draining)
    requires (forall n | n in pending :: pending[n].id != id)
      && (forall i | 0 <= i < |draining| :: draining[i].id != id)
    ensures TicketsOk(b.state.tickets, root, pending, draining)
  {
    forall n | n in pending
      ensures Kept(b.state.tickets, root, pending[n])
      ensures !b.state.tickets[pending[n].id].delivered && !b.state.tickets[pending[n].id].cancelled
    {
      OthersKept(p, a, b, root, id, pending[n]);
    }
    forall i | 0 <= i < |draining| ensures Kept(b.state.tickets, root, draining[i]) {
      OthersKept(p, a, b, root, id, draining[i]);
    }
  }

  // ----- windows of commits

  /** Commits number `from` up to `to` were turned into a wave over the watched properties they changed. */
  datatype Window = Window(from: nat, to: u64, changed: set<string>)

  ghost predicate Watches(cells: map<C.Id, C.Cell>, id: C.Id, name: string)
    requires id in cells
  {
    cells[id].property.watch && cells[id].Name() == name
  }

  ghost predicate TouchedIn(history: seq<set<C.Id>>, id: C.Id, from: nat, to: nat) {
    exists k | from <= k < to && k < |history| :: id in history[k]
  }

  /** A watched cell of that name was touched by a commit of the window. */
  ghost predicate ChangedIn(cells: map<C.Id, C.Cell>, history: seq<set<C.Id>>, from: nat, to: nat, name: string) {
    exists id | id in cells :: Watches(cells, id, name) && TouchedIn(history, id, from, to)
  }

  ghost predicate WindowOk(cells: map<C.Id, C.Cell>, history: seq<set<C.Id>>, w: Window) {
    && w.from <= w.to <= |history|
    && forall name :: name in w.changed <==> ChangedIn(cells, history, w.from, w.to, name)
  }

  /** The windows follow one another without a gap, from the epoch of admission up to the cursor. */
  ghost predicate WindowsOk(cells: map<C.Id, C.Cell>, history: seq<set<C.Id>>, windows: seq<Window>, start: nat,
                            cursor: nat) {
    && start <= cursor <= |history|
    && (forall i | 0 <= i < |windows| :: WindowOk(cells, history, windows[i]))
    && (forall i | 0 < i < |windows| :: windows[i].from == windows[i - 1].to)
    && (if windows == [] then start == cursor else windows[0].from == start && windows[|windows| - 1].to == cursor)
  }

  lemma WindowsStay(a: World, b: World, windows: seq<Window>, start: nat, cursor: nat)
    requires CellsAdvance(a, b) && WindowsOk(a.cells, a.history, windows, start, cursor)
    ensures WindowsOk(b.cells, b.history, windows, start, cursor)
  {
    forall i | 0 <= i < |windows| ensures WindowOk(b.cells, b.history, windows[i]) {
      var w := windows[i];
      assert WindowOk(a.cells, a.history, w);
      forall name ensures ChangedIn(a.cells, a.history, w.from, w.to, name) <==>
        ChangedIn(b.cells, b.history, w.from, w.to, name)
      {
        forall id | id in a.cells
          ensures Watches(a.cells, id, name) == Watches(b.cells, id, name)
          ensures TouchedIn(a.history, id, w.from, w.to) == TouchedIn(b.history, id, w.from, w.to)
        {
        }
      }
    }
  }

  lemma OneMoreWindow(cells: map<C.Id, C.Cell>, history: seq<set<C.Id>>, windows: seq<Window>, start: nat, cursor: nat,
                      changed: set<string>)
    requires WindowsOk(cells, history, windows, start, cursor) && |history| <= MAX_U64
    requires forall name :: name in changed <==> ChangedIn(cells, history, cursor, |history|, name)
    ensures WindowsOk(cells, history, windows + [Window(cursor, |history|, changed)], start, |history|)
  {
  }

  /** Every commit since admission, up to the cursor, falls in exactly one window, and that window
      names each watched property the commit touched: no change is lost, and none is reported twice. */
  lemma {:induction false} CommitHasOneWindow(cells: map<C.Id, C.Cell>, history: seq<set<C.Id>>, windows: seq<Window>,
                                              start: nat, cursor: nat, k: nat) returns (i: nat)
    requires WindowsOk(cells, history, windows, start, cursor) && start <= k < cursor
    ensures i < |windows| && windows[i].from <= k < windows[i].to
    ensures forall j | 0 <= j < |windows| && j != i :: !(windows[j].from <= k < windows[j].to)
    ensures forall id | id in history[k] && id in cells && cells[id].property.watch ::
      cells[id].Name() in windows[i].changed
    decreases |windows|
  {
    var last := |windows| - 1;
    assert forall j | 0 <= j < |windows| :: WindowOk(cells, history, windows[j]);
    if windows[last].from <= k {
      i := last;
      WindowsBefore(cells, history, windows, start, cursor, last);
    } else {
      i := CommitHasOneWindow(cells, history, windows[..last], start, windows[last].from, k);
      assert forall j | 0 <= j < last :: windows[j] == windows[..last][j];
    }
    forall id | id in history[k] && id in cells && cells[id].property.watch
      ensures cells[id].Name() in windows[i].changed
    {
      assert WindowOk(cells, history, windows[i]);
      assert Watches(cells, id, cells[id].Name()) && TouchedIn(history, id, windows[i].from, windows[i].to);
    }
  }

  lemma {:induction false} WindowsBefore(cells: map<C.Id, C.Cell>, history: seq<set<C.Id>>, windows: seq<Window>,
                                         start: nat, cursor: nat, n: nat)
    requires WindowsOk(cells, history, windows, start, cursor) && n < |windows|
    ensures forall j | 0 <= j < n :: windows[j].to <= windows[n].from
    decreases n
  {
    if n > 0 {
      WindowsBefore(cells, history, windows, start, cursor, n - 1);
      assert WindowOk(cells, history, windows[n - 1]);
      assert windows[n].from == windows[n - 1].to;
    }
  }

  /** A window reports nothing but watched properties that one of its commits touched. */
  lemma NoPhantomChange(cells: map<C.Id, C.Cell>, history: seq<set<C.Id>>, windows: seq<Window>, start: nat,
                        cursor: nat, i: nat, name: string) returns (id: C.Id, k: nat)
    requires WindowsOk(cells, history, windows, start, cursor) && i < |windows| && name in windows[i].changed
    ensures id in cells && Watches(cells, id, name) && windows[i].from <= k < windows[i].to && k < |history|
      && id in history[k]
  {
    assert WindowOk(cells, history, windows[i]);
    id :| id in cells && Watches(cells, id, name) && TouchedIn(history, id, windows[i].from, windows[i].to);
    k :| windows[i].from <= k < windows[i].to && k < |history| && id in history[k];
  }

  // ----- the requests of a run

  /** `begun` tells for each wave after the first which window began it. */
  ghost predicate BegunBy(windows: seq<Window>, begun: seq<nat>) {
    && (forall k | 0 <= k < |begun| :: begun[k] < |windows|)
    && (forall j, k | 0 <= j < k < |begun| :: begun[j] < begun[k])
  }

  /** What a node of a wave is asked: the action's payload in the first wave, and afterwards its own hook request,
      about the properties that were changed in the window that began the wave. */
  ghost function Asked(c: CompiledGraph, payload: V.Value, windows: seq<Window>, begun: seq<nat>, wave: nat,
                       node: string): V.Value
    requires node in c.nodes && BegunBy(windows, begun) && wave <= |begun|
  {
    if wave == 0 then payload
    else
      var w := windows[begun[wave - 1]];
      HookRequest(c.nodes[node], w.changed, w.to)
  }

  /** Wave number `wave` can have a node: the first one any, a later one those that its window activates. */
  ghost predicate Activated(c: CompiledGraph, windows: seq<Window>, begun: seq<nat>, wave: nat, node: string)
    requires BegunBy(windows, begun) && wave <= |begun|
  {
    wave > 0 ==> node in Active(c, StateTriggers(windows[begun[wave - 1]].changed))
  }

  /** Every start so far carried the request of its own node in its own wave. */
  ghost predicate RequestsOk(c: CompiledGraph, payload: V.Value, starts: seq<Start>, windows: seq<Window>,
                             begun: seq<nat>, wave: nat)
  {
    && |begun| == wave && BegunBy(windows, begun)
    && forall i | 0 <= i < |starts| ::
         && starts[i].wave <= wave && starts[i].node in c.nodes
         && starts[i].request == Asked(c, payload, windows, begun, starts[i].wave, starts[i].node)
         && Activated(c, windows, begun, starts[i].wave, starts[i].node)
  }

  /** The requests at hand are those of the present wave. */
  ghost predicate AtHand(c: CompiledGraph, payload: V.Value, windows: seq<Window>, begun: seq<nat>, wave: nat,
                         active: seq<string>, requests: map<string, V.Value>)
  {
    && |begun| == wave && BegunBy(windows, begun)
    && forall n | n in active ::
         && n in c.nodes && Activated(c, windows, begun, wave, n)
         && Asked(c, payload, windows, begun, wave, n) == if n in requests then requests[n] else payload
  }

  lemma MoreWindows(c: CompiledGraph, payload: V.Value, starts: seq<Start>, windows: seq<Window>, more: seq<Window>,
                    begun: seq<nat>, wave: nat, active: seq<string>, requests: map<string, V.Value>)
    requires windows <= more && RequestsOk(c, payload, starts, windows, begun, wave)
    requires AtHand(c, payload, windows, begun, wave, active, requests)
    ensures RequestsOk(c, payload, starts, more, begun, wave)
    ensures AtHand(c, payload, more, begun, wave, active, requests)
  {
    hide HookRequest, Active;
    assert forall k | 0 <= k < |begun| :: more[begun[k]] == windows[begun[k]];
  }

  lemma OneMoreRequest(c: CompiledGraph, payload: V.Value, starts: seq<Start>, windows: seq<Window>,
                       begun: seq<nat>, wave: nat, active: seq<string>, requests: map<string, V.Value>, s: Start)
    requires RequestsOk(c, payload, starts, windows, begun, wave)
    requires AtHand(c, payload, windows, begun, wave, active, requests)
    requires s.wave == wave && s.node in active
    requires s.request == if s.node in requests then requests[s.node] else payload
    ensures RequestsOk(c, payload, starts + [s], windows, begun, wave)
    ensures s.node in c.nodes && s.request == Asked(c, payload, windows, begun, wave, s.node)
  {
    hide HookRequest, Active, Asked, Activated;
  }

  /** The last window begins a new wave. */
  lemma WaveBegun(c: CompiledGraph, payload: V.Value, starts: seq<Start>, windows: seq<Window>, begun: seq<nat>,
                  wave: nat, next: seq<string>, requests: map<string, V.Value>)
    requires RequestsOk(c, payload, starts, windows, begun, wave)
    requires windows != [] && forall k | 0 <= k < |begun| :: begun[k] < |windows| - 1
    requires var w := windows[|windows| - 1];
      forall n | n in next :: n in c.nodes && n in Active(c, StateTriggers(w.changed))
        && n in requests && requests[n] == HookRequest(c.nodes[n], w.changed, w.to)
    ensures RequestsOk(c, payload, starts, windows, begun + [|windows| - 1], wave + 1)
    ensures AtHand(c, payload, windows, begun + [|windows| - 1], wave + 1, next, requests)
  {
    hide HookRequest, Active;
    var more := begun + [|windows| - 1];
    assert forall k | 0 <= k < |begun| :: more[k] == begun[k];
  }
}
